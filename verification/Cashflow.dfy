/**
 * Settlement of one cashflow: check, claim, pay, burn, mark; on any failure after
 * the claim, refund what was paid and release the claim.
 */
module Cashflow {
  import opened Wrappers
  import opened Faults
  import opened Sequences
  import opened Sums
  import opened ProRata

  datatype Payment = Payment(to: string, amount: int)

  /** What a list of payments by one payer adds to an account. */
  function Net(payer: string, ps: seq<Payment>, x: string): int {
    if ps == [] then 0 else
      var p := ps[|ps| - 1];
      Net(payer, ps[..|ps| - 1], x) + (if p.to == x then p.amount else 0) - (if payer == x then p.amount else 0)
  }

  /** A cash transfer that is covered. */
  function Move(cash: Table, from: string, to: string, amount: int): Table {
    Add(Add(cash, from, -amount), to, amount)
  }

  lemma {:induction false} GetMove(cash: Table, from: string, to: string, amount: int, x: string)
    ensures Get(Move(cash, from, to, amount), x)
      == Get(cash, x) + (if x == to then amount else 0) - (if x == from then amount else 0)
  {
  }

  lemma {:induction false} NetOne(payer: string, ps: seq<Payment>, p: Payment, x: string)
    ensures Net(payer, ps + [p], x)
      == Net(payer, ps, x) + (if p.to == x then p.amount else 0) - (if payer == x then p.amount else 0)
  {
  }

  lemma {:induction false} NetSplit(payer: string, ps: seq<Payment>, qs: seq<Payment>, x: string)
    ensures Net(payer, ps + qs, x) == Net(payer, ps, x) + Net(payer, qs, x)
  {
    if qs == [] {
      assert ps + qs == ps;
    } else {
      assert (ps + qs)[..|ps + qs| - 1] == ps + qs[..|qs| - 1];
      NetSplit(payer, ps, qs[..|qs| - 1], x);
    }
  }

  predicate DistinctPayees(ps: seq<Payment>) {
    forall i, j :: 0 <= i < j < |ps| ==> ps[i].to != ps[j].to
  }

  /** A split in the order its payments are made. */
  ghost predicate Enumerates(ps: seq<Payment>, split: Table) {
    && DistinctPayees(ps)
    && (forall i :: 0 <= i < |ps| ==> ps[i].to in split && ps[i].amount == split[ps[i].to])
    && (forall x :: x in split ==> exists i :: 0 <= i < |ps| && ps[i].to == x)
  }

  lemma {:induction false} EnumeratesInit(ps: seq<Payment>, split: Table)
    requires ps != [] && Enumerates(ps, split)
    ensures ps[|ps| - 1].to in split && ps[|ps| - 1].amount == split[ps[|ps| - 1].to]
    ensures Enumerates(ps[..|ps| - 1], split - {ps[|ps| - 1].to})
  {
  }

  lemma {:induction false} EnumeratesAll(ps: seq<Payment>, split: Table)
    requires Enumerates(ps, split)
    ensures |ps| == |split|
    decreases |ps|
  {
    if ps == [] {
      assert split == map[];
    } else {
      EnumeratesInit(ps, split);
      hide Enumerates;
      var p := ps[|ps| - 1];
      Smaller(split, p.to);
      EnumeratesAll(ps[..|ps| - 1], split - {p.to});
    }
  }

  /** Made in any order, the payments of a split give each payee its share and take their sum from the payer. */
  lemma {:induction false} NetOfSplit(payer: string, ps: seq<Payment>, split: Table, x: string)
    requires Enumerates(ps, split)
    ensures Net(payer, ps, x) == Get(split, x) - (if payer == x then Total(split) else 0)
    decreases |ps|
  {
    if ps == [] {
      assert split == map[];
    } else {
      EnumeratesInit(ps, split);
      hide Enumerates, Total;
      var p := ps[|ps| - 1];
      TotalWithout(split, p.to);
      NetOfSplit(payer, ps[..|ps| - 1], split - {p.to}, x);
    }
  }

  datatype Status = Scheduled | Executing | Executed

  datatype Refusal =
    | OpenListings | NoHolders | InsufficientFunds | ClaimThrew | AlreadyExecuted | Interrupted | Unaudited

  datatype Burn = Burned | Refused | BurnedUnrecorded

  /** What becomes of each call made on the way. A burn whose recording fails has still burned. */
  datatype World = World(
    openBefore: bool,
    claim: Fault,
    openAfter: bool,
    pay: nat -> Fault,
    burn: nat -> Burn,
    mature: Fault,
    mark: Fault,
    refund: nat -> Fault,
    release: Fault,
    audit: Fault)

  predicate NoneNegative(cash: Table) {
    forall x :: x in cash ==> cash[x] >= 0
  }

  /** Cash now is cash then, moved by these payments. */
  ghost predicate MovedBy(cash: Table, before: Table, payer: string, ps: seq<Payment>) {
    forall x: string :: Get(cash, x) == Get(before, x) + Net(payer, ps, x)
  }

  lemma {:induction false} PayMoves(cash: Table, before: Table, payer: string, ps: seq<Payment>, p: Payment)
    requires MovedBy(cash, before, payer, ps)
    ensures MovedBy(Move(cash, payer, p.to, p.amount), before, payer, ps + [p])
  {
  }

  /** Paying the first of the outstanding payments back. */
  lemma {:induction false} RefundMoves(cash: Table, before: Table, payer: string, lost: seq<Payment>, due: seq<Payment>)
    requires due != [] && MovedBy(cash, before, payer, lost + due)
    ensures MovedBy(Move(cash, due[0].to, payer, due[0].amount), before, payer, lost + due[1..])
  {
    var p := due[0];
    forall x: string
      ensures Get(Move(cash, p.to, payer, p.amount), x) == Get(before, x) + Net(payer, lost + due[1..], x) {
      assert Get(cash, x) == Get(before, x) + Net(payer, lost + due, x);
      GetMove(cash, p.to, payer, p.amount, x);
      assert due == [p] + due[1..];
      NetSplit(payer, lost, due, x);
      NetSplit(payer, [p], due[1..], x);
      NetSplit(payer, lost, due[1..], x);
      NetOne(payer, [], p, x);
      assert [] + [p] == [p];
    }
  }

  /** Somebody who is paid once, and is not the payer, still has what it was paid. */
  lemma {:induction false} PaidOnce(payer: string, ps: seq<Payment>, i: nat)
    requires i < |ps| && DistinctPayees(ps) && ps[i].to != payer
    ensures Net(payer, ps, ps[i].to) == ps[i].amount
  {
    var init := ps[..|ps| - 1];
    if i == |ps| - 1 {
      NeverPaid(payer, init, ps[i].to);
    } else {
      PaidOnce(payer, init, i);
    }
  }

  lemma {:induction false} NeverPaid(payer: string, ps: seq<Payment>, x: string)
    requires x != payer && forall i :: 0 <= i < |ps| ==> ps[i].to != x
    ensures Net(payer, ps, x) == 0
  {
    if ps != [] { NeverPaid(payer, ps[..|ps| - 1], x); }
  }

  method Enumerate(split: Table) returns (ps: seq<Payment>)
    ensures Enumerates(ps, split)
  {
    ps := [];
    var todo := split.Keys;
    while todo != {}
      invariant todo <= split.Keys && DistinctPayees(ps)
      invariant forall i :: 0 <= i < |ps| ==> ps[i].to in split && ps[i].to !in todo && ps[i].amount == split[ps[i].to]
      invariant forall x :: x in split && x !in todo ==> exists i :: 0 <= i < |ps| && ps[i].to == x
      decreases |todo|
    {
      var x :| x in todo;
      ghost var before := ps;
      ps := ps + [Payment(x, split[x])];
      assert ps[|before|].to == x;
      forall y | y in split && y !in todo - {x} ensures exists i :: 0 <= i < |ps| && ps[i].to == y {
        if y != x {
          var i :| 0 <= i < |before| && before[i].to == y;
          assert ps[i].to == y;
        }
      }
      todo := todo - {x};
    }
  }

  /** The payments whose refund has no effect; one that throws after taking effect has paid back all the same. */
  function Unrefunded(paid: seq<Payment>, refund: nat -> Fault): seq<Payment> {
    if paid == [] then [] else
      Unrefunded(paid[..|paid| - 1], refund) + if refund(|paid| - 1).Before? then [paid[|paid| - 1]] else []
  }

  /** How many of `n` calls work before one does not. */
  function Leading(calls: nat -> Fault, n: nat): (k: nat)
    ensures k <= n && (k == n <==> forall i: nat :: i < n ==> calls(i).Works?)
    ensures k < n ==> !calls(k).Works?
  {
    if n == 0 then 0 else
      var k := Leading(calls, n - 1);
      if k == n - 1 && calls(n - 1).Works? then n else k
  }

  // --- how far an execution gets, by what becomes of its calls --------------------------

  /** Payments made and acknowledged: none if listings have been opened since the claim. */
  function Paid(world: World, redemption: bool, holders: nat): (n: nat)
    ensures n <= holders
  {
    if redemption && world.openAfter then 0 else Leading(world.pay, holders)
  }

  /** Whether the payment after those was made though its call threw. */
  predicate Strays(world: World, redemption: bool, holders: nat) {
    var n := Paid(world, redemption, holders);
    !(redemption && world.openAfter) && n < holders && world.pay(n).After?
  }

  predicate PaysAll(world: World, redemption: bool, holders: nat) {
    !(redemption && world.openAfter) && Paid(world, redemption, holders) == holders
  }

  ghost predicate BurnsAll(world: World, redemption: bool, holders: nat, units: nat) {
    redemption && PaysAll(world, redemption, holders) && forall i: nat :: i < units ==> world.burn(i).Burned?
  }

  /** Whether marking is reached. */
  ghost predicate Finishes(world: World, redemption: bool, holders: nat, units: nat) {
    PaysAll(world, redemption, holders)
    && (redemption ==> BurnsAll(world, redemption, holders, units) && world.mature.Works?)
  }

  /** Holdings of which some have been burned, each of them whole. */
  ghost predicate BurnedFrom(left: Table, units: Table) {
    forall x: string :: Get(left, x) == Get(units, x) || (Get(units, x) > 0 && Get(left, x) == 0)
  }

  predicate PayableBy(payer: string, ps: seq<Payment>) {
    DistinctPayees(ps) && forall i :: 0 <= i < |ps| ==> ps[i].to != payer && ps[i].amount >= 0
  }

  lemma {:induction false} DropNext(payer: string, lost: seq<Payment>, due: seq<Payment>)
    requires due != [] && PayableBy(payer, lost + due)
    ensures PayableBy(payer, lost + due[1..])
    ensures (lost + [due[0]]) + due[1..] == lost + due
  {
    var all, fewer := lost + due, lost + due[1..];
    forall i | 0 <= i < |fewer| ensures fewer[i] == all[if i < |lost| then i else i + 1] { }
  }

  /** The payee of the first outstanding payment can cover its refund. */
  lemma {:induction false} RefundCovered(cash: Table, before: Table, payer: string, lost: seq<Payment>,
      due: seq<Payment>)
    requires NoneNegative(before) && MovedBy(cash, before, payer, lost + due)
    requires due != [] && PayableBy(payer, lost + due)
    ensures Get(cash, due[0].to) >= due[0].amount
  {
    var all := lost + due;
    assert all[|lost|] == due[0];
    PaidOnce(payer, all, |lost|);
    assert Get(cash, due[0].to) == Get(before, due[0].to) + Net(payer, all, due[0].to);
  }

  class Settlement {
    var cash: Table      // of the cashflow's currency
    var status: Status
    var units: Table     // the asset's balances by economic ownership
    var matured: bool

    constructor (cash: Table, units: Table)
      ensures this.cash == cash && this.units == units && status == Scheduled && !matured
    {
      this.cash, this.units, status, matured := cash, units, Scheduled, false;
    }

    method Transfer(from: string, to: string, amount: int, fault: Fault) returns (ok: bool)
      modifies this`cash
      ensures
        var covered := Get(old(cash), from) >= amount;
        && ok == (fault.Works? && covered)
        && cash == if !fault.Before? && covered then Move(old(cash), from, to, amount) else old(cash)
    {
      if fault.Before? || Get(cash, from) < amount { return false; }
      cash := Add(cash, from, -amount);
      cash := Add(cash, to, amount);
      ok := fault.Works?;
    }

    /** Pays until a payment throws; `stray` is that payment if it was made all the same. */
    method PayAll(payer: string, plan: seq<Payment>, pay: nat -> Fault) returns (paid: nat, ghost stray: seq<Payment>)
      modifies this`cash
      ensures paid <= |plan| && MovedBy(cash, old(cash), payer, stray + plan[..paid])
      ensures stray == [] || (paid < |plan| && pay(paid).After? && stray == [plan[paid]])
      ensures PayableBy(payer, plan) && Get(old(cash), payer) >= Sum(plan) ==>
        paid == Leading(pay, |plan|) && (stray == [] <==> paid == |plan| || !pay(paid).After?)
    {
      hide MovedBy, Move, Net;
      paid, stray := 0, [];
      NothingMoved(cash, payer, plan);
      assert plan[..0] == [] && [] + plan[..0] == [];
      while paid < |plan|
        invariant paid <= |plan| && MovedBy(cash, old(cash), payer, plan[..paid])
        invariant forall i: nat :: i < paid ==> pay(i).Works?
      {
        var p := plan[paid];
        ghost var was := cash;
        var ok := Transfer(payer, p.to, p.amount, pay(paid));
        PayMoves(was, old(cash), payer, plan[..paid], p);
        if !ok {
          if PayableBy(payer, plan) && Get(old(cash), payer) >= Sum(plan) {
            PayerCovers(was, old(cash), payer, plan, paid);
            LeadingIs(pay, |plan|, paid);
          }
          if pay(paid).After? && Get(was, payer) >= p.amount {
            stray := [p];
            Swapped(cash, old(cash), payer, plan[..paid], [p]);
          } else {
            assert [] + plan[..paid] == plan[..paid];
          }
          return;
        }
        assert plan[..paid + 1] == plan[..paid] + [p];
        paid := paid + 1;
      }
      assert [] + plan[..paid] == plan[..paid];
      LeadingIs(pay, |plan|, paid);
    }

    /** Refunds what is known to be paid; what was paid without acknowledgement is not refunded. */
    method RefundAll(payer: string, paid: seq<Payment>, refund: nat -> Fault, ghost stray: seq<Payment>,
        ghost before: Table) returns (ghost lost: seq<Payment>)
      requires NoneNegative(before) && PayableBy(payer, stray + paid) && MovedBy(cash, before, payer, stray + paid)
      modifies this`cash
      ensures lost == stray + Unrefunded(paid, refund) && MovedBy(cash, before, payer, lost)
    {
      hide PayableBy, MovedBy, Move, NoneNegative, Net;
      lost := stray;
      assert stray + [] == stray;
      for i := 0 to |paid|
        invariant lost == stray + Unrefunded(paid[..i], refund)
        invariant PayableBy(payer, lost + paid[i..]) && MovedBy(cash, before, payer, lost + paid[i..])
      {
        var p := paid[i];
        ghost var due := paid[i..];
        RefundCovered(cash, before, payer, lost, due);
        RefundMoves(cash, before, payer, lost, due);
        DropNext(payer, lost, due);
        assert due[1..] == paid[i + 1..];
        assert paid[..i + 1][..i] == paid[..i];
        var ok := Transfer(p.to, payer, p.amount, refund(i));
        if refund(i).Before? { lost := lost + [p]; }
      }
      assert paid[..|paid|] == paid;
      assert lost + paid[|paid|..] == lost;
    }

    /** Burns positive balances in turn until one fails. */
    method BurnAll(burn: nat -> Burn) returns (ok: bool)
      modifies this`units
      ensures BurnedFrom(units, old(units))
      ensures ok <==> forall i: nat :: i < |Positives(old(units))| ==> burn(i).Burned?
      ensures ok ==> forall x: string :: Get(units, x) <= 0
    {
      var order := Enumerate(Positives(units));
      EnumeratesAll(order, Positives(units));
      for i := 0 to |order|
        invariant BurnedFrom(units, old(units))
        invariant forall j :: 0 <= j < i ==> Get(units, order[j].to) == 0 && burn(j).Burned?
      {
        if burn(i) == Refused { return false; }
        units := units[order[i].to := 0];
        if burn(i) == BurnedUnrecorded { return false; }
      }
      forall x: string ensures Get(units, x) <= 0 {
        if Get(old(units), x) > 0 {
          assert x in Positives(old(units));
          var j :| 0 <= j < |order| && order[j].to == x;
        }
      }
      ok := true;
    }

    /** What is tried once the cashflow is claimed: check again, pay, burn, mature, mark. */
    method Settle(redemption: bool, payer: string, plan: seq<Payment>, world: World)
        returns (ok: bool, paid: nat, ghost stray: seq<Payment>)
      requires PayableBy(payer, plan) && Get(cash, payer) >= Sum(plan)
      modifies this
      ensures
        var n, m := |plan|, |Positives(old(units))|;
        && ok == (Finishes(world, redemption, n, m) && world.mark.Works?)
        && paid == Paid(world, redemption, n)
        && stray == (if Strays(world, redemption, n) then [plan[paid]] else [])
        && MovedBy(cash, old(cash), payer, stray + plan[..paid])
        && BurnedFrom(units, old(units))
        && (!redemption || !PaysAll(world, redemption, n) ==> units == old(units))
        && (BurnsAll(world, redemption, n, m) ==> forall x: string :: Get(units, x) <= 0)
        && matured == (old(matured) || (BurnsAll(world, redemption, n, m) && !world.mature.Before?))
        && status == if Finishes(world, redemption, n, m) && !world.mark.Before? then Executed else old(status)
    {
      hide MovedBy, PayableBy, Leading, Sum, Positives;
      ok, paid, stray := false, 0, [];
      if redemption && world.openAfter { NothingMoved(cash, payer, plan); return; }
      paid, stray := PayAll(payer, plan, world.pay);
      if paid < |plan| { return; }
      if redemption {
        ok := BurnAll(world.burn);
        if !ok { return; }
        if !world.mature.Before? { matured := true; }
        ok := world.mature.Works?;
        if !ok { return; }
      }
      if !world.mark.Before? { status := Executed; }
      ok := world.mark.Works?;
    }

    /**
     * What happens once the cashflow is claimed: it is settled, or what was paid is refunded and the
     * claim released.
     */
    method SettleOrRefund(redemption: bool, payer: string, plan: seq<Payment>, world: World)
        returns (ok: bool, ghost lost: seq<Payment>)
      requires NoneNegative(cash) && PayableBy(payer, plan) && Get(cash, payer) >= Sum(plan) && status == Executing
      modifies this
      ensures
        var n, m := |plan|, |Positives(old(units))|;
        && ok == (Finishes(world, redemption, n, m) && world.mark.Works?)
        && MovedBy(cash, old(cash), payer, if ok then plan else lost)
        && (ok ==> lost == []) && (forall p :: p in lost ==> p in plan)
        && (!ok ==> (lost == [] <==> AllReturned(world, redemption, n)))
        && BurnedFrom(units, old(units))
        && (!redemption || !PaysAll(world, redemption, n) ==> units == old(units))
        && (ok && redemption ==> matured && forall x: string :: Get(units, x) <= 0)
        && (!redemption ==> matured == old(matured))
        && matured == (old(matured) || (BurnsAll(world, redemption, n, m) && !world.mature.Before?))
        && status == if ok then Executed else AfterInterruption(world, redemption, n, m)
    {
      hide Net, Paid, Leading, Unrefunded, Sum, Positives, MovedBy, PayableBy, NoneNegative, BurnedFrom, PaysAll,
        AllReturned;
      ghost var before, units0 := cash, units;
      var paid;
      ghost var stray;
      ok, paid, stray := Settle(redemption, payer, plan, world);
      lost := [];
      if ok {
        WholePlan(world, redemption, plan, |Positives(units0)|);
        assert [] + plan[..paid] == plan;
        return;
      }
      StrayPayable(payer, plan, paid, stray);
      lost := RefundAll(payer, plan[..paid], world.refund, stray, before);
      LostAre(world, redemption, plan, stray, paid);
      if status == Executing && !world.release.Before? { status := Scheduled; }
    }

    /**
     * Either nothing has happened; or everything has, once, with or without its audit
     * entry; or the execution was interrupted. Then each holder's units are as they were
     * or burned whole, and cash is off by exactly the payments that were made without
     * acknowledgement or whose refund had no effect. The claim is released, unless that
     * had no effect; but not if the mark had one, and then the cashflow is executed and
     * its holders refunded.
     */
    method Execute(redemption: bool, amount: int, payer: string, lower: string -> string, world: World)
        returns (r: Result<Table, Refusal>, ghost lost: seq<Payment>)
      requires NoneNegative(cash)
      modifies this
      ensures
        var due, m := Due(amount, old(units), payer, lower), |Positives(old(units))|;
        var v := Verdict(redemption, due, Get(old(cash), payer), old(status), m, world);
        && (v.None? ==> r == Success(due)) && (v.Some? ==> r == Failure(v.value))
        && if v.None? || v == Some(Unaudited) then
             && status == Executed && lost == []
             && (forall x: string ::
                   Get(cash, x) == Get(old(cash), x) + Get(due, x) - (if x == payer then Total(due) else 0))
             && (if redemption then matured && forall x: string :: Get(units, x) <= 0
                 else matured == old(matured) && units == old(units))
           else if v == Some(Interrupted) then
             && status == AfterInterruption(world, redemption, |due|, m)
             && MovedBy(cash, old(cash), payer, lost)
             && (forall i :: 0 <= i < |lost| ==> lost[i].to in due && lost[i].amount == due[lost[i].to])
             && (lost == [] <==> AllReturned(world, redemption, |due|))
             && BurnedFrom(units, old(units))
             && (!redemption || !PaysAll(world, redemption, |due|) ==> units == old(units))
             && matured == (old(matured) || (BurnsAll(world, redemption, |due|, m) && !world.mature.Before?))
           else
             && cash == old(cash) && units == old(units) && matured == old(matured) && lost == []
             && status == if v == Some(ClaimThrew) && world.claim.After? && old(status) == Scheduled then Executing
                          else old(status)
    {
      hide Get, Move, Add, Net, Sum, Split, Positives, WithoutPayer, Paid, Leading, Strays, PaysAll, BurnsAll, Finishes,
        BurnedFrom, AfterInterruption, AllReturned, Total, MovedBy, Enumerates, PayableBy, NoneNegative, Unrefunded;
      ghost var due, m := Due(amount, units, payer, lower), |Positives(units)|;
      lost := [];
      if redemption && world.openBefore { return Failure(OpenListings), lost; }
      var split := SplitProRata(amount, units);
      split := DropPayerShare(split, payer, lower);
      if split == map[] { return Failure(NoHolders), lost; }
      var plan := Enumerate(split);
      var payable := AddUp(plan);
      PlanIsPayable(payer, plan, split, amount, units, lower);
      if Get(cash, payer) < payable { return Failure(InsufficientFunds), lost; }
      if world.claim.Before? { return Failure(ClaimThrew), lost; }
      var won := status == Scheduled;
      if won { status := Executing; }
      if world.claim.After? { return Failure(ClaimThrew), lost; }
      if !won { return Failure(AlreadyExecuted), lost; }

      ghost var before := cash;
      var ok;
      ok, lost := SettleOrRefund(redemption, payer, plan, world);
      if !ok { return Failure(Interrupted), lost; }
      SplitPaid(cash, before, payer, plan, split);
      r := if world.audit.Works? then Success(split) else Failure(Unaudited);
    }
  }

  // --- the payments of a split ------------------------------------------------------

  function Sum(ps: seq<Payment>): int {
    if ps == [] then 0 else Sum(ps[..|ps| - 1]) + ps[|ps| - 1].amount
  }

  /** A payer who could cover the whole plan can cover its next payment. */
  lemma {:induction false} PayerCovers(cash: Table, before: Table, payer: string, plan: seq<Payment>, i: nat)
    requires i < |plan| && PayableBy(payer, plan) && MovedBy(cash, before, payer, plan[..i])
    ensures Get(before, payer) >= Sum(plan) ==> Get(cash, payer) >= plan[i].amount
  {
    assert Get(cash, payer) == Get(before, payer) + Net(payer, plan[..i], payer);
    PayerPays(payer, plan[..i]);
    assert plan[..i + 1][..i] == plan[..i];
    SumGrows(plan, i + 1);
  }

  lemma {:induction false} PayerPays(payer: string, ps: seq<Payment>)
    requires forall i :: 0 <= i < |ps| ==> ps[i].to != payer
    ensures Net(payer, ps, payer) == -Sum(ps)
  {
    if ps != [] { PayerPays(payer, ps[..|ps| - 1]); }
  }

  lemma {:induction false} SumGrows(ps: seq<Payment>, i: nat)
    requires i <= |ps| && forall j :: 0 <= j < |ps| ==> ps[j].amount >= 0
    ensures Sum(ps[..i]) <= Sum(ps)
    decreases |ps|
  {
    if i < |ps| {
      assert ps[..|ps| - 1][..i] == ps[..i];
      SumGrows(ps[..|ps| - 1], i);
    } else {
      assert ps[..i] == ps;
    }
  }

  method AddUp(ps: seq<Payment>) returns (sum: int)
    ensures sum == Sum(ps)
  {
    sum := 0;
    for i := 0 to |ps|
      invariant sum == Sum(ps[..i])
    {
      assert ps[..i + 1][..i] == ps[..i];
      sum := sum + ps[i].amount;
    }
    assert ps[..|ps|] == ps;
  }

  /** What each holder is due: its share of the split, the payer's own withheld. */
  ghost function Due(amount: int, units: Table, payer: string, lower: string -> string): Table {
    WithoutPayer(Split(amount, units), payer, lower)
  }

  /** What is answered; None for success. */
  ghost function Verdict(redemption: bool, due: Table, funds: int, status: Status, units: nat,
      world: World): Option<Refusal> {
    if redemption && world.openBefore then Some(OpenListings)
    else if due == map[] then Some(NoHolders)
    else if funds < Total(due) then Some(InsufficientFunds)
    else if !world.claim.Works? then Some(ClaimThrew)
    else if status != Scheduled then Some(AlreadyExecuted)
    else if !Finishes(world, redemption, |due|, units) || !world.mark.Works? then Some(Interrupted)
    else if !world.audit.Works? then Some(Unaudited)
    else None
  }

  /** Every call from the claim to the mark works, and no listing was opened after the claim. */
  ghost predicate AllWork(redemption: bool, holders: nat, units: nat, world: World) {
    && world.claim.Works? && world.mark.Works?
    && (forall i: nat :: i < holders ==> world.pay(i).Works?)
    && (redemption ==>
      !world.openAfter && world.mature.Works? && forall i: nat :: i < units ==> world.burn(i).Burned?)
  }

  /**
   * An execution succeeds exactly if there is somebody to pay and the funds to pay them, the
   * cashflow was scheduled, a redemption has no open listings, and every call works; and a
   * refusal names what is the case.
   */
  lemma {:induction false} SucceedsIff(redemption: bool, due: Table, funds: int, status: Status, units: nat,
      world: World)
    ensures Verdict(redemption, due, funds, status, units, world) == None <==>
      && !(redemption && world.openBefore) && due != map[] && funds >= Total(due) && status == Scheduled
      && AllWork(redemption, |due|, units, world) && world.audit.Works?
    ensures
      match Verdict(redemption, due, funds, status, units, world)
      case None => true
      case Some(OpenListings) => redemption && world.openBefore
      case Some(NoHolders) => due == map[]
      case Some(InsufficientFunds) => funds < Total(due)
      case Some(ClaimThrew) => !world.claim.Works?
      case Some(AlreadyExecuted) => world.claim.Works? && status != Scheduled
      case Some(Interrupted) => status == Scheduled && !AllWork(redemption, |due|, units, world)
      case Some(Unaudited) => status == Scheduled && AllWork(redemption, |due|, units, world) && !world.audit.Works?
  {
    FinishesIff(redemption, |due|, units, world);
    hide Finishes, Total;
  }

  lemma {:induction false} FinishesIff(redemption: bool, holders: nat, units: nat, world: World)
    ensures AllWork(redemption, holders, units, world) <==>
      world.claim.Works? && world.mark.Works? && Finishes(world, redemption, holders, units)
  {
    hide Leading;
  }

  ghost function AfterInterruption(world: World, redemption: bool, holders: nat, units: nat): Status {
    if Finishes(world, redemption, holders, units) && world.mark.After? then Executed
    else if world.release.Before? then Executing
    else Scheduled
  }

  /**
   * After an interruption the cashflow can be executed again exactly if releasing it had an
   * effect and marking it had none; it counts as executed exactly if the mark threw after
   * taking effect.
   */
  lemma {:induction false} RetriableIff(world: World, redemption: bool, holders: nat, units: nat)
    requires world.claim.Works?
    ensures
      var marked := AllWork(redemption, holders, units, world.(mark := Works)) && world.mark.After?;
      var status := AfterInterruption(world, redemption, holders, units);
      && (status == Executed <==> marked)
      && (status == Scheduled <==> !marked && (world.release.Works? || world.release.After?))
  {
    FinishesIff(redemption, holders, units, world.(mark := Works));
    SameToTheMark(redemption, holders, units, world);
    hide Finishes, AllWork;
  }

  lemma {:induction false} SameToTheMark(redemption: bool, holders: nat, units: nat, world: World)
    ensures Finishes(world.(mark := Works), redemption, holders, units) <==> Finishes(world, redemption, holders, units)
  {
  }

  /** No payment was made without acknowledgement, and every refund had its effect. */
  predicate AllReturned(world: World, redemption: bool, holders: nat) {
    !Strays(world, redemption, holders)
    && forall i: nat :: i < Paid(world, redemption, holders) ==> !world.refund(i).Before?
  }

  /**
   * Nothing is lost exactly if no payment that is reached throws after it was made, and no
   * refund of one that worked is without effect; reached are those before which all work, and
   * none if listings were opened after the claim.
   */
  lemma {:induction false} ReturnedIff(world: World, redemption: bool, holders: nat)
    ensures AllReturned(world, redemption, holders) <==>
      (redemption && world.openAfter)
      || forall i: nat :: i < holders && (forall j: nat :: j < i ==> world.pay(j).Works?) ==>
           !world.pay(i).After? && (world.pay(i).Works? ==> !world.refund(i).Before?)
  {
    if !(redemption && world.openAfter) {
      var k := Leading(world.pay, holders);
      LeadingWorks(world.pay, holders);
      hide Leading;
      if AllReturned(world, redemption, holders) {
        forall i: nat | i < holders && (forall j: nat :: j < i ==> world.pay(j).Works?)
          ensures !world.pay(i).After? && (world.pay(i).Works? ==> !world.refund(i).Before?)
        {
          if i > k { assert false; }
        }
      }
    }
  }

  lemma {:induction false} LeadingWorks(calls: nat -> Fault, n: nat)
    ensures forall i: nat :: i < Leading(calls, n) ==> calls(i).Works?
  {
    if n > 0 { LeadingWorks(calls, n - 1); }
  }

  lemma {:induction false} PlanIsPayable(payer: string, plan: seq<Payment>, split: Table, amount: int,
      units: Table, lower: string -> string)
    requires Enumerates(plan, split) && split == Due(amount, units, payer, lower)
    ensures PayableBy(payer, plan) && Sum(plan) == Total(split) && |plan| == |split|
    ensures forall p :: p in plan ==> p.to in split && p.amount == split[p.to]
  {
    SplitWithinTotal(amount, units);
    EnumeratesAll(plan, split);
    PayerPays(payer, plan);
    NetOfSplit(payer, plan, split, payer);
  }

  lemma {:induction false} LeadingIs(calls: nat -> Fault, n: nat, k: nat)
    requires k <= n && forall i: nat :: i < k ==> calls(i).Works?
    requires k < n ==> !calls(k).Works?
    ensures Leading(calls, n) == k
  {
    if n > 0 {
      if k == n { LeadingIs(calls, n - 1, n - 1); } else if k < n - 1 { LeadingIs(calls, n - 1, k); }
    }
  }

  lemma {:induction false} Swapped(cash: Table, before: Table, payer: string, ps: seq<Payment>, qs: seq<Payment>)
    requires MovedBy(cash, before, payer, ps + qs)
    ensures MovedBy(cash, before, payer, qs + ps)
  {
    forall x: string ensures Net(payer, qs + ps, x) == Net(payer, ps + qs, x) {
      NetSplit(payer, ps, qs, x);
      NetSplit(payer, qs, ps, x);
    }
  }

  /** Nothing strays when marking is reached, and the whole plan is paid. */
  lemma {:induction false} WholePlan(world: World, redemption: bool, plan: seq<Payment>, units: nat)
    requires Finishes(world, redemption, |plan|, units)
    ensures Paid(world, redemption, |plan|) == |plan| && !Strays(world, redemption, |plan|)
  {
    hide Leading;
  }

  lemma {:induction false} StrayPayable(payer: string, plan: seq<Payment>, n: nat, stray: seq<Payment>)
    requires PayableBy(payer, plan) && n <= |plan|
    requires stray == [] || (n < |plan| && stray == [plan[n]])
    ensures PayableBy(payer, stray + plan[..n])
  {
  }

  /** The payments lost are payments of the plan, and there are none exactly if all were returned. */
  lemma {:induction false} LostAre(world: World, redemption: bool, plan: seq<Payment>, stray: seq<Payment>, paid: nat)
    requires paid == Paid(world, redemption, |plan|)
    requires stray == if Strays(world, redemption, |plan|) then [plan[paid]] else []
    ensures
      var lost := stray + Unrefunded(plan[..paid], world.refund);
      && (forall p :: p in lost ==> p in plan)
      && (lost == [] <==> AllReturned(world, redemption, |plan|))
  {
    hide Leading, Unrefunded;
    UnrefundedAre(plan[..paid], world.refund);
    assert forall p :: p in plan[..paid] ==> p in plan;
  }

  lemma {:induction false} NothingMoved(cash: Table, payer: string, plan: seq<Payment>)
    ensures MovedBy(cash, cash, payer, plan[..0]) && MovedBy(cash, cash, payer, [] + plan[..0])
  {
  }

  lemma {:induction false} SplitPaid(cash: Table, before: Table, payer: string, plan: seq<Payment>, split: Table)
    requires MovedBy(cash, before, payer, plan) && Enumerates(plan, split)
    ensures forall x: string ::
      Get(cash, x) == Get(before, x) + Get(split, x) - (if x == payer then Total(split) else 0)
  {
    forall x: string ensures Get(cash, x) == Get(before, x) + Get(split, x) - (if x == payer then Total(split) else 0) {
      NetOfSplit(payer, plan, split, x);
    }
  }

  lemma {:induction false} UnrefundedAre(paid: seq<Payment>, refund: nat -> Fault)
    ensures forall i :: 0 <= i < |Unrefunded(paid, refund)| ==> Unrefunded(paid, refund)[i] in paid
    ensures Unrefunded(paid, refund) == [] <==> forall i: nat :: i < |paid| ==> !refund(i).Before?
  {
    if paid != [] {
      UnrefundedAre(paid[..|paid| - 1], refund);
    }
  }

  // --- what a failed redemption leaves behind ------------------------------------------

  lemma {:induction false} SmallerSupply(n: int, small: int, large: int)
    requires n >= 0 && 0 < small <= large
    ensures n / large <= n / small
  {
    var q := n / large;
    FloorBounds(n, large);
    FloorBounds(n, small);
    if q > n / small {
      TimesMore(n / small + 1, q, small);
      Commute(q, small, large);
    }
  }

  lemma {:induction false} Commute(q: int, small: int, large: int)
    requires q >= 0 && 0 < small <= large
    ensures q * small <= q * large
  {
  }

  /**
   * Burns are not undone. After an interrupted redemption a holder whose units were
   * burned has been refunded away and has no share in the next attempt, while every
   * other holder's share is at least what it was.
   */
  lemma {:induction false} RetryPassesOverTheBurned(amount: int, units: Table, left: Table, x: string)
    requires BurnedFrom(left, units)
    ensures Get(units, x) > 0 && Get(left, x) == 0 ==> x !in Split(amount, left)
    ensures Get(left, x) == Get(units, x) ==> Get(Split(amount, left), x) >= Get(Split(amount, units), x)
  {
    SplitWithinTotal(amount, left);
    SplitWithinTotal(amount, units);
    var was, now := Positives(units), Positives(left);
    if Get(left, x) == Get(units, x) && x in Split(amount, units) {
      assert x in was && x in now && was[x] == now[x];
      SupplyPositive(now);
      FewerHold(units, left);
      SmallerSupply(amount * was[x], Total(now), Total(was));
    }
  }

  lemma {:induction false} FewerHold(units: Table, left: Table)
    requires BurnedFrom(left, units)
    ensures Total(Positives(left)) <= Total(Positives(units))
  {
    var was, now := Positives(units), Positives(left);
    var padded := map y | y in was :: if y in now then now[y] else 0;
    forall y: string ensures Get(padded, y) == Get(now, y) && (y in was ==> padded[y] <= was[y]) {
      assert Get(left, y) == Get(units, y) || (Get(units, y) > 0 && Get(left, y) == 0);
    }
    SameReadsSameTotal(padded, now);
    TotalBound(was, padded);
  }
}
