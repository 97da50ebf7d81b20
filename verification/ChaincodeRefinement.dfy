/**
 * The chaincode against the simulated ledger: on deployed assets the two accept
 * the same operations and stay related, except where an operation moves
 * something from an account to itself.
 */
module ChaincodeRefinement {
  import opened Wrappers
  import opened Sequences
  import opened Sums
  import opened Amounts
  import opened Ledger
  import opened Chaincode

  /** The owned lists are the owner keys, inverted: without duplicates, and each exactly the tokens of its account. */
  ghost predicate IndexMatches(s: Store, ref: string, owners: map<string, string>) {
    && (forall t :: Owner(s, ref, t) == if t in owners then Some(owners[t]) else None)
    && (forall x :: Distinct(OwnedList(s, ref, x)))
    && (forall x, t :: t in OwnedList(s, ref, x) <==> t in owners && owners[t] == x)
  }

  ghost predicate FlagsMatch(s: Store, ref: string, a: AssetState) {
    && LoadAsset(s, ref) == Some(AssetVal(a.tokenType, a.allowlistEnabled))
    && (forall x :: Flag(s, FrozenKey(ref, x)) <==> x in a.frozen)
    && (forall x :: Flag(s, AllowedKey(ref, x)) <==> x in a.allowed)
  }

  ghost predicate BalancesMatch(s: Store, ref: string, a: AssetState) {
    && (forall x :: BigState(s, BalKey(ref, x)) == Get(a.balances, x))
    && BigState(s, SupplyKey(ref)) == a.supply
  }

  ghost predicate Refines(s: Store, ref: string, a: AssetState) {
    FlagsMatch(s, ref, a) && BalancesMatch(s, ref, a) && IndexMatches(s, ref, a.owners)
  }

  /** An amount that Go can read, if the operation carries one. */
  predicate Readable(op: Op) {
    match op
    case Mint(_, amount) => GoBigInt(amount).Some?
    case Transfer(_, _, amount) => GoBigInt(amount).Some?
    case Burn(_, amount) => GoBigInt(amount).Some?
    case _ => true
  }

  predicate ToItself(op: Op) {
    (op.Transfer? || op.TransferToken?) && op.from == op.to
  }

  lemma {:induction false} SameAmount(amount: string)
    ensures AmountGiven(amount).Success? <==> Positive(amount).Success? && GoBigInt(amount).Some?
    ensures AmountGiven(amount).Success? ==> AmountGiven(amount).value == Positive(amount).value
  {
    if GoBigInt(amount).Some? { GoReadsLessThanJs(amount); }
  }

  /** The chaincode accepts exactly what the ledger accepts, of the operations whose amount it can read. */
  lemma {:induction false} AcceptsTheSame(s: Store, ref: string, a: AssetState, op: Op)
    requires Refines(s, ref, a)
    ensures Invoke(s, ref, op).Success? <==> Apply(a, op).Success? && Readable(op)
  {
    hide GoBigInt, JsBigInt, Positive, AmountGiven, Get, BigState;
    match op
    case Mint(to, amount) => SameAmount(amount); AmountIsRead(amount);
    case Transfer(from, to, amount) =>
      SameAmount(amount);
      AmountIsRead(amount);
      assert BigState(s, BalKey(ref, from)) == Get(a.balances, from);
    case Burn(from, amount) =>
      SameAmount(amount);
      AmountIsRead(amount);
      assert BigState(s, BalKey(ref, from)) == Get(a.balances, from);
    case _ =>
  }

  lemma {:induction false} AmountIsRead(amount: string)
    ensures AmountGiven(amount).Failure? ==> AmountGiven(amount) == Failure(BadAmount)
  {
  }

  // --- after an accepted operation ---------------------------------------------------

  lemma {:induction false} WithoutKeeps(ids: seq<string>, tokenId: string)
    ensures forall t :: t in Without(ids, tokenId) <==> t in ids && t != tokenId
    ensures Distinct(ids) ==> Distinct(Without(ids, tokenId))
    ensures |Without(ids, tokenId)| <= |ids|
  {
    if ids != [] {
      var init, last := ids[..|ids| - 1], ids[|ids| - 1];
      WithoutKeeps(init, tokenId);
      assert ids == init + [last];
      if Distinct(ids) {
        assert forall i :: 0 <= i < |init| ==> ids[i] != last;
        assert last !in init;
      }
    }
  }

  lemma {:induction false} AppendDistinct(ids: seq<string>, t: string)
    requires Distinct(ids) && t !in ids
    ensures Distinct(ids + [t])
  {
  }

  /** What the index answers after an owned list is rewritten. */
  lemma {:induction false} ListWritten(s: Store, ref: string, x: string, ids: seq<string>, y: string, u: string)
    ensures OwnedList(s[OwnedKey(ref, x) := Ids(ids)], ref, y) == if y == x then ids else OwnedList(s, ref, y)
    ensures Owner(s[OwnedKey(ref, x) := Ids(ids)], ref, u) == Owner(s, ref, u)
  {
  }

  /** What it answers after an owner key is written, or deleted. */
  lemma {:induction false} OwnerWritten(s: Store, ref: string, t: string, x: string, y: string, u: string)
    ensures OwnedList(s[OwnerKey(ref, t) := Acct(x)], ref, y) == OwnedList(s, ref, y)
      == OwnedList(s - {OwnerKey(ref, t)}, ref, y)
    ensures Owner(s[OwnerKey(ref, t) := Acct(x)], ref, u) == if u == t then Some(x) else Owner(s, ref, u)
    ensures Owner(s - {OwnerKey(ref, t)}, ref, u) == if u == t then None else Owner(s, ref, u)
  {
  }

  /** The index after its reads have changed at one token and one account. */
  lemma {:induction false} IndexGains(s: Store, s': Store, ref: string, owners: map<string, string>, x: string,
      t: string)
    requires IndexMatches(s, ref, owners) && t !in owners
    requires forall u :: Owner(s', ref, u) == if u == t then Some(x) else Owner(s, ref, u)
    requires forall y :: OwnedList(s', ref, y) == if y == x then OwnedList(s, ref, x) + [t] else OwnedList(s, ref, y)
    ensures IndexMatches(s', ref, owners[t := x])
  {
    hide Owner, OwnedList, Distinct;
    AppendDistinct(OwnedList(s, ref, x), t);
  }

  lemma {:induction false} GainToken(s: Store, ref: string, owners: map<string, string>, x: string, t: string)
    requires IndexMatches(s, ref, owners) && t !in owners
    ensures IndexMatches(s[OwnerKey(ref, t) := Acct(x)][OwnedKey(ref, x) := Ids(OwnedList(s, ref, x) + [t])], ref,
              owners[t := x])
  {
    hide *;
    var ids, owned := OwnedList(s, ref, x) + [t], s[OwnerKey(ref, t) := Acct(x)];
    var s' := owned[OwnedKey(ref, x) := Ids(ids)];
    forall y ensures OwnedList(s', ref, y) == if y == x then ids else OwnedList(s, ref, y) {
      OwnerWritten(s, ref, t, x, y, t);
      ListWritten(owned, ref, x, ids, y, t);
    }
    forall u ensures Owner(s', ref, u) == if u == t then Some(x) else Owner(s, ref, u) {
      OwnerWritten(s, ref, t, x, x, u);
      ListWritten(owned, ref, x, ids, x, u);
    }
    IndexGains(s, s', ref, owners, x, t);
  }

  lemma {:induction false} LoseToken(s: Store, ref: string, owners: map<string, string>, t: string)
    requires IndexMatches(s, ref, owners) && t in owners
    ensures
      var x := owners[t];
      IndexMatches(s[OwnedKey(ref, x) := Ids(Without(OwnedList(s, ref, x), t))] - {OwnerKey(ref, t)}, ref, owners - {t})
  {
    hide Owner, OwnedList, Distinct, Without;
    var x := owners[t];
    var ids := Without(OwnedList(s, ref, x), t);
    var listed := s[OwnedKey(ref, x) := Ids(ids)];
    var s' := listed - {OwnerKey(ref, t)};
    WithoutKeeps(OwnedList(s, ref, x), t);
    forall y, u
      ensures OwnedList(s', ref, y) == if y == x then ids else OwnedList(s, ref, y)
      ensures Owner(s', ref, u) == if u == t then None else Owner(s, ref, u)
    {
      ListWritten(s, ref, x, ids, y, u);
      OwnerWritten(listed, ref, t, x, y, u);
    }
  }

  lemma {:induction false} MoveToken(s: Store, ref: string, owners: map<string, string>, to: string, t: string)
    requires IndexMatches(s, ref, owners) && t in owners && owners[t] != to
    ensures
      var from := owners[t];
      IndexMatches(s[OwnedKey(ref, from) := Ids(Without(OwnedList(s, ref, from), t))]
                    [OwnerKey(ref, t) := Acct(to)]
                    [OwnedKey(ref, to) := Ids(OwnedList(s, ref, to) + [t])], ref, owners[t := to])
  {
    var from := owners[t];
    LoseToken(s, ref, owners, t);
    var lost := s[OwnedKey(ref, from) := Ids(Without(OwnedList(s, ref, from), t))] - {OwnerKey(ref, t)};
    GainToken(lost, ref, owners - {t}, to, t);
    assert OwnedList(lost, ref, to) == OwnedList(s, ref, to);
    assert lost[OwnerKey(ref, t) := Acct(to)][OwnedKey(ref, to) := Ids(OwnedList(s, ref, to) + [t])]
      == s[OwnedKey(ref, from) := Ids(Without(OwnedList(s, ref, from), t))]
          [OwnerKey(ref, t) := Acct(to)]
          [OwnedKey(ref, to) := Ids(OwnedList(s, ref, to) + [t])];
    assert (owners - {t})[t := to] == owners[t := to];
  }

  /** Transferring a token to its owner appends it to a list it was only removed from in a write that is overwritten. */
  lemma {:induction false} MoveToOwner(s: Store, ref: string, owners: map<string, string>, t: string)
    requires IndexMatches(s, ref, owners) && t in owners
    ensures
      var x := owners[t];
      var s' := s[OwnedKey(ref, x) := Ids(Without(OwnedList(s, ref, x), t))]
                 [OwnerKey(ref, t) := Acct(x)]
                 [OwnedKey(ref, x) := Ids(OwnedList(s, ref, x) + [t])];
      OwnedList(s', ref, x) == OwnedList(s, ref, x) + [t] && !Distinct(OwnedList(s', ref, x))
  {
    var x := owners[t];
    var ids := OwnedList(s, ref, x);
    assert t in ids;
    var i :| 0 <= i < |ids| && ids[i] == t;
    assert (ids + [t])[i] == (ids + [t])[|ids|];
  }

  predicate SameAt(s: Store, s': Store, k: Key) {
    (k in s <==> k in s') && (k in s ==> s[k] == s'[k])
  }

  /** Writes to other keys leave each part of the relation alone. */
  lemma {:induction false} FlagsKept(s: Store, s': Store, ref: string, a: AssetState)
    requires FlagsMatch(s, ref, a)
    requires forall k: Key :: k.ref == ref && (k.AssetKey? || k.FrozenKey? || k.AllowedKey?) ==> SameAt(s, s', k)
    ensures FlagsMatch(s', ref, a)
  {
  }

  lemma {:induction false} BalancesKept(s: Store, s': Store, ref: string, a: AssetState)
    requires BalancesMatch(s, ref, a)
    requires forall k: Key :: k.ref == ref && (k.BalKey? || k.SupplyKey?) ==> SameAt(s, s', k)
    ensures BalancesMatch(s', ref, a)
  {
  }

  lemma {:induction false} IndexKept(s: Store, s': Store, ref: string, owners: map<string, string>)
    requires IndexMatches(s, ref, owners)
    requires forall k: Key :: k.ref == ref && (k.OwnerKey? || k.OwnedKey?) ==> SameAt(s, s', k)
    ensures IndexMatches(s', ref, owners)
  {
    hide Distinct;
    forall t ensures Owner(s', ref, t) == Owner(s, ref, t) { assert SameAt(s, s', OwnerKey(ref, t)); }
    forall x ensures OwnedList(s', ref, x) == OwnedList(s, ref, x) { assert SameAt(s, s', OwnedKey(ref, x)); }
  }

  lemma {:induction false} OnlyBalancesWritten(s: Store, s': Store, ref: string, a: AssetState, b: AssetState)
    requires Refines(s, ref, a) && b == a.(balances := b.balances, supply := b.supply)
    requires forall k: Key :: !k.BalKey? && !k.SupplyKey? ==> SameAt(s, s', k)
    ensures Refines(s', ref, b) <==> BalancesMatch(s', ref, b)
  {
    hide BalancesMatch, IndexMatches;
    FlagsKept(s, s', ref, a);
    IndexKept(s, s', ref, a.owners);
  }

  lemma {:induction false} OnlyIndexWritten(s: Store, s': Store, ref: string, a: AssetState, b: AssetState)
    requires Refines(s, ref, a) && b == a.(owners := b.owners, uris := b.uris)
    requires forall k: Key :: !k.OwnerKey? && !k.OwnedKey? ==> SameAt(s, s', k)
    ensures Refines(s', ref, b) <==> IndexMatches(s', ref, b.owners)
  {
    FlagsKept(s, s', ref, a);
    BalancesKept(s, s', ref, a);
  }

  /** Writing one balance and the supply, both moved by the same amount. */
  lemma {:induction false} OneBalanceMoved(s: Store, ref: string, a: AssetState, who: string, d: int)
    requires Refines(s, ref, a)
    ensures
      Refines(s[BalKey(ref, who) := Num(BigState(s, BalKey(ref, who)) + d)]
          [SupplyKey(ref) := Num(BigState(s, SupplyKey(ref)) + d)],
              ref, a.(balances := Add(a.balances, who, d), supply := a.supply + d))
  {
    var b := a.(balances := Add(a.balances, who, d), supply := a.supply + d);
    var s' := s[BalKey(ref, who) := Num(BigState(s, BalKey(ref, who)) + d)]
          [SupplyKey(ref) := Num(BigState(s, SupplyKey(ref)) + d)];
    assert BalancesMatch(s, ref, a);
    OnlyBalancesWritten(s, s', ref, a, b);
    hide Refines;
    forall x ensures BigState(s', BalKey(ref, x)) == Get(b.balances, x) {
      assert BigState(s, BalKey(ref, x)) == Get(a.balances, x);
    }
  }

  lemma {:induction false} SupplyWrites(s: Store, ref: string, a: AssetState, op: Op)
    requires (op.Mint? || op.Burn?) && Invoke(s, ref, op).Success? && Apply(a, op).Success?
    ensures Positive(op.amount).Success?
    ensures
      var who, amt := if op.Mint? then op.to else op.from, Positive(op.amount).value;
      var d := if op.Mint? then amt else -amt;
      && Invoke(s, ref, op).value
        == s[BalKey(ref, who) := Num(BigState(s, BalKey(ref, who)) + d)]
          [SupplyKey(ref) := Num(BigState(s, SupplyKey(ref)) + d)]
      && Attempt(a, op) == a.(balances := Add(a.balances, who, d), supply := a.supply + d)
  {
    SameAmount(op.amount);
    SupplyOnLedger(a, op);
    hide Positive, AmountGiven, GoBigInt, JsBigInt, BigState, Add, Attempt, Apply;
  }

  lemma {:induction false} SupplyOnLedger(a: AssetState, op: Op)
    requires (op.Mint? || op.Burn?) && Apply(a, op).Success?
    ensures Positive(op.amount).Success?
    ensures
      var who, amt := if op.Mint? then op.to else op.from, Positive(op.amount).value;
      var d := if op.Mint? then amt else -amt;
      Attempt(a, op) == a.(balances := Add(a.balances, who, d), supply := a.supply + d)
  {
    hide Positive, JsBigInt, Add;
  }

  lemma {:induction false} SupplyStep(s: Store, ref: string, a: AssetState, op: Op)
    requires Refines(s, ref, a) && (op.Mint? || op.Burn?) && Invoke(s, ref, op).Success?
    ensures Refines(Invoke(s, ref, op).value, ref, Attempt(a, op))
  {
    hide *;
    AcceptsTheSame(s, ref, a, op);
    SupplyWrites(s, ref, a, op);
    var amt := Positive(op.amount).value;
    OneBalanceMoved(s, ref, a, if op.Mint? then op.to else op.from, if op.Mint? then amt else -amt);
  }

  lemma {:induction false} TransferWrites(s: Store, ref: string, a: AssetState, op: Op)
    requires op.Transfer? && Invoke(s, ref, op).Success? && Apply(a, op).Success?
    ensures Positive(op.amount).Success?
    ensures
      var amt := Positive(op.amount).value;
      && Invoke(s, ref, op).value
        == s[BalKey(ref, op.from) := Num(BigState(s, BalKey(ref, op.from)) - amt)]
            [BalKey(ref, op.to) := Num(BigState(s, BalKey(ref, op.to)) + amt)]
      && Attempt(a, op) == a.(balances := Add(Add(a.balances, op.from, -amt), op.to, amt))
  {
    SameAmount(op.amount);
    TransferOnLedger(a, op);
    hide Positive, AmountGiven, GoBigInt, JsBigInt, BigState, Add, Get, Attempt, Apply;
  }

  lemma {:induction false} TransferOnLedger(a: AssetState, op: Op)
    requires op.Transfer? && Apply(a, op).Success?
    ensures Positive(op.amount).Success?
    ensures
      var amt := Positive(op.amount).value;
      Attempt(a, op) == a.(balances := Add(Add(a.balances, op.from, -amt), op.to, amt))
  {
    hide Positive, JsBigInt, Add, Get;
  }

  lemma {:induction false} TwoBalancesMoved(s: Store, ref: string, a: AssetState, from: string, to: string, amt: int)
    requires Refines(s, ref, a) && amt > 0
    ensures
      Refines(s[BalKey(ref, from) := Num(BigState(s, BalKey(ref, from)) - amt)]
          [BalKey(ref, to) := Num(BigState(s, BalKey(ref, to)) + amt)],
              ref, a.(balances := Add(Add(a.balances, from, -amt), to, amt)))
      <==> from != to
  {
    var b := a.(balances := Add(Add(a.balances, from, -amt), to, amt));
    var s' := s[BalKey(ref, from) := Num(BigState(s, BalKey(ref, from)) - amt)]
          [BalKey(ref, to) := Num(BigState(s, BalKey(ref, to)) + amt)];
    assert BalancesMatch(s, ref, a);
    OnlyBalancesWritten(s, s', ref, a, b);
    hide Refines;
    if from != to {
      forall x ensures BigState(s', BalKey(ref, x)) == Get(b.balances, x) {
        assert BigState(s, BalKey(ref, x)) == Get(a.balances, x);
      }
    } else {
      assert BigState(s, BalKey(ref, to)) == Get(a.balances, to);
      assert BigState(s', BalKey(ref, to)) == Get(a.balances, to) + amt != Get(b.balances, to);
    }
  }

  /** A fungible transfer keeps the relation exactly when its two accounts differ. */
  lemma {:induction false} TransferStep(s: Store, ref: string, a: AssetState, op: Op)
    requires Refines(s, ref, a) && op.Transfer? && Invoke(s, ref, op).Success?
    ensures Refines(Invoke(s, ref, op).value, ref, Attempt(a, op)) <==> op.from != op.to
  {
    hide *;
    AcceptsTheSame(s, ref, a, op);
    TransferWrites(s, ref, a, op);
    AmountIsPositive(op.amount);
    TwoBalancesMoved(s, ref, a, op.from, op.to, Positive(op.amount).value);
  }

  lemma {:induction false} AmountIsPositive(amount: string)
    ensures Positive(amount).Success? ==> Positive(amount).value > 0
  {
  }

  lemma {:induction false} TokenStep(s: Store, ref: string, a: AssetState, op: Op)
    requires Refines(s, ref, a) && (op.MintToken? || op.TransferToken? || op.BurnToken?) && Invoke(s, ref, op).Success?
    ensures Refines(Invoke(s, ref, op).value, ref, Attempt(a, op)) <==> !ToItself(op)
  {
    AcceptsTheSame(s, ref, a, op);
    var s', b, t := Invoke(s, ref, op).value, Attempt(a, op), op.tokenId;
    assert b == a.(owners := b.owners, uris := b.uris);
    if op.MintToken? {
      GainToken(s, ref, a.owners, op.to, t);
    } else if op.BurnToken? {
      LoseToken(s, ref, a.owners, t);
    } else if op.from != op.to {
      MoveToken(s, ref, a.owners, op.to, t);
    } else {
      MoveToOwner(s, ref, a.owners, t);
    }
    OnlyIndexWritten(s, s', ref, a, b);
  }

  lemma {:induction false} FlagStep(s: Store, ref: string, a: AssetState, op: Op)
    requires Refines(s, ref, a) && (op.SetFrozen? || op.SetAllowed?)
    ensures Refines(Invoke(s, ref, op).value, ref, Attempt(a, op))
  {
    var s', b := Invoke(s, ref, op).value, Attempt(a, op);
    assert forall k: Key :: !k.FrozenKey? && !k.AllowedKey? ==> SameAt(s, s', k);
    BalancesKept(s, s', ref, a);
    IndexKept(s, s', ref, a.owners);
    assert LoadAsset(s', ref) == LoadAsset(s, ref);
  }

  /**
   * One accepted operation leaves store and ledger related exactly when it does
   * not move something from an account to itself: such a transfer credits the
   * account without debiting it, and such a token transfer lists the token twice.
   */
  lemma {:induction false} StepRefinesIff(s: Store, ref: string, a: AssetState, op: Op)
    requires Refines(s, ref, a) && Invoke(s, ref, op).Success?
    ensures Refines(Invoke(s, ref, op).value, ref, Attempt(a, op)) <==> !ToItself(op)
  {
    if op.Mint? || op.Burn? { SupplyStep(s, ref, a, op); }
    else if op.Transfer? { TransferStep(s, ref, a, op); }
    else if op.SetFrozen? || op.SetAllowed? { FlagStep(s, ref, a, op); }
    else { TokenStep(s, ref, a, op); }
  }

  // --- whole runs over many contracts --------------------------------------------------

  datatype Invocation = Invocation(ref: string, op: Op)

  function ChainRun(s: Store, run: seq<Invocation>): Store {
    if run == [] then s else
      var init, i := ChainRun(s, run[..|run| - 1]), run[|run| - 1];
      var r := Invoke(init, i.ref, i.op);
      if r.Success? then r.value else init
  }

  function LedgerRun(assets: map<string, AssetState>, run: seq<Invocation>): map<string, AssetState> {
    if run == [] then assets else
      var init, i := LedgerRun(assets, run[..|run| - 1]), run[|run| - 1];
      if i.ref in init then init[i.ref := Attempt(init[i.ref], i.op)] else init
  }

  ghost predicate AllRefine(s: Store, assets: map<string, AssetState>) {
    forall ref :: ref in assets ==> Refines(s, ref, assets[ref])
  }

  /** A transaction on one contract writes no key of another. */
  lemma {:induction false} OtherContracts(s: Store, ref: string, op: Op, other: string, a: AssetState)
    requires Refines(s, other, a) && other != ref && Invoke(s, ref, op).Success?
    ensures Refines(Invoke(s, ref, op).value, other, a)
  {
    WritesOwnKeys(s, ref, op);
    FlagsKept(s, Invoke(s, ref, op).value, other, a);
    BalancesKept(s, Invoke(s, ref, op).value, other, a);
    IndexKept(s, Invoke(s, ref, op).value, other, a.owners);
  }

  lemma {:induction false} WritesOwnKeys(s: Store, ref: string, op: Op)
    requires Invoke(s, ref, op).Success?
    ensures forall k: Key :: k.ref != ref ==> SameAt(s, Invoke(s, ref, op).value, k)
  {
  }

  /**
   * If the ledger would perform the operation, Go can read its amount and it moves nothing from an
   * account to itself.
   */
  predicate Clean(assets: map<string, AssetState>, i: Invocation) {
    i.ref in assets && Apply(assets[i.ref], i.op).Success? ==> Readable(i.op) && !ToItself(i.op)
  }

  predicate CleanRun(assets: map<string, AssetState>, run: seq<Invocation>) {
    run == [] ||
      (var init := run[..|run| - 1]; CleanRun(assets, init) && Clean(LedgerRun(assets, init), run[|run| - 1]))
  }

  /** One more operation, accepted or refused, on a deployed contract or not, keeps every deployed contract related. */
  lemma {:induction false} RefinesNext(s: Store, assets: map<string, AssetState>, i: Invocation)
    requires AllRefine(s, assets) && Clean(assets, i)
    ensures AllRefine(if Invoke(s, i.ref, i.op).Success? then Invoke(s, i.ref, i.op).value else s,
                      if i.ref in assets then assets[i.ref := Attempt(assets[i.ref], i.op)] else assets)
  {
    var ref, op := i.ref, i.op;
    if ref in assets {
      AcceptsTheSame(s, ref, assets[ref], op);
      if Invoke(s, ref, op).Success? {
        StepRefinesIff(s, ref, assets[ref], op);
      } else {
        assert assets[ref := Attempt(assets[ref], op)] == assets;
      }
    }
    hide Refines, Invoke, Apply, Attempt;
    if Invoke(s, ref, op).Success? {
      forall other | other in assets && other != ref ensures Refines(Invoke(s, ref, op).value, other, assets[other]) {
        OtherContracts(s, ref, op, other, assets[other]);
      }
    }
  }

  /**
   * Every run, on deployed contracts and others, of which what the ledger would perform
   * is clean, leaves the chaincode related to the simulated ledger on every deployed
   * contract, whatever was refused besides.
   */
  lemma {:induction false} ChaincodeRefinesLedger(s: Store, assets: map<string, AssetState>, run: seq<Invocation>)
    requires AllRefine(s, assets) && CleanRun(assets, run)
    ensures LedgerRun(assets, run).Keys == assets.Keys
    ensures AllRefine(ChainRun(s, run), LedgerRun(assets, run))
  {
    if run != [] {
      var init := run[..|run| - 1];
      ChaincodeRefinesLedger(s, assets, init);
      hide AllRefine, Invoke, Apply, Attempt, Clean;
      RefinesNext(ChainRun(s, init), LedgerRun(assets, init), run[|run| - 1]);
    }
  }

  /** A contract just deployed on a chain that has never held it. */
  lemma {:induction false} DeployRefines(s: Store, ref: string, tokenType: TokenType, allowlistEnabled: bool)
    requires forall k: Key :: k in s ==> k.ref != ref
    ensures Refines(s[AssetKey(ref) := AssetVal(tokenType, allowlistEnabled)], ref, Fresh(tokenType, allowlistEnabled))
  {
  }

  // --- readers ------------------------------------------------------------------------

  lemma {:induction false} SizeOfDistinct(ids: seq<string>, elements: set<string>)
    requires Distinct(ids) && forall t :: t in ids <==> t in elements
    ensures |ids| == |elements|
    decreases ids
  {
    if ids == [] {
      assert elements == {};
    } else {
      var init, last := ids[..|ids| - 1], ids[|ids| - 1];
      assert ids == init + [last];
      assert last !in init by { assert forall i :: 0 <= i < |init| ==> ids[i] != last; }
      SizeOfDistinct(init, elements - {last});
    }
  }

  /**
   * Related states answer alike. The one reader that does not is the total supply
   * of a non-fungible asset, which the chaincode never counts: it answers zero, so
   * it agrees exactly when there are no tokens.
   */
  lemma {:induction false} ReadersAgree(s: Store, ref: string, a: AssetState, x: string, t: string)
    requires Refines(s, ref, a)
    ensures ChainBalanceOf(s, ref, x) == Success(BalanceOf(a, x))
    ensures Owner(s, ref, t) == OwnerOf(a, t)
    ensures (set u | u in OwnedList(s, ref, x)) == TokensOf(a, x)
    ensures a.tokenType == Fungible ==> ChainTotalSupply(s, ref) == TotalSupply(a)
    ensures a.tokenType == NonFungible && a.supply == 0 ==>
      (ChainTotalSupply(s, ref) == TotalSupply(a) <==> a.owners == map[])
  {
    assert BigState(s, BalKey(ref, x)) == Get(a.balances, x);
    SizeOfDistinct(OwnedList(s, ref, x), TokensOf(a, x));
    if a.tokenType == NonFungible && |a.owners| == 0 { assert a.owners == map[]; }
  }

  // --- what becomes of a transfer to oneself ---------------------------------------------------------

  lemma {:induction false} TwoInvocations(s: Store, assets: map<string, AssetState>, c: Invocation, d: Invocation)
    requires c.ref == d.ref && c.ref in assets && Invoke(s, c.ref, c.op).Success?
    requires Invoke(Invoke(s, c.ref, c.op).value, c.ref, d.op).Success?
    ensures ChainRun(s, [c, d]) == Invoke(Invoke(s, c.ref, c.op).value, c.ref, d.op).value
    ensures LedgerRun(assets, [c, d]) == assets[c.ref := Attempt(Attempt(assets[c.ref], c.op), d.op)]
  {
    hide Invoke, Attempt;
    assert [c, d][..1] == [c] && [c][..0] == [];
    assert ChainRun(s, []) == s && ChainRun(s, [c]) == Invoke(s, c.ref, c.op).value;
    assert LedgerRun(assets, []) == assets && LedgerRun(assets, [c]) == assets[c.ref := Attempt(assets[c.ref], c.op)];
  }

  lemma {:induction false} FiveReads()
    ensures AmountGiven("5") == Success(5) && Positive("5") == Success(5)
  {
    assert "5"[..0] == "" && Value(10, "5") == 5 && IsDecimal("5");
    assert TrimLeft("5") == "5" && TrimRight("5") == "5";
  }

  const MINT_FIVE := Invocation("c", Mint("a", "5"))
  const MOVE_FIVE := Invocation("c", Transfer("a", "a", "5"))

  const FUNGIBLE_DEPLOYED: Store := map[AssetKey("c") := AssetVal(Fungible, false)]

  lemma {:induction false} ChainMovesFive()
    ensures
      var minted := FUNGIBLE_DEPLOYED[BalKey("c", "a") := Num(5)][SupplyKey("c") := Num(5)];
      && Invoke(FUNGIBLE_DEPLOYED, "c", MINT_FIVE.op) == Success(minted)
      && Invoke(minted, "c", MOVE_FIVE.op)
           == Success(minted[BalKey("c", "a") := Num(0)][BalKey("c", "a") := Num(10)])
  {
    FiveReads();
    hide AmountGiven;
    var minted := FUNGIBLE_DEPLOYED[BalKey("c", "a") := Num(5)][SupplyKey("c") := Num(5)];
    assert BigState(FUNGIBLE_DEPLOYED, BalKey("c", "a")) == 0 == BigState(FUNGIBLE_DEPLOYED, SupplyKey("c"));
    assert BigState(minted, BalKey("c", "a")) == 5 && LoadAsset(minted, "c") == Some(AssetVal(Fungible, false));
  }

  lemma {:induction false} LedgerMovesFive()
    ensures
      var held := Attempt(Fresh(Fungible, false), MINT_FIVE.op);
      BalanceOf(Attempt(held, MOVE_FIVE.op), "a") == 5
  {
    FiveReads();
    hide Positive;
  }

  /** Deployed, five units minted and transferred from the account to itself: the chain has ten and the ledger five. */
  lemma {:induction false} SelfTransferInflates()
    ensures
      var t := ChainRun(FUNGIBLE_DEPLOYED, [MINT_FIVE, MOVE_FIVE]);
      var after := LedgerRun(map["c" := Fresh(Fungible, false)], [MINT_FIVE, MOVE_FIVE]);
      && ChainBalanceOf(t, "c", "a") == Success(10) && ChainTotalSupply(t, "c") == 5
      && "c" in after && BalanceOf(after["c"], "a") == 5
  {
    ChainMovesFive();
    LedgerMovesFive();
    hide Invoke, Attempt, Apply, BalanceOf, AmountGiven;
    TwoInvocations(FUNGIBLE_DEPLOYED, map["c" := Fresh(Fungible, false)], MINT_FIVE, MOVE_FIVE);
  }

  const MINT_ONE := Invocation("c", MintToken("a", "t", None))
  const MOVE_ONE := Invocation("c", TransferToken("a", "a", "t"))

  /** A token minted and transferred to its owner is listed twice; the ledger counts it once. */
  lemma {:induction false} SelfTransferListsTwice()
    ensures
      var s, assets := map[AssetKey("c") := AssetVal(NonFungible, false)], map["c" := Fresh(NonFungible, false)];
      var t, after := ChainRun(s, [MINT_ONE, MOVE_ONE]), LedgerRun(assets, [MINT_ONE, MOVE_ONE]);
      && OwnedList(t, "c", "a") == ["t", "t"] && ChainBalanceOf(t, "c", "a") == Success(2)
      && "c" in after && after["c"].owners == map["t" := "a"]
  {
    var s: Store := map[AssetKey("c") := AssetVal(NonFungible, false)];
    var a := Fresh(NonFungible, false);
    hide Without;
    var minted := s[OwnerKey("c", "t") := Acct("a")][OwnedKey("c", "a") := Ids([] + ["t"])];
    assert Invoke(s, "c", MINT_ONE.op) == Success(minted);
    assert OwnedList(minted, "c", "a") == ["t"] && Owner(minted, "c", "t") == Some("a");
    assert Invoke(minted, "c", MOVE_ONE.op).Success?;
    TwoInvocations(s, map["c" := a], MINT_ONE, MOVE_ONE);
    var held := Attempt(a, MINT_ONE.op);
    assert held.owners == map["t" := "a"];
  }
}
