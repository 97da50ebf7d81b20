/**
 * Replay of runs that use the secondary market. Boot replay keeps a seller's
 * listed units with the seller while the live ledger holds them in escrow, so the
 * two agree exactly when nothing is listed.
 */
module MarketReplay {
  import opened Wrappers
  import opened Sums
  import opened Amounts
  import opened Ledger
  import opened Trail
  import opened LedgerReplay
  import opened Holders

  /** The addresses are non-empty, the amount is plain decimal, and the market uses the one escrow account. */
  predicate Recorded(escrow: string, c: Call) {
    match c
    case DoMint(to, amount) => to != "" && IsDecimal(amount)
    case DoTransfer(from, to, amount) => from != "" && to != "" && IsDecimal(amount)
    case DoBuy(from, to, amount) => from != "" && to != "" && IsDecimal(amount)
    case EscrowList(seller, e, amount) => e == escrow && seller != "" && IsDecimal(amount)
    case EscrowRelease(e, seller, amount) => e == escrow && seller != "" && IsDecimal(amount)
    case SettleFromEscrow(e, seller, to, amount) => e == escrow && seller != "" && to != "" && IsDecimal(amount)
    case DoBurn(from, amount) => from != "" && IsDecimal(amount)
    case _ => true
  }

  predicate AllRecorded(escrow: string, calls: seq<Call>) {
    escrow != "" && forall i :: 0 <= i < |calls| ==> Recorded(escrow, calls[i])
  }

  /** A live run and its trail agree on all but the balances of the replay, and the literal fold has those. */
  ghost predicate Literal(a: AssetState, r: Replayed, raw: Raw) {
    && SameReads(a.balances, raw.balances)
    && a.supply == r.supply && a.owners == r.owners && a.uris == r.uris
    && a.frozen == r.frozen && a.allowed == r.allowed
  }

  lemma {:induction false} LiteralStep(a: AssetState, r: Replayed, raw: Raw, escrow: string, c: Call)
    requires Literal(a, r, raw) && OfKind(Fungible, LedgerOp(c))
    requires escrow != "" && Recorded(escrow, c) && Apply(a, LedgerOp(c)).Success?
    ensures Literal(Attempt(a, LedgerOp(c)), ReplayStep(r, EntryOf(c)), RawStep(raw, EntryOf(c)))
  {
    if c.DoMint? || c.DoBurn? {
      LiteralSupplyStep(a, r, raw, c);
    } else if !c.DoFreeze? && !c.DoAllow? {
      LiteralMoveStep(a, r, raw, escrow, c);
    }
  }

  lemma {:induction false} LiteralSupplyStep(a: AssetState, r: Replayed, raw: Raw, c: Call)
    requires Literal(a, r, raw) && (c.DoMint? || c.DoBurn?)
    requires IsDecimal(c.amount) && (if c.DoMint? then c.to else c.from) != ""
    requires Apply(a, LedgerOp(c)).Success?
    ensures Literal(Attempt(a, LedgerOp(c)), ReplayStep(r, EntryOf(c)), RawStep(raw, EntryOf(c)))
  {
    hide JsBigInt, Add, Get, IsDecimal;
    ReadAmount(c.amount);
    var amt, who := Positive(c.amount).value, if c.DoMint? then c.to else c.from;
    var d, b := if c.DoMint? then amt else -amt, Attempt(a, LedgerOp(c));
    assert b == a.(balances := Add(a.balances, who, d), supply := a.supply + d);
    assert RawStep(raw, EntryOf(c)) == raw.(balances := Bump(raw.balances, Some(who), d));
    var s := ReplayStep(r, EntryOf(c));
    assert s == r.(balances := s.balances, supply := r.supply + d);
    BumpAgreesIff(a.balances, raw.balances, who, d, d);
  }

  lemma {:induction false} LiteralMoveStep(a: AssetState, r: Replayed, raw: Raw, escrow: string, c: Call)
    requires Literal(a, r, raw) && LedgerOp(c).Transfer?
    requires escrow != "" && Recorded(escrow, c) && Apply(a, LedgerOp(c)).Success?
    ensures Literal(Attempt(a, LedgerOp(c)), ReplayStep(r, EntryOf(c)), RawStep(raw, EntryOf(c)))
  {
    hide JsBigInt, Add, Get, IsDecimal;
    var Transfer(from, to, amount) := LedgerOp(c);
    ReadAmount(amount);
    var amt, b := Positive(amount).value, Attempt(a, LedgerOp(c));
    assert b == a.(balances := Add(Add(a.balances, from, -amt), to, amt));
    assert RawStep(raw, EntryOf(c)) == raw.(balances := Bump(Bump(raw.balances, Some(from), -amt), Some(to), amt));
    var s := ReplayStep(r, EntryOf(c));
    assert s == r.(balances := s.balances);
    MoveAgreesIff(a.balances, raw.balances, from, to, amt, amt);
  }

  lemma {:induction false} RecordedIsMarket(escrow: string, c: Call)
    requires Recorded(escrow, c) && OfKind(Fungible, LedgerOp(c))
    ensures MarketEntry(escrow, EntryOf(c))
  {
  }

  lemma {:induction false} RecordedMore(escrow: string, calls: seq<Call>, c: Call)
    ensures AllRecorded(escrow, calls + [c]) <==> AllRecorded(escrow, calls) && Recorded(escrow, c)
  {
    if AllRecorded(escrow, calls + [c]) {
      assert (calls + [c])[|calls|] == c;
      forall i | 0 <= i < |calls| ensures Recorded(escrow, calls[i]) { assert (calls + [c])[i] == calls[i]; }
    }
  }

  /** A run of a fungible contract of which what was accepted names its accounts and writes its amounts plainly. */
  predicate MarketRun(escrow: string, a: AssetState, calls: seq<Call>) {
    OfOneKind(Fungible, Accepted(a, calls)) && AllRecorded(escrow, Accepted(a, calls))
  }

  lemma {:induction false} RunIsLiteral(a: AssetState, escrow: string, calls: seq<Call>)
    requires a == Fresh(Fungible, a.allowlistEnabled)
    requires OfOneKind(Fungible, Accepted(a, calls)) && AllRecorded(escrow, Accepted(a, calls))
    ensures Literal(After(a, calls), Replay(TrailOf(a, calls)), RawOf(TrailOf(a, calls)))
    ensures MarketTrail(escrow, TrailOf(a, calls))
  {
    if calls != [] {
      var init, c := calls[..|calls| - 1], calls[|calls| - 1];
      hide Apply, Attempt, LedgerOp, EntryOf, ReplayStep, RawStep, Literal, Recorded, MarketEntry;
      OneKindMore(Fungible, Accepted(a, init), c);
      RecordedMore(escrow, Accepted(a, init), c);
      RunIsLiteral(a, escrow, init);
      var live, trail := After(a, init), TrailOf(a, init);
      if Apply(live, LedgerOp(c)).Success? {
        RecordedIsMarket(escrow, c);
        LiteralStep(live, Replay(trail), RawOf(trail), escrow, c);
        assert (trail + [EntryOf(c)])[..|trail|] == trail;
      } else {
        assert trail + [] == trail;
      }
    }
  }

  /** What these calls list for a seller, less what they release or settle of it. */
  function Listed(calls: seq<Call>, seller: string): int {
    if calls == [] then 0 else
      var before := Listed(calls[..|calls| - 1], seller);
      match calls[|calls| - 1]
      case EscrowList(s, _, amount) => if s == seller then before + Units(amount) else before
      case EscrowRelease(_, s, amount) => if s == seller then before - Units(amount) else before
      case SettleFromEscrow(_, s, _, amount) => if s == seller then before - Units(amount) else before
      case _ => before
  }

  /** What the trail shows as open is what the accepted calls have listed and neither released nor settled. */
  lemma {:induction false} OpenIsListed(escrow: string, a: AssetState, calls: seq<Call>, seller: string)
    requires MarketRun(escrow, a, calls)
    ensures Get(OpenOf(TrailOf(a, calls)), seller) == Listed(Accepted(a, calls), seller)
  {
    if calls != [] {
      var init, c := calls[..|calls| - 1], calls[|calls| - 1];
      hide Apply, Attempt, LedgerOp, EntryOf, OpenStep, Recorded, Units, OfKind;
      OneKindMore(Fungible, Accepted(a, init), c);
      RecordedMore(escrow, Accepted(a, init), c);
      OpenIsListed(escrow, a, init, seller);
      var past, trail := Accepted(a, init), TrailOf(a, init);
      if Apply(After(a, init), LedgerOp(c)).Success? {
        OneListedMore(escrow, trail, past, c, seller);
        assert (trail + [EntryOf(c)])[..|trail|] == trail;
        hide *;
      } else {
        assert trail + [] == trail && past + [] == past;
      }
    }
  }

  lemma {:induction false} OneListedMore(escrow: string, trail: seq<Entry>, past: seq<Call>, c: Call, seller: string)
    requires Recorded(escrow, c) && OfKind(Fungible, LedgerOp(c))
    requires Get(OpenOf(trail), seller) == Listed(past, seller)
    ensures Get(OpenOf(trail + [EntryOf(c)]), seller) == Listed(past + [c], seller)
  {
    assert (trail + [EntryOf(c)])[..|trail|] == trail && (past + [c])[..|past|] == past;
    if c.EscrowList? || c.EscrowRelease? || c.SettleFromEscrow? { PlainUnits(c.amount); }
    OpenStepBy(OpenOf(trail), escrow, c, seller);
    hide Units, AmountOf, IsDecimal, OpenStep, EntryOf, Recorded, OfKind, LedgerOp;
  }

  lemma {:induction false} OpenStepBy(open: Table, escrow: string, c: Call, seller: string)
    requires Recorded(escrow, c) && OfKind(Fungible, LedgerOp(c))
    ensures Get(OpenStep(open, EntryOf(c)), seller) == Get(open, seller)
      + match c
        case EscrowList(s, _, amount) => if s == seller then AmountOf(Some(amount)) else 0
        case EscrowRelease(_, s, amount) => if s == seller then -AmountOf(Some(amount)) else 0
        case SettleFromEscrow(_, s, _, amount) => if s == seller then -AmountOf(Some(amount)) else 0
        case _ => 0
  {
    hide AmountOf, IsDecimal;
  }

  lemma {:induction false} PlainUnits(amount: string)
    requires IsDecimal(amount)
    ensures AmountOf(Some(amount)) == Units(amount)
  {
    EndsInDigits(10, amount);
    TrimsTo("", amount, "");
    assert "" + amount + "" == amount;
  }

  /** What the hydrated ledger holds at `x`, in terms of the live one. */
  lemma {:induction false} ReplayIsLiveUpToEscrow(escrow: string, allowlistEnabled: bool, calls: seq<Call>, x: string)
    requires MarketRun(escrow, Fresh(Fungible, allowlistEnabled), calls)
    ensures
      var shell := Fresh(Fungible, allowlistEnabled);
      var live, trail := After(shell, calls), TrailOf(shell, calls);
      && Get(Replay(trail).balances, x)
           == Get(live.balances, x) + Get(OpenOf(trail), x) - (if x == escrow then Total(OpenOf(trail)) else 0)
      && Replay(trail).supply == live.supply
  {
    var shell := Fresh(Fungible, allowlistEnabled);
    var live, trail := After(shell, calls), TrailOf(shell, calls);
    RunIsLiteral(shell, escrow, calls);
    FoldsDifferByOpenEscrow(escrow, trail, x);
    ReplayIsFold(trail);
    assert Get(live.balances, x) == Get(RawOf(trail).balances, x);
  }

  /**
   * Exactly when a restart is invisible on a run that used the market: when no
   * seller other than the escrow account itself has anything listed.
   */
  lemma {:induction false} RestartInvisibleIffNothingListed(escrow: string, allowlistEnabled: bool, calls: seq<Call>)
    requires MarketRun(escrow, Fresh(Fungible, allowlistEnabled), calls)
    ensures
      var shell := Fresh(Fungible, allowlistEnabled);
      var trail := TrailOf(shell, calls);
      InStep(After(shell, calls), Replay(trail)) <==> forall x :: x != escrow ==> Get(OpenOf(trail), x) == 0
  {
    hide After, TrailOf, Replay, RawOf, OpenOf, InStep, Literal;
    var shell := Fresh(Fungible, allowlistEnabled);
    var live, trail := After(shell, calls), TrailOf(shell, calls);
    RunIsLiteral(shell, escrow, calls);
    forall x: string
      ensures Get(Replay(trail).balances, x)
        == Get(live.balances, x) + Get(OpenOf(trail), x) - (if x == escrow then Total(OpenOf(trail)) else 0)
    {
      ReplayIsLiveUpToEscrow(escrow, allowlistEnabled, calls, x);
    }
    NothingOpenIff(live.balances, Replay(trail).balances, OpenOf(trail), escrow);
    LiteralInStep(live, Replay(trail), RawOf(trail));
  }

  lemma {:induction false} LiteralInStep(a: AssetState, r: Replayed, raw: Raw)
    requires Literal(a, r, raw) && a.tokenType == Fungible
    ensures InStep(a, r) <==> SameReads(a.balances, r.balances)
  {
  }

  lemma {:induction false} NothingOpenIff(live: Table, replayed: Table, open: Table, escrow: string)
    requires forall x: string ::
      Get(replayed, x) == Get(live, x) + Get(open, x) - (if x == escrow then Total(open) else 0)
    ensures SameReads(live, replayed) <==> forall x :: x != escrow ==> Get(open, x) == 0
  {
    if forall x :: x != escrow ==> Get(open, x) == 0 {
      var own := map[escrow := Get(open, escrow)];
      assert own - {escrow} == map[];
      TotalWithout(own, escrow);
      SameReadsSameTotal(open, own);
    } else {
      var x :| x != escrow && Get(open, x) != 0;
      assert Get(live, x) != Get(replayed, x);
    }
  }

  /**
   * The case in point: units minted, all of them listed, and a restart. The live
   * ledger can still release them from escrow; the restarted one refuses, so the
   * listing can be neither cancelled nor taken.
   */
  lemma {:induction false} ListedUnitsAreStranded(seller: string, escrow: string, amount: string)
    requires seller != "" && escrow != "" && seller != escrow
    requires IsDecimal(amount) && Positive(amount).Success?
    ensures
      var calls := [DoMint(seller, amount), EscrowList(seller, escrow, amount)];
      var shell := Fresh(Fungible, false);
      var cancel := LedgerOp(EscrowRelease(escrow, seller, amount));
      && Apply(After(shell, calls), cancel).Success?
      && Apply(Hydrated(Fungible, false, Replay(TrailOf(shell, calls))), cancel) == Failure(InsufficientBalance)
  {
    ReadAmount(amount);
    var mint, list, amt := DoMint(seller, amount), EscrowList(seller, escrow, amount), Positive(amount).value;
    var shell := Fresh(Fungible, false);
    hide IsDecimal, Positive, AmountOf;
    var one := shell.(balances := Add(map[], seller, amt), supply := amt);
    assert Apply(shell, LedgerOp(mint)) == Success(one);
    var two := one.(balances := Add(Add(one.balances, seller, -amt), escrow, amt));
    assert Apply(one, LedgerOp(list)) == Success(two);
    assert ReplayStep(ReplayStep(NOTHING_REPLAYED, EntryOf(mint)), EntryOf(list)).balances == Add(map[], seller, amt);
    TwoCalls(shell, mint, list);
  }

  lemma {:induction false} TwoCalls(a: AssetState, c: Call, d: Call)
    requires Apply(a, LedgerOp(c)).Success? && Apply(Attempt(a, LedgerOp(c)), LedgerOp(d)).Success?
    ensures After(a, [c, d]) == Attempt(Attempt(a, LedgerOp(c)), LedgerOp(d))
    ensures Replay(TrailOf(a, [c, d])) == ReplayStep(ReplayStep(NOTHING_REPLAYED, EntryOf(c)), EntryOf(d))
  {
    hide Apply, LedgerOp, EntryOf, ReplayStep;
    assert [c, d][..1] == [c] && [c][..0] == [];
    assert After(a, []) == a && TrailOf(a, []) == [];
    assert After(a, [c]) == Attempt(a, LedgerOp(c)) && TrailOf(a, [c]) == [EntryOf(c)];
    var trail := TrailOf(a, [c, d]);
    assert trail == [EntryOf(c), EntryOf(d)];
    assert trail[..1] == [EntryOf(c)] && [EntryOf(c)][..0] == [];
    assert Replay([EntryOf(c)]) == ReplayStep(NOTHING_REPLAYED, EntryOf(c));
  }

  // --- non-fungible trails ----------------------------------------------------------

  predicate TokenEntry(e: Entry) {
    match e.action
    case Mint => TokenOf(e).Some? && Named(e.p.to)
    case Transfer => TokenOf(e).Some? && Named(e.p.to)
    case Burn => TokenOf(e).Some?
    case Buy => false
    case _ => true
  }

  predicate TokenTrail(entries: seq<Entry>) {
    forall i :: 0 <= i < |entries| ==> TokenEntry(entries[i])
  }

  /** A transfer of a token that nobody owned when it was recorded. */
  predicate Stray(owners: map<string, string>, e: Entry) {
    e.action.Transfer? && TokenOf(e).Some? && TokenOf(e).value !in owners
  }

  function Strays(entries: seq<Entry>): nat {
    if entries == [] then 0 else
      var init := entries[..|entries| - 1];
      Strays(init) + if Stray(FoldOf(init).owners, entries[|entries| - 1]) then 1 else 0
  }

  /**
   * In the fold of a non-fungible trail, supply is the number of owned tokens
   * exactly when no transfer was of an unowned token: each such transfer leaves
   * one token that was never counted, and nothing ever makes up for it.
   */
  lemma {:induction false} NftSupplyIffNoStrays(entries: seq<Entry>)
    requires TokenTrail(entries)
    ensures |FoldOf(entries).owners| == FoldOf(entries).supply + Strays(entries)
    ensures FoldOf(entries).supply == |FoldOf(entries).owners| <==> Strays(entries) == 0
  {
    if entries != [] {
      var init, e := entries[..|entries| - 1], entries[|entries| - 1];
      NftSupplyIffNoStrays(init);
      var s := FoldOf(init);
      if e.action.Burn? && TokenOf(e).value in s.owners {
        Smaller(s.owners, TokenOf(e).value);
      } else if e.action.Mint? || e.action.Transfer? {
        SizeAfterSet(s.owners, TokenOf(e).value, Text(e.p.to));
      }
    }
  }

  lemma {:induction false} SizeAfterSet(m: map<string, string>, t: string, o: string)
    ensures |m[t := o]| == |m| + (if t in m then 0 else 1)
  {
  }

  /** And then each balance is the number of tokens that address owns. */
  lemma {:induction false} NftBalancesAreCounts(entries: seq<Entry>, x: string)
    requires TokenTrail(entries) && Strays(entries) == 0 && x != ""
    ensures Get(FoldOf(entries).balances, x) == |Held(FoldOf(entries).owners, x)|
  {
    if entries == [] {
      assert Held(map[], x) == {};
    } else {
      var init, e := entries[..|entries| - 1], entries[|entries| - 1];
      NftBalancesAreCounts(init, x);
      var s := FoldOf(init);
      if TokenOf(e).Some? && (e.action.Mint? || e.action.Transfer? || e.action.Burn?) {
        CountStep(s, e, x);
      }
    }
  }

  lemma {:induction false} CountStep(s: Folded, e: Entry, x: string)
    requires TokenEntry(e) && !Stray(s.owners, e) && x != ""
    requires e.action.Mint? || e.action.Transfer? || e.action.Burn?
    ensures
      |Held(FoldStep(s, e).owners, x)| - |Held(s.owners, x)| == Get(FoldStep(s, e).balances, x) - Get(s.balances, x)
  {
    var t, to := TokenOf(e).value, Text(e.p.to);
    if t in s.owners && !e.action.Mint? {
      var o, rest := s.owners[t], s.owners - {t};
      assert s.owners == rest[t := o];
      HeldAfterGain(rest, t, o);
      if e.action.Transfer? {
        assert s.owners[t := to] == rest[t := to];
        HeldAfterGain(rest, t, to);
        assert FoldStep(s, e).owners == rest[t := to];
        assert FoldStep(s, e).balances == Bump(Bump(s.balances, Some(o), -1), e.p.to, 1);
        GetMove(s.balances, Some(o), e.p.to, 1, x);
        assert |Held(s.owners, x)| == |Held(rest, x)| + (if x == o then 1 else 0);
        assert |Held(rest[t := to], x)| == |Held(rest, x)| + (if x == to then 1 else 0);
        assert Get(FoldStep(s, e).balances, x)
          == Get(s.balances, x) + (if x == to then 1 else 0) - (if x == o then 1 else 0);
      } else {
        GetBump(s.balances, Some(o), -1, x);
      }
    } else if e.action.Mint? && t !in s.owners {
      HeldAfterGain(s.owners, t, to);
      GetBump(s.balances, e.p.to, 1, x);
    }
  }

  /** The trail of a live non-fungible run has no strays, so its fold counts what the live readers count. */
  lemma {:induction false} LiveTokenTrailHasNoStrays(a: AssetState, calls: seq<Call>)
    requires a == Fresh(NonFungible, a.allowlistEnabled)
    requires OfOneKind(NonFungible, Accepted(a, calls)) && Ordinary(Accepted(a, calls))
    ensures Strays(TrailOf(a, calls)) == 0
    ensures InStep(After(a, calls), Replay(TrailOf(a, calls)))
  {
    ReplayKeepsStep(a, calls);
    if calls != [] {
      var init, c := calls[..|calls| - 1], calls[|calls| - 1];
      OneKindMore(NonFungible, Accepted(a, init), c);
      OrdinaryMore(Accepted(a, init), c);
      LiveTokenTrailHasNoStrays(a, init);
      var live, trail := After(a, init), TrailOf(a, init);
      if Apply(live, LedgerOp(c)).Success? {
        AcceptedIsNotStray(live, trail, c);
        assert (trail + [EntryOf(c)])[..|trail|] == trail;
      } else {
        assert trail + [] == trail;
      }
    }
  }

  lemma {:induction false} AcceptedIsNotStray(live: AssetState, trail: seq<Entry>, c: Call)
    requires InStep(live, Replay(trail)) && OfKind(NonFungible, LedgerOp(c))
    requires Apply(live, LedgerOp(c)).Success?
    ensures !Stray(FoldOf(trail).owners, EntryOf(c))
  {
    ReplayIsFold(trail);
  }
}
