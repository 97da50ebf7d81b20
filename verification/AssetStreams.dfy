/**
 * The streams of assets that share a contract. The ledger checks what an account has on
 * the contract as a whole; each asset's stream is folded by itself, and overdraws a
 * wallet exactly when it debits what the wallet does not have in that stream.
 */
module AssetStreams {
  import opened Wrappers
  import opened Sums
  import opened Amounts
  import opened Ledger
  import opened Trail
  import opened LedgerReplay
  import opened Holders
  import opened MarketReplay
  import opened Investor

  /** A call as the engine makes it: for one asset of the contract. */
  datatype Issued = Issued(assetId: string, call: Call)

  function CallsOf(run: seq<Issued>): (calls: seq<Call>)
    ensures |calls| == |run| && forall i :: 0 <= i < |run| ==> calls[i] == run[i].call
  {
    if run == [] then [] else CallsOf(run[..|run| - 1]) + [run[|run| - 1].call]
  }

  lemma {:induction false} CallsOfMore(run: seq<Issued>)
    requires run != []
    ensures CallsOf(run) == CallsOf(run[..|run| - 1]) + [run[|run| - 1].call]
    ensures CallsOf(run)[..|CallsOf(run)| - 1] == CallsOf(run[..|run| - 1])
  {
  }

  /** The rows of a run: one for each call the ledger accepted, under its asset. */
  function RowsRecorded(a: AssetState, run: seq<Issued>): seq<Tagged> {
    if run == [] then [] else
      var init, i := run[..|run| - 1], run[|run| - 1];
      RowsRecorded(a, init)
      + if Apply(After(a, CallsOf(init)), LedgerOp(i.call)).Success? then [Tagged(i.assetId, EntryOf(i.call))] else []
  }

  /** An asset's own stream. */
  function Stream(rows: seq<Tagged>, id: string): seq<Entry> {
    Entries(RowsOf(rows, {id}))
  }

  lemma {:induction false} EntriesMore(rows: seq<Tagged>, t: Tagged)
    ensures Entries(rows + [t]) == Entries(rows) + [t.entry]
    ensures rows + [] == rows
  {
    assert (rows + [t])[..|rows|] == rows;
  }

  /** All streams together are the trail of the run. */
  lemma {:induction false} RowsAreTrail(a: AssetState, run: seq<Issued>)
    ensures Entries(RowsRecorded(a, run)) == TrailOf(a, CallsOf(run))
  {
    if run != [] {
      var init, i := run[..|run| - 1], run[|run| - 1];
      RowsAreTrail(a, init);
      CallsOfMore(run);
      hide Apply, Entries, EntryOf, CallsOf;
      EntriesMore(RowsRecorded(a, init), Tagged(i.assetId, EntryOf(i.call)));
      assert TrailOf(a, CallsOf(init)) + [] == TrailOf(a, CallsOf(init));
    }
  }

  lemma {:induction false} RowsOfAll(rows: seq<Tagged>, id: string)
    requires forall i :: 0 <= i < |rows| ==> rows[i].assetId == id
    ensures RowsOf(rows, {id}) == rows
  {
    if rows != [] { RowsOfAll(rows[..|rows| - 1], id); }
  }

  /** An asset alone on its contract has the whole trail. */
  lemma {:induction false} SoleStream(a: AssetState, run: seq<Issued>, id: string)
    requires forall i :: 0 <= i < |run| ==> run[i].assetId == id
    ensures Stream(RowsRecorded(a, run), id) == TrailOf(a, CallsOf(run))
  {
    RowsAreTrail(a, run);
    RowsUnder(a, run, id);
    RowsOfAll(RowsRecorded(a, run), id);
  }

  lemma {:induction false} RowsUnder(a: AssetState, run: seq<Issued>, id: string)
    requires forall i :: 0 <= i < |run| ==> run[i].assetId == id
    ensures forall i :: 0 <= i < |RowsRecorded(a, run)| ==> RowsRecorded(a, run)[i].assetId == id
  {
    if run != [] { RowsUnder(a, run[..|run| - 1], id); }
  }

  // --- when a fold overdraws --------------------------------------------------------------------

  /** Whom a fungible entry takes from in the economic fold, and whom it gives to. */
  function Debited(e: Entry): Option<string> {
    match e.action
    case Transfer => e.p.from
    case Buy => if e.p.secondary && e.p.seller.Some? then e.p.seller else e.p.from
    case Burn => e.p.from
    case _ => None
  }

  function Credited(e: Entry): Option<string> {
    match e.action
    case Mint => e.p.to
    case Transfer => e.p.to
    case Buy => e.p.to
    case _ => None
  }

  /** The debited wallet has the amount in this fold, or is the one credited. */
  ghost predicate Covered(f: Folded, e: Entry, lower: string -> string) {
    var from, to := Debited(e), Credited(e);
    Named(from) && !(Named(to) && lower(to.value) == lower(from.value)) ==>
      AmountOf(e.p.amount) <= WalletBalance(f.balances, from.value, lower)
  }

  /** What a credit to an address does to a wallet. */
  function Gain(addr: Option<string>, w: string, amount: int, lower: string -> string): int {
    if Named(addr) && lower(addr.value) == w then amount else 0
  }

  ghost function InWallet(balances: Table, w: string, lower: string -> string): int {
    Total(Spellings(balances, w, lower))
  }

  lemma {:induction false} WalletBump(m: Table, addr: Option<string>, d: int, w: string, lower: string -> string)
    ensures InWallet(Bump(m, addr, d), w, lower) == InWallet(m, w, lower) + Gain(addr, w, d, lower)
  {
    hide Total;
    if Named(addr) {
      var k, was := addr.value, Spellings(m, w, lower);
      if lower(k) == w {
        TotalSet(was, k, Get(m, k) + d);
        assert Spellings(Add(m, k, d), w, lower) == was[k := Get(m, k) + d];
      } else {
        assert Spellings(Add(m, k, d), w, lower) == was;
      }
    }
  }

  lemma {:induction false} WalletStep(f: Folded, e: Entry, w: string, lower: string -> string)
    requires FungibleEntry(e)
    ensures
      var amt := AmountOf(e.p.amount);
      InWallet(FoldStep(f, e).balances, w, lower)
        == InWallet(f.balances, w, lower) + Gain(Credited(e), w, amt, lower) - Gain(Debited(e), w, amt, lower)
  {
    hide InWallet, Bump, AmountOf;
    var amt, from, to := AmountOf(e.p.amount), Debited(e), Credited(e);
    WalletBump(f.balances, from, -amt, w, lower);
    WalletBump(f.balances, to, amt, w, lower);
    WalletBump(Bump(f.balances, from, -amt), to, amt, w, lower);
  }

  lemma {:induction false} OverdrawnIff(balances: Table, lower: string -> string)
    ensures NoneOverdrawn(balances, lower) <==> forall w: string :: InWallet(balances, w, lower) >= 0
  {
    hide Total;
    forall w: string ensures Get(ByWallet(balances, lower), w) == InWallet(balances, w, lower) {
      GetByWallet(balances, w, lower);
    }
    if !NoneOverdrawn(balances, lower) {
      var w :| w in ByWallet(balances, lower) && ByWallet(balances, lower)[w] < 0;
      assert InWallet(balances, w, lower) < 0;
    } else {
      forall w: string ensures InWallet(balances, w, lower) >= 0 {
        assert Get(ByWallet(balances, lower), w) >= 0;
      }
    }
  }

  /** A fold that overdraws nobody goes on to do so exactly by an entry whose debit is not covered in it. */
  lemma {:induction false} StepOverdrawsIff(f: Folded, e: Entry, lower: string -> string)
    requires FungibleEntry(e) && NoneOverdrawn(f.balances, lower)
    ensures NoneOverdrawn(FoldStep(f, e).balances, lower) <==> Covered(f, e, lower)
  {
    OverdrawnIff(f.balances, lower);
    OverdrawnIff(FoldStep(f, e).balances, lower);
    forall w: string
      ensures InWallet(FoldStep(f, e).balances, w, lower) == InWallet(f.balances, w, lower)
        + Gain(Credited(e), w, AmountOf(e.p.amount), lower) - Gain(Debited(e), w, AmountOf(e.p.amount), lower)
    {
      WalletStep(f, e, w, lower);
    }
    IsInWallet(f.balances, Debited(e), lower);
    hide NoneOverdrawn, FoldStep, InWallet, WalletBalance, Debited, Credited;
    if !Covered(f, e, lower) {
      assert InWallet(FoldStep(f, e).balances, lower(Debited(e).value), lower) < 0;
    }
  }

  lemma {:induction false} IsInWallet(balances: Table, x: Option<string>, lower: string -> string)
    ensures x.Some? ==> WalletBalance(balances, x.value, lower) == InWallet(balances, lower(x.value), lower)
  {
  }

  ghost predicate NeverOverdrawn(entries: seq<Entry>, lower: string -> string) {
    NoneOverdrawn(FoldOf(entries).balances, lower)
    && (entries != [] ==> NeverOverdrawn(entries[..|entries| - 1], lower))
  }

  ghost predicate AllCovered(entries: seq<Entry>, lower: string -> string) {
    entries == [] ||
    (AllCovered(entries[..|entries| - 1], lower)
     && Covered(FoldOf(entries[..|entries| - 1]), entries[|entries| - 1], lower))
  }

  lemma {:induction false} NowNoneOverdrawn(entries: seq<Entry>, lower: string -> string)
    ensures NeverOverdrawn(entries, lower) ==> NoneOverdrawn(FoldOf(entries).balances, lower)
  {
  }

  predicate AllFungible(entries: seq<Entry>) {
    forall i :: 0 <= i < |entries| ==> FungibleEntry(entries[i])
  }

  /**
   * A fungible stream never overdraws a wallet exactly when each of its debits was covered
   * by the wallet's balance in the stream itself.
   */
  lemma {:induction false} NeverOverdrawnIff(entries: seq<Entry>, lower: string -> string)
    requires AllFungible(entries)
    ensures NeverOverdrawn(entries, lower) <==> AllCovered(entries, lower)
  {
    if entries == [] {
      assert ByWallet(map[], lower) == map[];
    } else {
      var init, e := entries[..|entries| - 1], entries[|entries| - 1];
      assert forall i :: 0 <= i < |init| ==> init[i] == entries[i];
      NeverOverdrawnIff(init, lower);
      hide FoldStep, NoneOverdrawn, Covered;
      if NeverOverdrawn(init, lower) { StepOverdrawsIff(FoldOf(init), e, lower); }
    }
  }

  function Itself(x: string): string {
    x
  }

  /** Address for address: with nothing folded together, no balance is negative. */
  lemma {:induction false} ByAddress(balances: Table, x: string)
    ensures WalletBalance(balances, x, Itself) == Get(balances, x)
    ensures NoneOverdrawn(balances, Itself) <==> forall y :: y in balances ==> balances[y] >= 0
  {
    forall y: string ensures InWallet(balances, y, Itself) == Get(balances, y) {
      var own := Spellings(balances, y, Itself);
      if y in balances {
        assert own == map[y := balances[y]] && own - {y} == map[];
        TotalWithout(own, y);
      } else {
        assert own == map[];
      }
    }
    hide Total;
    OverdrawnIff(balances, Itself);
    hide NoneOverdrawn;
    if y :| y in balances && balances[y] < 0 { assert InWallet(balances, y, Itself) < 0; }
    IsInWallet(balances, Some(x), Itself);
  }

  // --- live runs of several assets -----------------------------------------------------------------

  /** A call of a fungible contract that names its accounts. */
  predicate Plain(c: Call) {
    OfKind(Fungible, LedgerOp(c)) && Addressed(EntryOf(c))
  }

  predicate AllPlain(calls: seq<Call>) {
    forall i :: 0 <= i < |calls| ==> Plain(calls[i])
  }

  predicate PlainRow(t: Tagged) {
    FungibleEntry(t.entry) && Addressed(t.entry)
  }

  lemma {:induction false} RowsArePlain(a: AssetState, run: seq<Issued>)
    requires AllPlain(Accepted(a, CallsOf(run)))
    ensures forall i :: 0 <= i < |RowsRecorded(a, run)| ==> PlainRow(RowsRecorded(a, run)[i])
  {
    if run != [] {
      var init, i := run[..|run| - 1], run[|run| - 1];
      CallsOfMore(run);
      var before := Accepted(a, CallsOf(init));
      hide Apply, EntryOf, LedgerOp, Addressed, FungibleEntry, CallsOf, OfKind, Plain, PlainRow;
      assert forall j :: 0 <= j < |before| ==> before[j] == Accepted(a, CallsOf(run))[j];
      RowsArePlain(a, init);
      if Apply(After(a, CallsOf(init)), LedgerOp(i.call)).Success? {
        assert Accepted(a, CallsOf(run))[|before|] == i.call;
        PlainIsPlain(i);
      }
      var rows, earlier := RowsRecorded(a, run), RowsRecorded(a, init);
      forall j | 0 <= j < |rows| ensures PlainRow(rows[j]) {
        if j < |earlier| { assert rows[j] == earlier[j]; }
      }
    }
  }

  lemma {:induction false} PlainIsPlain(i: Issued)
    requires Plain(i.call)
    ensures PlainRow(Tagged(i.assetId, EntryOf(i.call)))
  {
  }

  lemma {:induction false} StreamMore(rows: seq<Tagged>, t: Tagged, id: string)
    ensures Stream(rows + [t], id) == Stream(rows, id) + if t.assetId == id then [t.entry] else []
  {
    hide Entries;
    assert (rows + [t])[..|rows|] == rows;
    EntriesMore(RowsOf(rows, {id}), t);
    assert Stream(rows, id) + [] == Stream(rows, id);
  }

  lemma {:induction false} StreamIsPlain(rows: seq<Tagged>, id: string)
    requires forall i :: 0 <= i < |rows| ==> PlainRow(rows[i])
    ensures AllFungible(Stream(rows, id))
    ensures forall i :: 0 <= i < |Stream(rows, id)| ==> Addressed(Stream(rows, id)[i])
  {
    if rows != [] {
      var init, t := rows[..|rows| - 1], rows[|rows| - 1];
      StreamIsPlain(init, id);
      assert PlainRow(t) && rows == init + [t];
      hide Stream, FungibleEntry, Addressed;
      StreamMore(init, t, id);
      var before, now := Stream(init, id), Stream(rows, id);
      forall i | 0 <= i < |now| ensures FungibleEntry(now[i]) && Addressed(now[i]) {
        if i < |before| { assert now[i] == before[i]; }
      }
    }
  }

  /**
   * Whatever assets share the contract: in an asset's own stream the supply is the sum of
   * the balances, and no wallet is ever overdrawn exactly when each debit was covered by
   * what the wallet had of that asset, which the ledger does not ask.
   */
  lemma {:induction false} SharedStreamIsSoundIff(a: AssetState, run: seq<Issued>, id: string, lower: string -> string)
    requires AllPlain(Accepted(a, CallsOf(run)))
    ensures
      var own := Stream(RowsRecorded(a, run), id);
      && FoldOf(own).supply == Total(FoldOf(own).balances)
      && (NeverOverdrawn(own, lower) <==> AllCovered(own, lower))
  {
    RowsArePlain(a, run);
    StreamIsPlain(RowsRecorded(a, run), id);
    hide RowsRecorded, Stream, FoldOf, Total, NeverOverdrawn, AllCovered;
    FoldKeepsSum(Stream(RowsRecorded(a, run), id));
    NeverOverdrawnIff(Stream(RowsRecorded(a, run), id), lower);
  }

  lemma {:induction false} OneMoreIssued(a: AssetState, run: seq<Issued>, i: Issued)
    ensures CallsOf(run + [i]) == CallsOf(run) + [i.call]
    ensures RowsRecorded(a, run + [i]) == RowsRecorded(a, run)
      + if Apply(After(a, CallsOf(run)), LedgerOp(i.call)).Success? then [Tagged(i.assetId, EntryOf(i.call))] else []
  {
    hide Apply, EntryOf, LedgerOp;
    assert (run + [i])[..|run|] == run;
  }

  /** A call under one asset and two under another, all accepted. */
  lemma {:induction false} ThreeIssued(a: AssetState, c: Issued, d: Issued, e: Issued)
    requires Apply(a, LedgerOp(c.call)).Success? && Apply(Attempt(a, LedgerOp(c.call)), LedgerOp(d.call)).Success?
    requires Apply(Attempt(Attempt(a, LedgerOp(c.call)), LedgerOp(d.call)), LedgerOp(e.call)).Success?
    requires c.assetId != d.assetId && d.assetId == e.assetId
    ensures CallsOf([c, d, e]) == [c.call, d.call, e.call]
    ensures Stream(RowsRecorded(a, [c, d, e]), d.assetId) == [EntryOf(d.call), EntryOf(e.call)]
  {
    hide Apply, EntryOf, LedgerOp, Attempt, Stream;
    OneMoreIssued(a, [], c);
    OneMoreIssued(a, [c], d);
    OneMoreIssued(a, [c, d], e);
    assert [] + [c] == [c] && [c] + [d] == [c, d] && [c, d] + [e] == [c, d, e];
    assert [c.call][..0] == [] && [c.call, d.call][..1] == [c.call];
    var u, v, w := Tagged(c.assetId, EntryOf(c.call)), Tagged(d.assetId, EntryOf(d.call)),
      Tagged(e.assetId, EntryOf(e.call));
    assert After(a, []) == a && After(a, [c.call]) == Attempt(a, LedgerOp(c.call));
    assert After(a, [c.call, d.call]) == Attempt(Attempt(a, LedgerOp(c.call)), LedgerOp(d.call));
    assert RowsRecorded(a, [c]) == [u] && RowsRecorded(a, [c, d]) == [u] + [v];
    assert RowsRecorded(a, [c, d, e]) == [u] + [v] + [w];
    NoStreamYet(d.assetId);
    StreamMore([], u, d.assetId);
    StreamMore([u], v, d.assetId);
    StreamMore([u] + [v], w, d.assetId);
    assert [] + [u] == [u];
  }

  lemma {:induction false} NoStreamYet(id: string)
    ensures Stream([], id) == []
  {
  }

  // --- the combined trail ----------------------------------------------------------------------

  /** In the combined trail of a live run of non-market calls nobody is overdrawn, and the supply is the sum. */
  lemma {:induction false} LiveTrailIsSound(allowlistEnabled: bool, calls: seq<Call>)
    requires
      var accepted := Accepted(Fresh(Fungible, allowlistEnabled), calls);
      OfOneKind(Fungible, accepted) && Ordinary(accepted)
    ensures
      var f := FoldOf(TrailOf(Fresh(Fungible, allowlistEnabled), calls));
      f.supply == Total(f.balances) && forall x :: x in f.balances ==> f.balances[x] >= 0
  {
    var shell := Fresh(Fungible, allowlistEnabled);
    var live, trail := After(shell, calls), TrailOf(shell, calls);
    ReplayKeepsStep(shell, calls);
    AfterConserves(shell, calls);
    ReplayIsFold(trail);
    hide After, TrailOf, FoldOf, Replay;
    var f := FoldOf(trail);
    SameReadsSameTotal(live.balances, f.balances);
    forall x | x in f.balances ensures f.balances[x] >= 0 {
      assert Get(live.balances, x) == Get(f.balances, x);
    }
  }

  /**
   * Exactly when a market run's combined trail overdraws nobody: each account must hold, with what
   * it has listed, nothing negative, and the escrow account must hold all that is listed.
   */
  lemma {:induction false} MarketTrailIsSoundIff(escrow: string, allowlistEnabled: bool, calls: seq<Call>)
    requires MarketRun(escrow, Fresh(Fungible, allowlistEnabled), calls)
    ensures
      var shell := Fresh(Fungible, allowlistEnabled);
      var live, open := After(shell, calls).balances, OpenOf(TrailOf(shell, calls));
      var f := FoldOf(TrailOf(shell, calls));
      && f.supply == Total(f.balances)
      && ((forall x :: x in f.balances ==> f.balances[x] >= 0)
          <==> forall x :: Get(live, x) + Get(open, x) >= if x == escrow then Total(open) else 0)
  {
    var shell := Fresh(Fungible, allowlistEnabled);
    var live, trail := After(shell, calls), TrailOf(shell, calls);
    hide After, TrailOf, Replay, RawOf, OpenOf, FoldOf, MarketRun, Total, Get;
    ReplayIsFold(trail);
    MarketSupply(escrow, allowlistEnabled, calls);
    forall x: string
      ensures Get(FoldOf(trail).balances, x)
        == Get(live.balances, x) + Get(OpenOf(trail), x) - (if x == escrow then Total(OpenOf(trail)) else 0)
    {
      ReplayIsLiveUpToEscrow(escrow, allowlistEnabled, calls, x);
    }
    ReadsNonNegativeIff(FoldOf(trail).balances);
  }

  lemma {:induction false} ReadsNonNegativeIff(m: Table)
    ensures (forall x :: x in m ==> m[x] >= 0) <==> forall x :: Get(m, x) >= 0
  {
    if x :| x in m && m[x] < 0 { assert Get(m, x) < 0; }
  }

  lemma {:induction false} MarketSupply(escrow: string, allowlistEnabled: bool, calls: seq<Call>)
    requires MarketRun(escrow, Fresh(Fungible, allowlistEnabled), calls)
    ensures
      var f := FoldOf(TrailOf(Fresh(Fungible, allowlistEnabled), calls));
      f.supply == Total(f.balances)
  {
    var shell := Fresh(Fungible, allowlistEnabled);
    var live, trail := After(shell, calls), TrailOf(shell, calls);
    RunIsLiteral(shell, escrow, calls);
    AfterConserves(shell, calls);
    hide After, TrailOf, Replay, RawOf, OpenOf, FoldOf, Total;
    ReplayIsLiveUpToEscrow(escrow, allowlistEnabled, calls, "");
    ReplayIsFold(trail);
    FoldsDifferByOpenEscrow(escrow, trail, "");
    SameReadsSameTotal(live.balances, RawOf(trail).balances);
  }
}
