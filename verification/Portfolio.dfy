/**
 * The portfolio: what each wallet is told it holds, what that is worth, and when the
 * wallets of an asset are between them told more than the asset is worth.
 */
module Portfolio {
  import opened Wrappers
  import opened Sums
  import opened Amounts
  import opened Ledger
  import opened Trail
  import opened LedgerReplay
  import opened Holders
  import opened MarketReplay
  import opened ProRata
  import opened Investor
  import opened AssetStreams

  datatype Holding = Holding(id: string, units: int, value: Option<Money>)

  function TrailFor(trails: map<string, seq<Entry>>, id: string): seq<Entry> {
    if id in trails then trails[id] else []
  }

  /** The holding of one asset: units by the fold of its trail, and their value where it has one. */
  ghost function HoldingOf(a: Asset, trails: map<string, seq<Entry>>, wallet: string,
      lower: string -> string): Holding {
    var f := FoldOf(TrailFor(trails, a.id));
    var units := WalletBalance(f.balances, wallet, lower);
    Holding(a.id, units, HoldingValue(a, units, f.supply))
  }

  /** The holdings listed: of the assets in which the wallet has units. */
  ghost function HeldIn(assets: seq<Asset>, trails: map<string, seq<Entry>>, wallet: string,
      lower: string -> string): seq<Holding> {
    if assets == [] then [] else
      var h := HoldingOf(assets[|assets| - 1], trails, wallet, lower);
      HeldIn(assets[..|assets| - 1], trails, wallet, lower) + if h.units > 0 then [h] else []
  }

  /** What the listed holdings of one asset are worth. */
  function WorthOf(held: seq<Holding>, id: string): int {
    if held == [] then 0 else
      var h := held[|held| - 1];
      WorthOf(held[..|held| - 1], id) + if h.id == id && h.value.Some? then h.value.value.amount else 0
  }

  /** What the listed holdings are worth in one currency. */
  function WorthIn(held: seq<Holding>, currency: string): int {
    if held == [] then 0 else
      var h := held[|held| - 1];
      WorthIn(held[..|held| - 1], currency)
      + if h.value.Some? && h.value.value.currency == currency then h.value.value.amount else 0
  }

  method ComputePortfolio(assets: seq<Asset>, trails: map<string, seq<Entry>>, wallet: string, lower: string -> string)
      returns (held: seq<Holding>, totals: Table)
    ensures held == HeldIn(assets, trails, wallet, lower)
    ensures forall c :: Get(totals, c) == WorthIn(held, c)
  {
    hide HoldingValue, FoldOf, WalletBalance, WorthIn, Get, Add;
    held, totals := [], map[];
    NothingHeld();
    for n := 0 to |assets|
      invariant held == HeldIn(assets[..n], trails, wallet, lower)
      invariant forall c :: Get(totals, c) == WorthIn(held, c)
    {
      assert assets[..n + 1][..n] == assets[..n];
      var a := assets[n];
      var balances, supply := FoldAsset(if a.id in trails then trails[a.id] else []);
      var units := BalanceOfWallet(balances, wallet, lower);
      if units <= 0 { continue; }
      var v := HoldingValue(a, units, supply);
      TotalsGrow(totals, held, Holding(a.id, units, v));
      if v.Some? { totals := Add(totals, v.value.currency, v.value.amount); }
      held := held + [Holding(a.id, units, v)];
    }
    assert assets[..|assets|] == assets;
  }

  lemma {:induction false} NothingHeld()
    ensures forall c :: Get(map[], c) == WorthIn([], c)
  {
  }

  lemma {:induction false} TotalsGrow(totals: Table, held: seq<Holding>, h: Holding)
    requires forall c :: Get(totals, c) == WorthIn(held, c)
    ensures
      var more := if h.value.Some? then Add(totals, h.value.value.currency, h.value.value.amount) else totals;
      forall c :: Get(more, c) == WorthIn(held + [h], c)
  {
    assert (held + [h])[..|held|] == held;
  }

  // --- one asset, across wallets ------------------------------------------------------------

  predicate DistinctIds(assets: seq<Asset>) {
    forall i, j :: 0 <= i < j < |assets| ==> assets[i].id != assets[j].id
  }

  predicate DistinctWallets(wallets: seq<string>, lower: string -> string) {
    forall i, j :: 0 <= i < j < |wallets| ==> lower(wallets[i]) != lower(wallets[j])
  }

  lemma {:induction false} WorthOfMore(held: seq<Holding>, h: Holding, id: string)
    ensures WorthOf(held + [h], id)
      == WorthOf(held, id) + if h.id == id && h.value.Some? then h.value.value.amount else 0
    ensures held + [] == held
  {
    assert (held + [h])[..|held|] == held;
  }

  /** What a wallet's portfolio says one asset's holding is worth. */
  lemma {:induction false} WorthIsValue(assets: seq<Asset>, k: nat, trails: map<string, seq<Entry>>, wallet: string,
      lower: string -> string)
    requires k < |assets| && DistinctIds(assets)
    ensures
      var h := HoldingOf(assets[k], trails, wallet, lower);
      WorthOf(HeldIn(assets, trails, wallet, lower), assets[k].id)
        == if h.units > 0 && h.value.Some? then h.value.value.amount else 0
  {
    hide HoldingValue, FoldOf, WalletBalance, WorthOf;
    var init, last := assets[..|assets| - 1], assets[|assets| - 1];
    WorthOfMore(HeldIn(init, trails, wallet, lower), HoldingOf(last, trails, wallet, lower), assets[k].id);
    if k == |init| {
      NotListed(init, trails, wallet, lower, last.id);
    } else {
      WorthIsValue(init, k, trails, wallet, lower);
    }
  }

  lemma {:induction false} NotListed(assets: seq<Asset>, trails: map<string, seq<Entry>>, wallet: string,
      lower: string -> string, id: string)
    requires forall i :: 0 <= i < |assets| ==> assets[i].id != id
    ensures WorthOf(HeldIn(assets, trails, wallet, lower), id) == 0
  {
    hide HoldingValue, FoldOf, WalletBalance;
    if assets != [] {
      var init, last := assets[..|assets| - 1], assets[|assets| - 1];
      NotListed(init, trails, wallet, lower, id);
      WorthOfMore(HeldIn(init, trails, wallet, lower), HoldingOf(last, trails, wallet, lower), id);
    }
  }

  /** The worth of one asset, added up over the portfolios of several wallets. */
  ghost function WorthAcross(wallets: seq<string>, assets: seq<Asset>, trails: map<string, seq<Entry>>, id: string,
      lower: string -> string): int {
    if wallets == [] then 0 else
      WorthAcross(wallets[..|wallets| - 1], assets, trails, id, lower)
      + WorthOf(HeldIn(assets, trails, wallets[|wallets| - 1], lower), id)
  }

  function ReadAt(m: Table, wallets: seq<string>, lower: string -> string): int {
    if wallets == [] then 0 else
      ReadAt(m, wallets[..|wallets| - 1], lower) + Get(m, lower(wallets[|wallets| - 1]))
  }

  predicate Reached(wallets: seq<string>, w: string, lower: string -> string) {
    exists i :: 0 <= i < |wallets| && lower(wallets[i]) == w
  }

  /** Reading a table of nothing negative at distinct places gives at most its total. */
  lemma {:induction false} ReadsBound(m: Table, wallets: seq<string>, lower: string -> string)
    requires NonNegative(m) && DistinctWallets(wallets, lower)
    ensures ReadAt(m, wallets, lower) <= Total(m)
    decreases |wallets|
  {
    if wallets == [] {
      TotalNonNegative(m);
    } else {
      hide Total, Get;
      var init, last := wallets[..|wallets| - 1], lower(wallets[|wallets| - 1]);
      TotalDrop(m, last);
      ReadsBound(m - {last}, init, lower);
      SameReadsElsewhere(m, last, init, lower);
    }
  }

  /** And reading it at every place gives all of it. */
  lemma {:induction false} ReadsAll(m: Table, wallets: seq<string>, lower: string -> string)
    requires DistinctWallets(wallets, lower) && forall w :: w in m ==> Reached(wallets, w, lower)
    ensures ReadAt(m, wallets, lower) == Total(m)
    decreases |wallets|
  {
    if wallets == [] {
      assert forall w :: w in m ==> Reached(wallets, w, lower);
      assert m == map[];
    } else {
      hide Total, Get;
      var init, last := wallets[..|wallets| - 1], lower(wallets[|wallets| - 1]);
      TotalDrop(m, last);
      forall w | w in m - {last} ensures Reached(init, w, lower) { assert Reached(wallets, w, lower); }
      ReadsAll(m - {last}, init, lower);
      SameReadsElsewhere(m, last, init, lower);
    }
  }

  lemma {:induction false} SameReadsElsewhere(m: Table, k: string, wallets: seq<string>, lower: string -> string)
    requires forall i :: 0 <= i < |wallets| ==> lower(wallets[i]) != k
    ensures ReadAt(m - {k}, wallets, lower) == ReadAt(m, wallets, lower)
  {
    if wallets != [] { SameReadsElsewhere(m, k, wallets[..|wallets| - 1], lower); }
  }

  lemma {:induction false} ValueAt(a: Asset, trails: map<string, seq<Entry>>, wallet: string, lower: string -> string)
    ensures
      var f, h := FoldOf(TrailFor(trails, a.id)), HoldingOf(a, trails, wallet, lower);
      Get(Values(a, f.balances, f.supply, lower), lower(wallet))
        == if h.units > 0 && h.value.Some? then h.value.value.amount else 0
  {
    hide FoldOf, HoldingValue, ByWallet, Total, Spellings;
    GetByWallet(FoldOf(TrailFor(trails, a.id)).balances, lower(wallet), lower);
  }

  lemma {:induction false} AcrossIsReadAt(wallets: seq<string>, assets: seq<Asset>, k: nat,
      trails: map<string, seq<Entry>>, lower: string -> string)
    requires k < |assets| && DistinctIds(assets)
    ensures
      var f := FoldOf(TrailFor(trails, assets[k].id));
      WorthAcross(wallets, assets, trails, assets[k].id, lower)
        == ReadAt(Values(assets[k], f.balances, f.supply, lower), wallets, lower)
  {
    hide FoldOf, HoldingOf, Values, WorthOf, HeldIn, DistinctIds;
    if wallets != [] {
      AcrossIsReadAt(wallets[..|wallets| - 1], assets, k, trails, lower);
      WorthIsValue(assets, k, trails, wallets[|wallets| - 1], lower);
      ValueAt(assets[k], trails, wallets[|wallets| - 1], lower);
    }
  }

  ghost predicate Covers(wallets: seq<string>, balances: Table, lower: string -> string) {
    forall w :: w in ByWallet(balances, lower) ==> Reached(wallets, w, lower)
  }

  /**
   * The portfolios of distinct wallets never put more on a face-valued asset than its
   * face value, so long as its trail overdraws no wallet; and if they are the wallets
   * of all its holders, they put on it all but less than one for each of them.
   */
  lemma {:induction false} PortfoliosNeverOverstate(wallets: seq<string>, assets: seq<Asset>, k: nat, face: nat,
      trails: map<string, seq<Entry>>, lower: string -> string)
    requires k < |assets| && DistinctIds(assets) && ValuedByFace(assets[k], face)
    requires DistinctWallets(wallets, lower)
    requires
      var f := FoldOf(TrailFor(trails, assets[k].id));
      f.supply == Total(f.balances) && NoneOverdrawn(f.balances, lower)
    ensures
      var f := FoldOf(TrailFor(trails, assets[k].id));
      && WorthAcross(wallets, assets, trails, assets[k].id, lower) <= face
      && (f.supply > 0 && Covers(wallets, f.balances, lower) ==>
            face - |Positives(ByWallet(f.balances, lower))|
              < WorthAcross(wallets, assets, trails, assets[k].id, lower))
  {
    hide FoldOf, HoldingValue, ByWallet, Total, ReadAt, WorthAcross, ValuedByFace, DistinctWallets, DistinctIds;
    var a, f := assets[k], FoldOf(TrailFor(trails, assets[k].id));
    AcrossIsReadAt(wallets, assets, k, trails, lower);
    NoValueNegative(a, face, f.balances, f.supply, lower);
    ReadsBound(Values(a, f.balances, f.supply, lower), wallets, lower);
    if Covers(wallets, f.balances, lower) { ReadsAll(Values(a, f.balances, f.supply, lower), wallets, lower); }
    if f.supply > 0 {
      ValuesNearFace(a, face, f.balances, f.supply, lower);
    } else {
      WithoutSupply(a, face, f.balances, f.supply, lower);
    }
  }

  lemma {:induction false} NoValueNegative(a: Asset, face: nat, balances: Table, supply: int, lower: string -> string)
    requires ValuedByFace(a, face)
    ensures NonNegative(Values(a, balances, supply, lower))
  {
    hide ByWallet, HoldingValue, ValuedByFace;
    var holders := Positives(ByWallet(balances, lower));
    forall w | w in holders ensures Values(a, balances, supply, lower)[w] >= 0 {
      if supply > 0 { FaceShare(a, face, holders[w], supply); } else { NoValue(a, face, holders[w], supply); }
    }
  }

  lemma {:induction false} NoValue(a: Asset, face: nat, units: int, supply: int)
    requires ValuedByFace(a, face) && supply <= 0
    ensures HoldingValue(a, units, supply) == None
  {
    hide Value, IsDecimal;
  }

  // --- live runs ------------------------------------------------------------------------------

  /**
   * From the live ledger to the portfolios, for an asset that may share its contract with
   * others: no wallet set is shown more than its face value so long as each debit of its
   * own stream was covered in it.
   */
  lemma {:induction false} LivePortfoliosNeverOverstate(allowlistEnabled: bool, run: seq<Issued>,
      wallets: seq<string>, assets: seq<Asset>, k: nat, face: nat, trails: map<string, seq<Entry>>,
      lower: string -> string)
    requires k < |assets| && DistinctIds(assets) && ValuedByFace(assets[k], face) && DistinctWallets(wallets, lower)
    requires AllPlain(Accepted(Fresh(Fungible, allowlistEnabled), CallsOf(run)))
    requires
      var own := Stream(RowsRecorded(Fresh(Fungible, allowlistEnabled), run), assets[k].id);
      TrailFor(trails, assets[k].id) == own && AllCovered(own, lower)
    ensures WorthAcross(wallets, assets, trails, assets[k].id, lower) <= face
  {
    hide *;
    var shell := Fresh(Fungible, allowlistEnabled);
    var own := Stream(RowsRecorded(shell, run), assets[k].id);
    SharedStreamIsSoundIff(shell, run, assets[k].id, lower);
    NowNoneOverdrawn(own, lower);
    PortfoliosNeverOverstate(wallets, assets, k, face, trails, lower);
  }

  /** And for one that is alone on its contract, market calls included: in terms of the live balances. */
  lemma {:induction false} SoleAssetNeverOverstated(escrow: string, allowlistEnabled: bool, run: seq<Issued>,
      wallets: seq<string>, assets: seq<Asset>, k: nat, face: nat, trails: map<string, seq<Entry>>,
      lower: string -> string)
    requires k < |assets| && DistinctIds(assets) && ValuedByFace(assets[k], face) && DistinctWallets(wallets, lower)
    requires MarketRun(escrow, Fresh(Fungible, allowlistEnabled), CallsOf(run))
    requires forall i :: 0 <= i < |run| ==> run[i].assetId == assets[k].id
    requires
      var shell := Fresh(Fungible, allowlistEnabled);
      var live, open := After(shell, CallsOf(run)).balances, OpenOf(TrailOf(shell, CallsOf(run)));
      forall x :: Get(live, x) + Get(open, x) >= if x == escrow then Total(open) else 0
    requires TrailFor(trails, assets[k].id)
      == Stream(RowsRecorded(Fresh(Fungible, allowlistEnabled), run), assets[k].id)
    ensures WorthAcross(wallets, assets, trails, assets[k].id, lower) <= face
  {
    hide *;
    var shell := Fresh(Fungible, allowlistEnabled);
    SoleStream(shell, run, assets[k].id);
    MarketTrailIsSoundIff(escrow, allowlistEnabled, CallsOf(run));
    NoWalletNegative(FoldOf(TrailOf(shell, CallsOf(run))).balances, lower);
    PortfoliosNeverOverstate(wallets, assets, k, face, trails, lower);
  }

  /** What is in the fold of a trail of three entries. */
  lemma {:induction false} FoldOfThree(d: Entry, e: Entry, f: Entry)
    ensures FoldOf([d, e, f]) == FoldStep(FoldStep(FoldStep(NOTHING_FOLDED, d), e), f)
  {
    hide FoldStep;
    assert [d, e, f][..2] == [d, e] && [d, e][..1] == [d] && [d][..0] == [];
    assert FoldOf([d]) == FoldStep(NOTHING_FOLDED, d) && FoldOf([d, e]) == FoldStep(FoldOf([d]), e);
  }

  lemma {:induction false} ThreeCalls(a: AssetState, c: Call, d: Call, e: Call)
    requires Apply(a, LedgerOp(c)).Success? && Apply(Attempt(a, LedgerOp(c)), LedgerOp(d)).Success?
    requires Apply(Attempt(Attempt(a, LedgerOp(c)), LedgerOp(d)), LedgerOp(e)).Success?
    ensures Accepted(a, [c, d, e]) == [c, d, e] && TrailOf(a, [c, d, e]) == [EntryOf(c), EntryOf(d), EntryOf(e)]
  {
    hide Apply, LedgerOp, EntryOf, Attempt;
    assert [c, d, e][..2] == [c, d] && [c, d][..1] == [c] && [c][..0] == [];
    assert After(a, []) == a && TrailOf(a, []) == [] && Accepted(a, []) == [];
    assert After(a, [c]) == Attempt(a, LedgerOp(c)) && TrailOf(a, [c]) == [EntryOf(c)] && Accepted(a, [c]) == [c];
    assert After(a, [c, d]) == Attempt(Attempt(a, LedgerOp(c)), LedgerOp(d));
    assert TrailOf(a, [c, d]) == [EntryOf(c), EntryOf(d)] && Accepted(a, [c, d]) == [c, d];
  }

  /** One unit, written in a way the folds read, and in one they do not. */
  lemma {:induction false} Ones()
    ensures Positive("1") == Success(1) && AmountOf(Some("1")) == 1
    ensures Positive("0x1") == Success(1) && AmountOf(Some("0x1")) == 0
  {
    assert "1"[..0] == "" && Value(10, "1") == 1 && IsDecimal("1");
    assert TrimLeft("1") == "1" && TrimRight("1") == "1";
    var h := "0x1";
    assert TrimLeft(h) == h && TrimRight(h) == h;
    assert h[1..] == "x1" && !IsDecimal(h) by { assert DigitOf(h[1]) == 33; }
    assert h[2..] == "1" && Value(16, "1") == 1 && DigitsIn(16, "1");
  }

  /**
   * A trail that overdraws: units minted in an amount that the folds do not read, and
   * spent in one that they do. The live ledger owes nobody anything, and yet two wallets
   * are between them shown twice what the asset is worth.
   */
  lemma {:induction false} OverdraftOverstates(lower: string -> string)
    requires lower("a") != lower("b") && lower("b") != lower("c") && lower("a") != lower("c")
    ensures
      var shell := Fresh(Fungible, false);
      var calls := [DoMint("b", "0x1"), DoTransfer("b", "a", "1"), DoMint("c", "1")];
      var trail := TrailOf(shell, calls);
      && Accepted(shell, calls) == calls
      && FoldOf(trail).balances == map["b" := -1, "a" := 1, "c" := 1]
      && WorthAcross(["a", "c"], [FaceAsset("x", 2, "EUR")], map["x" := trail], "x", lower) == 4
  {
    hide *;
    var trail := [EntryOf(DoMint("b", "0x1")), EntryOf(DoTransfer("b", "a", "1")), EntryOf(DoMint("c", "1"))];
    OverdraftAccepted();
    OverdraftFolds();
    OverdraftShown("x", "a", map["x" := trail], lower);
    OverdraftShown("x", "c", map["x" := trail], lower);
    TwoWallets("a", "c", [FaceAsset("x", 2, "EUR")], map["x" := trail], "x", lower);
  }

  /**
   * And one that overdraws without any such amount. A unit minted under one asset is
   * transferred under another of the same contract: the ledger sees that it is there, and
   * the other asset's own stream does not. Off the market, plainly written, all accepted.
   */
  lemma {:induction false} SharedContractOverstates(lower: string -> string)
    requires lower("a") != lower("b") && lower("b") != lower("c") && lower("a") != lower("c")
    ensures
      var shell := Fresh(Fungible, false);
      var run := [Issued("A", DoMint("b", "1")), Issued("B", DoTransfer("b", "a", "1")), Issued("B", DoMint("c", "1"))];
      var own := Stream(RowsRecorded(shell, run), "B");
      && Accepted(shell, CallsOf(run)) == CallsOf(run) && Ordinary(CallsOf(run))
      && FoldOf(own).balances == map["b" := -1, "a" := 1, "c" := 1] && !AllCovered(own, lower)
      && WorthAcross(["a", "c"], [FaceAsset("B", 2, "EUR")], map["B" := own], "B", lower) == 4
  {
    hide *;
    var own := [EntryOf(DoTransfer("b", "a", "1")), EntryOf(DoMint("c", "1"))];
    PooledIsAccepted();
    PooledFolds(lower);
    OverdraftShown("B", "a", map["B" := own], lower);
    OverdraftShown("B", "c", map["B" := own], lower);
    TwoWallets("a", "c", [FaceAsset("B", 2, "EUR")], map["B" := own], "B", lower);
  }

  lemma {:induction false} PooledIsAccepted()
    ensures
      var shell := Fresh(Fungible, false);
      var run := [Issued("A", DoMint("b", "1")), Issued("B", DoTransfer("b", "a", "1")), Issued("B", DoMint("c", "1"))];
      && Accepted(shell, CallsOf(run)) == CallsOf(run) && Ordinary(CallsOf(run))
      && Stream(RowsRecorded(shell, run), "B") == [EntryOf(DoTransfer("b", "a", "1")), EntryOf(DoMint("c", "1"))]
  {
    var shell := Fresh(Fungible, false);
    var c, d, e := DoMint("b", "1"), DoTransfer("b", "a", "1"), DoMint("c", "1");
    Ones();
    hide Positive, After, TrailOf, Accepted, AmountOf, RowsRecorded, Stream;
    ThreeCalls(shell, c, d, e);
    ThreeIssued(shell, Issued("A", c), Issued("B", d), Issued("B", e));
  }

  lemma {:induction false} PooledFolds(lower: string -> string)
    requires lower("a") != lower("b")
    ensures
      var own := [EntryOf(DoTransfer("b", "a", "1")), EntryOf(DoMint("c", "1"))];
      && FoldOf(own) == Folded(map["b" := -1, "a" := 1, "c" := 1], 1, map[])
      && !AllCovered(own, lower)
  {
    Ones();
    var d, e := EntryOf(DoTransfer("b", "a", "1")), EntryOf(DoMint("c", "1"));
    assert Spellings(map[], lower("b"), lower) == map[];
    FirstUncovered(d, e, lower);
    hide AmountOf, AllCovered, FoldOf;
    FoldOfTwo(d, e);
  }

  lemma {:induction false} FoldOfTwo(d: Entry, e: Entry)
    ensures FoldOf([d, e]) == FoldStep(FoldStep(NOTHING_FOLDED, d), e)
  {
    hide FoldStep;
    assert [d, e][..1] == [d] && [d][..0] == [] && FoldOf([d]) == FoldStep(FoldOf([]), d);
  }

  /** A stream that begins with a debit. */
  lemma {:induction false} FirstUncovered(d: Entry, e: Entry, lower: string -> string)
    requires !Covered(NOTHING_FOLDED, d, lower)
    ensures !AllCovered([d, e], lower)
  {
    hide Covered;
    assert [d, e][..1] == [d] && [d][..0] == [] && FoldOf([]) == NOTHING_FOLDED;
    assert !AllCovered([d], lower);
  }

  lemma {:induction false} OverdraftAccepted()
    ensures
      var shell := Fresh(Fungible, false);
      var c, d, e := DoMint("b", "0x1"), DoTransfer("b", "a", "1"), DoMint("c", "1");
      Accepted(shell, [c, d, e]) == [c, d, e] && TrailOf(shell, [c, d, e]) == [EntryOf(c), EntryOf(d), EntryOf(e)]
  {
    var c, d, e := DoMint("b", "0x1"), DoTransfer("b", "a", "1"), DoMint("c", "1");
    Ones();
    hide Positive, EntryOf, After, TrailOf, Accepted, AmountOf;
    ThreeCalls(Fresh(Fungible, false), c, d, e);
  }

  lemma {:induction false} OverdraftFolds()
    ensures
      FoldOf([EntryOf(DoMint("b", "0x1")), EntryOf(DoTransfer("b", "a", "1")), EntryOf(DoMint("c", "1"))])
        == Folded(map["b" := -1, "a" := 1, "c" := 1], 1, map[])
  {
    Ones();
    hide Positive, AmountOf, FoldOf, FoldStep;
    FoldOfThree(EntryOf(DoMint("b", "0x1")), EntryOf(DoTransfer("b", "a", "1")), EntryOf(DoMint("c", "1")));
    NothingMinted("b");
    OneMoved("b", "a");
    OneMinted("c");
  }

  lemma {:induction false} NothingMinted(to: string)
    requires to != ""
    ensures FoldStep(NOTHING_FOLDED, EntryOf(DoMint(to, "0x1"))) == Folded(map[to := 0], 0, map[])
  {
    Ones();
    hide Positive, AmountOf;
  }

  lemma {:induction false} OneMoved(from: string, to: string)
    requires from != "" && to != "" && from != to
    ensures FoldStep(Folded(map[from := 0], 0, map[]), EntryOf(DoTransfer(from, to, "1")))
      == Folded(map[from := -1, to := 1], 0, map[])
  {
    Ones();
    hide Positive, AmountOf;
  }

  lemma {:induction false} OneMinted(to: string)
    requires to == "c"
    ensures FoldStep(Folded(map["b" := -1, "a" := 1], 0, map[]), EntryOf(DoMint(to, "1")))
      == Folded(map["b" := -1, "a" := 1, to := 1], 1, map[])
  {
    Ones();
    hide Positive, AmountOf;
  }

  lemma {:induction false} OverdraftShown(id: string, w: string, trails: map<string, seq<Entry>>,
      lower: string -> string)
    requires w == "a" || w == "c"
    requires lower("a") != lower("b") && lower("b") != lower("c") && lower("a") != lower("c")
    requires id in trails && FoldOf(trails[id]) == Folded(map["b" := -1, "a" := 1, "c" := 1], 1, map[])
    ensures WorthOf(HeldIn([FaceAsset(id, 2, "EUR")], trails, w, lower), id) == 2
  {
    hide FoldOf, HoldingValue, WalletBalance, Total;
    WorthIsValue([FaceAsset(id, 2, "EUR")], 0, trails, w, lower);
    var balances: Table := map["b" := -1, "a" := 1, "c" := 1];
    assert WalletBalance(balances, w, lower) == 1 by { OneSpelling(balances, w, lower); }
    FaceShare(FaceAsset(id, 2, "EUR"), 2, 1, 1);
  }

  lemma {:induction false} OneSpelling(balances: Table, w: string, lower: string -> string)
    requires w in balances && forall x :: x in balances && lower(x) == lower(w) ==> x == w
    ensures WalletBalance(balances, w, lower) == balances[w]
  {
    var own := Spellings(balances, lower(w), lower);
    assert own == map[w := balances[w]] && own - {w} == map[];
    TotalWithout(own, w);
  }

  lemma {:induction false} TwoWallets(v: string, w: string, assets: seq<Asset>, trails: map<string, seq<Entry>>,
      id: string, lower: string -> string)
    ensures WorthAcross([v, w], assets, trails, id, lower)
      == WorthOf(HeldIn(assets, trails, v, lower), id) + WorthOf(HeldIn(assets, trails, w, lower), id)
  {
    hide WorthOf, HeldIn;
    assert [v, w][..1] == [v] && [v][..0] == [];
    assert WorthAcross([v], assets, trails, id, lower) == WorthOf(HeldIn(assets, trails, v, lower), id);
  }
}
