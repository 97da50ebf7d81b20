/**
 * The two balance folds of the audit trail: economic ownership (a seller still
 * owns what is listed and unsold) and literal balances (what each address holds).
 */
module Holders {
  import opened Wrappers
  import opened Sums
  import opened Amounts
  import opened Trail
  import opened LedgerReplay

  datatype Folded = Folded(balances: Table, supply: int, owners: map<string, string>)

  const NOTHING_FOLDED: Folded := Folded(map[], 0, map[])

  function FoldStep(s: Folded, e: Entry): Folded {
    var amt := AmountOf(e.p.amount);
    match e.action
    case Mint =>
      if TokenOf(e).Some? then
        var t := TokenOf(e).value;
        if t in s.owners then s else
          Folded(Bump(s.balances, e.p.to, 1), s.supply + 1, s.owners[t := Text(e.p.to)])
      else s.(supply := s.supply + amt, balances := Bump(s.balances, e.p.to, amt))
    case Transfer =>
      if TokenOf(e).Some? then
        var t := TokenOf(e).value;
        var cur := if t in s.owners then Some(s.owners[t]) else e.p.from;
        Folded(Bump(Bump(s.balances, cur, -1), e.p.to, 1), s.supply, s.owners[t := Text(e.p.to)])
      else s.(balances := Bump(Bump(s.balances, e.p.from, -amt), e.p.to, amt))
    case Buy =>
      var debit := if e.p.secondary && e.p.seller.Some? then e.p.seller else e.p.from;
      s.(balances := Bump(Bump(s.balances, debit, -amt), e.p.to, amt))
    case Burn =>
      if TokenOf(e).Some? then
        var t := TokenOf(e).value;
        if t !in s.owners then s else
          Folded(Bump(s.balances, Some(s.owners[t]), -1), s.supply - 1, s.owners - {t})
      else s.(supply := s.supply - amt, balances := Bump(s.balances, e.p.from, -amt))
    case _ => s
  }

  function FoldOf(entries: seq<Entry>): Folded {
    if entries == [] then NOTHING_FOLDED
    else FoldStep(FoldOf(entries[..|entries| - 1]), entries[|entries| - 1])
  }

  /** The incremental fold: entries go in oldest first and the state may be read at any time. */
  class Fold {
    var balances: Table
    var supply: int
    var owners: map<string, string>

    function State(): Folded reads this { Folded(balances, supply, owners) }

    constructor ()
      ensures State() == NOTHING_FOLDED
    {
      balances, supply, owners := map[], 0, map[];
    }

    method Step(e: Entry)
      modifies this
      ensures State() == FoldStep(old(State()), e)
    {
      var p, tokenId := e.p, TokenOf(e);
      match e.action {
        case Mint =>
          if tokenId.Some? {
            if tokenId.value !in owners {
              owners := owners[tokenId.value := Text(p.to)];
              supply := supply + 1;
              balances := Bump(balances, p.to, 1);
            }
          } else {
            var amt := AmountOf(p.amount);
            supply := supply + amt;
            balances := Bump(balances, p.to, amt);
          }
        case Transfer =>
          if tokenId.Some? {
            var cur := if tokenId.value in owners then Some(owners[tokenId.value]) else p.from;
            balances := Bump(balances, cur, -1);
            owners := owners[tokenId.value := Text(p.to)];
            balances := Bump(balances, p.to, 1);
          } else {
            var amt := AmountOf(p.amount);
            balances := Bump(balances, p.from, -amt);
            balances := Bump(balances, p.to, amt);
          }
        case Buy =>
          var amt := AmountOf(p.amount);
          var debit := if p.secondary && p.seller.Some? then p.seller else p.from;
          balances := Bump(balances, debit, -amt);
          balances := Bump(balances, p.to, amt);
        case Burn =>
          if tokenId.Some? {
            if tokenId.value in owners {
              supply := supply - 1;
              balances := Bump(balances, Some(owners[tokenId.value]), -1);
              owners := owners - {tokenId.value};
            }
          } else {
            var amt := AmountOf(p.amount);
            supply := supply - amt;
            balances := Bump(balances, p.from, -amt);
          }
        case _ =>
      }
    }
  }

  method FoldAsset(entries: seq<Entry>) returns (balances: Table, supply: int)
    ensures balances == FoldOf(entries).balances && supply == FoldOf(entries).supply
  {
    var f := new Fold();
    for i := 0 to |entries|
      invariant f.State() == FoldOf(entries[..i])
    {
      f.Step(entries[i]);
      assert entries[..i + 1][..i] == entries[..i];
    }
    assert entries[..|entries|] == entries;
    return f.balances, f.supply;
  }

  // --- literal balances ---------------------------------------------------------

  datatype Raw = Raw(balances: Table, owners: map<string, string>)

  function RawStep(s: Raw, e: Entry): Raw {
    var amt := AmountOf(e.p.amount);
    match e.action
    case Mint =>
      if TokenOf(e).Some? then
        var t := TokenOf(e).value;
        if t in s.owners then s else Raw(Bump(s.balances, e.p.to, 1), s.owners[t := Text(e.p.to)])
      else s.(balances := Bump(s.balances, e.p.to, amt))
    case Burn =>
      if TokenOf(e).Some? then
        var t := TokenOf(e).value;
        if t !in s.owners then s else Raw(Bump(s.balances, Some(s.owners[t]), -1), s.owners - {t})
      else s.(balances := Bump(s.balances, e.p.from, -amt))
    case List => s.(balances := Bump(Bump(s.balances, e.p.seller, -amt), e.p.escrow, amt))
    case CancelListing => s.(balances := Bump(Bump(s.balances, e.p.escrow, -amt), e.p.seller, amt))
    case _ =>
      if e.action != Action.Transfer && e.action != Buy then s
      else if TokenOf(e).Some? then
        var t := TokenOf(e).value;
        var cur := if t in s.owners then Some(s.owners[t]) else e.p.from;
        Raw(Bump(Bump(s.balances, cur, -1), e.p.to, 1), s.owners[t := Text(e.p.to)])
      else s.(balances := Bump(Bump(s.balances, e.p.from, -amt), e.p.to, amt))
  }

  function RawOf(entries: seq<Entry>): Raw {
    if entries == [] then Raw(map[], map[])
    else RawStep(RawOf(entries[..|entries| - 1]), entries[|entries| - 1])
  }

  method FoldAssetRawBalances(entries: seq<Entry>) returns (balances: Table)
    ensures balances == RawOf(entries).balances
  {
    hide Bump, AmountOf, Text;
    balances := map[];
    var owners: map<string, string> := map[];
    for i := 0 to |entries|
      invariant Raw(balances, owners) == RawOf(entries[..i])
    {
      assert entries[..i + 1][..i] == entries[..i];
      var e := entries[i];
      var p, tokenId := e.p, TokenOf(e);
      match e.action {
        case Mint =>
          if tokenId.Some? {
            if tokenId.value !in owners {
              owners := owners[tokenId.value := Text(p.to)];
              balances := Bump(balances, p.to, 1);
            }
          } else {
            balances := Bump(balances, p.to, AmountOf(p.amount));
          }
        case List =>
          var amt := AmountOf(p.amount);
          balances := Bump(balances, p.seller, -amt);
          balances := Bump(balances, p.escrow, amt);
        case CancelListing =>
          var amt := AmountOf(p.amount);
          balances := Bump(balances, p.escrow, -amt);
          balances := Bump(balances, p.seller, amt);
        case Burn =>
          if tokenId.Some? {
            if tokenId.value in owners {
              balances := Bump(balances, Some(owners[tokenId.value]), -1);
              owners := owners - {tokenId.value};
            }
          } else {
            balances := Bump(balances, p.from, -AmountOf(p.amount));
          }
        case _ =>
          if e.action == Action.Transfer || e.action == Buy {
            if tokenId.Some? {
              var cur := if tokenId.value in owners then Some(owners[tokenId.value]) else p.from;
              balances := Bump(balances, cur, -1);
              owners := owners[tokenId.value := Text(p.to)];
              balances := Bump(balances, p.to, 1);
            } else {
              var amt := AmountOf(p.amount);
              balances := Bump(balances, p.from, -amt);
              balances := Bump(balances, p.to, amt);
            }
          }
      }
    }
    assert entries[..|entries|] == entries;
  }

  // --- the boot replay is the economic fold ---------------------------------------

  lemma {:induction false} StepsAgree(r: Replayed, e: Entry)
    ensures
      var next := ReplayStep(r, e);
      FoldStep(Folded(r.balances, r.supply, r.owners), e) == Folded(next.balances, next.supply, next.owners)
  {
    hide *;
    if TokenOf(e).Some? { TokenStepsAgree(r, e); } else { UnitStepsAgree(r, e); }
  }

  lemma {:induction false} TokenStepsAgree(r: Replayed, e: Entry)
    requires TokenOf(e).Some?
    ensures
      var next := ReplayStep(r, e);
      FoldStep(Folded(r.balances, r.supply, r.owners), e) == Folded(next.balances, next.supply, next.owners)
  {
    hide Bump, AmountOf, Text, TokenOf;
  }

  lemma {:induction false} UnitStepsAgree(r: Replayed, e: Entry)
    requires TokenOf(e).None?
    ensures
      var next := ReplayStep(r, e);
      FoldStep(Folded(r.balances, r.supply, r.owners), e) == Folded(next.balances, next.supply, next.owners)
  {
    hide Bump, AmountOf, Text, TokenOf;
  }

  /** On every trail, of either kind, boot replay and the holder fold compute the same balances, supply and owners. */
  lemma {:induction false} ReplayIsFold(entries: seq<Entry>)
    ensures
      var r := Replay(entries);
      FoldOf(entries) == Folded(r.balances, r.supply, r.owners)
  {
    if entries != [] {
      ReplayIsFold(entries[..|entries| - 1]);
      StepsAgree(Replay(entries[..|entries| - 1]), entries[|entries| - 1]);
      hide ReplayStep, FoldStep;
    }
  }

  // --- shared contracts add up ------------------------------------------------------

  predicate FungibleEntry(e: Entry) {
    TokenOf(e).None?
  }

  function Credit(addr: Option<string>, x: string, amt: int): int {
    if x != "" && addr == Some(x) then amt else 0
  }

  /** What one fungible entry does to one address, whatever came before it. */
  function Delta(e: Entry, x: string): int {
    var amt := AmountOf(e.p.amount);
    match e.action
    case Mint => Credit(e.p.to, x, amt)
    case Transfer => Credit(e.p.to, x, amt) - Credit(e.p.from, x, amt)
    case Buy => Credit(e.p.to, x, amt)
      - Credit(if e.p.secondary && e.p.seller.Some? then e.p.seller else e.p.from, x, amt)
    case Burn => -Credit(e.p.from, x, amt)
    case _ => 0
  }

  function SupplyDelta(e: Entry): int {
    match e.action
    case Mint => AmountOf(e.p.amount)
    case Burn => -AmountOf(e.p.amount)
    case _ => 0
  }

  lemma {:induction false} FungibleStep(s: Folded, e: Entry, x: string)
    requires FungibleEntry(e)
    ensures Get(FoldStep(s, e).balances, x) == Get(s.balances, x) + Delta(e, x)
    ensures FoldStep(s, e).supply == s.supply + SupplyDelta(e)
  {
    hide Get, Bump, AmountOf;
    var amt := AmountOf(e.p.amount);
    match e.action
    case Mint => GetBump(s.balances, e.p.to, amt, x);
    case Transfer => GetMove(s.balances, e.p.from, e.p.to, amt, x);
    case Buy => GetMove(s.balances, if e.p.secondary && e.p.seller.Some? then e.p.seller else e.p.from, e.p.to, amt, x);
    case Burn => GetBump(s.balances, e.p.from, -amt, x);
    case _ =>
  }

  lemma {:induction false} GetBump(m: Table, addr: Option<string>, d: int, x: string)
    ensures Get(Bump(m, addr, d), x) == Get(m, x) + Credit(addr, x, d)
  {
  }

  lemma {:induction false} GetMove(m: Table, from: Option<string>, to: Option<string>, d: int, x: string)
    ensures Get(Bump(Bump(m, from, -d), to, d), x) == Get(m, x) + Credit(to, x, d) - Credit(from, x, d)
  {
  }

  function AssetFold(rows: seq<Tagged>, id: string): Folded {
    FoldOf(Entries(RowsOf(rows, {id})))
  }

  ghost function AssetBalances(rows: seq<Tagged>, ids: set<string>, x: string): map<string, int> {
    map id | id in ids :: Get(AssetFold(rows, id).balances, x)
  }

  ghost function AssetSupplies(rows: seq<Tagged>, ids: set<string>): map<string, int> {
    map id | id in ids :: AssetFold(rows, id).supply
  }

  lemma {:induction false} AppendRow(rows: seq<Tagged>, t: Tagged)
    ensures FoldOf(Entries(rows + [t])) == FoldStep(FoldOf(Entries(rows)), t.entry)
  {
  }

  /** A new row changes the fold of its own asset, by its delta, and no other asset's. */
  lemma {:induction false} OneAssetMoves(rows: seq<Tagged>, t: Tagged, id: string, x: string)
    requires FungibleEntry(t.entry)
    ensures Get(AssetFold(rows + [t], id).balances, x)
      == Get(AssetFold(rows, id).balances, x) + (if id == t.assetId then Delta(t.entry, x) else 0)
    ensures AssetFold(rows + [t], id).supply
      == AssetFold(rows, id).supply + (if id == t.assetId then SupplyDelta(t.entry) else 0)
  {
    assert (rows + [t])[..|rows|] == rows;
    var own := RowsOf(rows, {id});
    if id == t.assetId {
      assert RowsOf(rows + [t], {id}) == own + [t];
      AppendRow(own, t);
      FungibleStep(FoldOf(Entries(own)), t.entry, x);
    } else {
      assert RowsOf(rows + [t], {id}) == own + [] == own;
    }
  }

  lemma {:induction false} NothingFoldsToNothing(ids: set<string>, x: string)
    ensures Get(FoldOf(Entries([])).balances, x) == 0 == Total(AssetBalances([], ids, x))
    ensures FoldOf(Entries([])).supply == 0 == Total(AssetSupplies([], ids))
  {
    TotalZero(AssetBalances([], ids, x));
    TotalZero(AssetSupplies([], ids));
  }

  /**
   * However the fungible streams of a contract's assets were interleaved, folding
   * the combined stream gives, at every address, the sum of the per-asset folds,
   * and likewise for supply.
   */
  lemma {:induction false} SharedContractAddsUp(rows: seq<Tagged>, ids: set<string>, x: string)
    requires forall i :: 0 <= i < |rows| ==> rows[i].assetId in ids && FungibleEntry(rows[i].entry)
    ensures Get(FoldOf(Entries(rows)).balances, x) == Total(AssetBalances(rows, ids, x))
    ensures FoldOf(Entries(rows)).supply == Total(AssetSupplies(rows, ids))
  {
    hide *;
    if rows == [] {
      NothingFoldsToNothing(ids, x);
    } else {
      var init, t := rows[..|rows| - 1], rows[|rows| - 1];
      assert rows == init + [t];
      SharedContractAddsUp(init, ids, x);
      AppendRow(init, t);
      FungibleStep(FoldOf(Entries(init)), t.entry, x);
      SumsMove(init, t, ids, x);
    }
  }

  lemma {:induction false} SumsMove(rows: seq<Tagged>, t: Tagged, ids: set<string>, x: string)
    requires t.assetId in ids && FungibleEntry(t.entry)
    ensures Total(AssetBalances(rows + [t], ids, x)) == Total(AssetBalances(rows, ids, x)) + Delta(t.entry, x)
    ensures Total(AssetSupplies(rows + [t], ids)) == Total(AssetSupplies(rows, ids)) + SupplyDelta(t.entry)
  {
    hide Total, AssetFold;
    var b, s := AssetBalances(rows, ids, x), AssetSupplies(rows, ids);
    TotalSet(b, t.assetId, b[t.assetId] + Delta(t.entry, x));
    TotalSet(s, t.assetId, s[t.assetId] + SupplyDelta(t.entry));
    forall id | id in ids
      ensures AssetBalances(rows + [t], ids, x)[id] == b[t.assetId := b[t.assetId] + Delta(t.entry, x)][id]
      ensures AssetSupplies(rows + [t], ids)[id] == s[t.assetId := s[t.assetId] + SupplyDelta(t.entry)][id]
    {
      OneAssetMoves(rows, t, id, x);
    }
    assert AssetBalances(rows + [t], ids, x) == b[t.assetId := b[t.assetId] + Delta(t.entry, x)];
    assert AssetSupplies(rows + [t], ids) == s[t.assetId := s[t.assetId] + SupplyDelta(t.entry)];
  }

  // --- economic against literal --------------------------------------------------------

  /** What each seller has listed and neither sold nor cancelled. */
  function OpenStep(open: Table, e: Entry): Table {
    var amt := AmountOf(e.p.amount);
    match e.action
    case List => Bump(open, e.p.seller, amt)
    case CancelListing => Bump(open, e.p.seller, -amt)
    case Buy => if e.p.secondary && e.p.seller.Some? then Bump(open, e.p.seller, -amt) else open
    case _ => open
  }

  function OpenOf(entries: seq<Entry>): Table {
    if entries == [] then map[] else OpenStep(OpenOf(entries[..|entries| - 1]), entries[|entries| - 1])
  }

  /** The market runs through one escrow account, and only fungible assets are bought. */
  predicate MarketEntry(escrow: string, e: Entry) {
    var named := e.p.seller.Some? && e.p.seller.value != "";
    match e.action
    case List => named && e.p.escrow == Some(escrow)
    case CancelListing => named && e.p.escrow == Some(escrow)
    case Buy => TokenOf(e).None? && (e.p.secondary && e.p.seller.Some? ==> named && e.p.from == Some(escrow))
    case _ => true
  }

  predicate MarketTrail(escrow: string, entries: seq<Entry>) {
    escrow != "" && forall i :: 0 <= i < |entries| ==> MarketEntry(escrow, entries[i])
  }

  /** At `x`: literal balance, plus what `x` has listed, less (at the escrow account) all that is listed. */
  ghost predicate DifferByOpen(econ: Table, raw: Table, open: Table, escrow: string, x: string) {
    Get(econ, x) == Get(raw, x) + Get(open, x) - (if x == escrow then Total(open) else 0)
  }

  predicate Named(addr: Option<string>) {
    addr.Some? && addr.value != ""
  }

  lemma {:induction false} TotalBump(m: Table, addr: Option<string>, d: int)
    ensures Total(Bump(m, addr, d)) == Total(m) + (if Named(addr) then d else 0)
  {
    if Named(addr) { TotalAdd(m, addr.value, d); }
  }

  lemma {:induction false} TotalMove(m: Table, from: Option<string>, to: Option<string>, d: int)
    ensures Total(Bump(Bump(m, from, -d), to, d))
      == Total(m) + (if Named(to) then d else 0) - (if Named(from) then d else 0)
  {
    TotalBump(m, from, -d);
    TotalBump(Bump(m, from, -d), to, d);
  }

  lemma {:induction false} MarketStep(s: Folded, r: Raw, open: Table, escrow: string, e: Entry, x: string)
    requires s.owners == r.owners && Total(s.balances) == Total(r.balances)
    requires DifferByOpen(s.balances, r.balances, open, escrow, x)
    requires escrow != "" && MarketEntry(escrow, e)
    ensures FoldStep(s, e).owners == RawStep(r, e).owners
    ensures Total(FoldStep(s, e).balances) == Total(RawStep(r, e).balances)
    ensures DifferByOpen(FoldStep(s, e).balances, RawStep(r, e).balances, OpenStep(open, e), escrow, x)
  {
    hide Total, Bump, Get, Add, AmountOf;
    var amt := AmountOf(e.p.amount);
    if e.action.List? {
      GetMove(r.balances, e.p.seller, e.p.escrow, amt, x);
      TotalMove(r.balances, e.p.seller, e.p.escrow, amt);
      GetBump(open, e.p.seller, amt, x);
      TotalBump(open, e.p.seller, amt);
    } else if e.action.CancelListing? {
      GetMove(r.balances, e.p.escrow, e.p.seller, amt, x);
      TotalMove(r.balances, e.p.escrow, e.p.seller, amt);
      GetBump(open, e.p.seller, -amt, x);
      TotalBump(open, e.p.seller, -amt);
    } else if e.action.Buy? && e.p.secondary && e.p.seller.Some? {
      GetMove(s.balances, e.p.seller, e.p.to, amt, x);
      TotalMove(s.balances, e.p.seller, e.p.to, amt);
      GetMove(r.balances, e.p.from, e.p.to, amt, x);
      TotalMove(r.balances, e.p.from, e.p.to, amt);
      GetBump(open, e.p.seller, -amt, x);
      TotalBump(open, e.p.seller, -amt);
    } else {
      PlainStep(s, r, e, x);
    }
  }

  /** Entries that touch no escrow change both folds alike. */
  lemma {:induction false} PlainStep(s: Folded, r: Raw, e: Entry, x: string)
    requires s.owners == r.owners && Total(s.balances) == Total(r.balances)
    requires !e.action.List? && !e.action.CancelListing?
    requires e.action.Buy? ==> TokenOf(e).None? && !(e.p.secondary && e.p.seller.Some?)
    ensures FoldStep(s, e).owners == RawStep(r, e).owners
    ensures Total(FoldStep(s, e).balances) == Total(RawStep(r, e).balances)
    ensures Get(FoldStep(s, e).balances, x) - Get(s.balances, x) == Get(RawStep(r, e).balances, x) - Get(r.balances, x)
  {
    hide Total;
    var amt := AmountOf(e.p.amount);
    if e.action.Mint? {
      BothBump(s.balances, r.balances, e.p.to, if TokenOf(e).Some? then 1 else amt, x);
    } else if e.action.Burn? {
      var who := if TokenOf(e).None? then e.p.from else OwnerAt(s.owners, TokenOf(e).value);
      BothBump(s.balances, r.balances, who, if TokenOf(e).Some? then -1 else -amt, x);
    } else if e.action.Buy? || e.action.Transfer? {
      var owned := TokenOf(e).Some? && TokenOf(e).value in s.owners;
      var from := if owned then OwnerAt(s.owners, TokenOf(e).value) else e.p.from;
      var d := if TokenOf(e).Some? then 1 else amt;
      BothBump(s.balances, r.balances, from, -d, x);
      BothBump(Bump(s.balances, from, -d), Bump(r.balances, from, -d), e.p.to, d, x);
    }
  }

  lemma {:induction false} BothBump(a: Table, b: Table, who: Option<string>, d: int, x: string)
    requires Total(a) == Total(b)
    ensures Total(Bump(a, who, d)) == Total(Bump(b, who, d))
    ensures Get(Bump(a, who, d), x) - Get(a, x) == Get(Bump(b, who, d), x) - Get(b, x)
  {
    TotalBump(a, who, d);
    TotalBump(b, who, d);
  }

  function OwnerAt(owners: map<string, string>, t: string): Option<string> {
    if t in owners then Some(owners[t]) else None
  }

  /**
   * Economic and literal balances differ by open escrow and nothing else: each
   * seller's by what it has listed and not sold or cancelled, the escrow
   * account's by the negated total; and the two folds have equal sums.
   */
  lemma {:induction false} FoldsDifferByOpenEscrow(escrow: string, entries: seq<Entry>, x: string)
    requires MarketTrail(escrow, entries)
    ensures FoldOf(entries).owners == RawOf(entries).owners
    ensures Total(FoldOf(entries).balances) == Total(RawOf(entries).balances)
    ensures DifferByOpen(FoldOf(entries).balances, RawOf(entries).balances, OpenOf(entries), escrow, x)
  {
    if entries == [] {
      assert Total(OpenOf(entries)) == 0;
    } else {
      var init := entries[..|entries| - 1];
      FoldsDifferByOpenEscrow(escrow, init, x);
      MarketStep(FoldOf(init), RawOf(init), OpenOf(init), escrow, entries[|entries| - 1], x);
    }
  }
}
