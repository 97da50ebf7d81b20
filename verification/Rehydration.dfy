/**
 * Boot: assets are grouped by the contract they share, and each simulated
 * contract is hydrated from the combined trail of its assets.
 */
module Rehydration {
  import opened Sums
  import opened Ledger
  import opened Trail
  import opened LedgerReplay
  import opened Holders
  import opened MarketReplay

  datatype AssetRecord = AssetRecord(id: string, chainId: string, contractRef: string, useCaseKey: string,
    tokenType: TokenType)

  datatype Group = Group(chainId: string, contractRef: string, useCaseKey: string, tokenType: TokenType,
    assetIds: seq<string>)

  /** One audit read returns at most this many entries, oldest first. */
  const AUDIT_PAGE: nat := 100000

  function Page(rows: seq<Tagged>): seq<Tagged> {
    if |rows| <= AUDIT_PAGE then rows else rows[..AUDIT_PAGE]
  }

  function Ids(ids: seq<string>): set<string> {
    set i | 0 <= i < |ids| :: ids[i]
  }

  /** The position of a contract's group, or the number of groups if it has none yet. */
  function Find(gs: seq<Group>, chainId: string, contractRef: string): (i: nat)
    ensures i <= |gs|
    ensures i < |gs| ==> gs[i].chainId == chainId && gs[i].contractRef == contractRef
    ensures forall j :: 0 <= j < i ==> gs[j].chainId != chainId || gs[j].contractRef != contractRef
  {
    if gs == [] then 0
    else if gs[0].chainId == chainId && gs[0].contractRef == contractRef then 0
    else 1 + Find(gs[1..], chainId, contractRef)
  }

  /** The assets of one contract, in listing order. */
  function Members(assets: seq<AssetRecord>, chainId: string, contractRef: string): seq<AssetRecord> {
    if assets == [] then [] else
      var a := assets[|assets| - 1];
      Members(assets[..|assets| - 1], chainId, contractRef)
        + if a.chainId == chainId && a.contractRef == contractRef then [a] else []
  }

  function MemberIds(members: seq<AssetRecord>): seq<string> {
    seq(|members|, i requires 0 <= i < |members| => members[i].id)
  }

  /** One group per simulated contract that has an asset, described by its first asset and holding all of their ids. */
  ghost predicate GroupedBy(gs: seq<Group>, assets: seq<AssetRecord>, simulated: set<string>) {
    && (forall i, j :: 0 <= i < j < |gs| ==> gs[i].chainId != gs[j].chainId || gs[i].contractRef != gs[j].contractRef)
    && (forall i :: 0 <= i < |gs| ==>
          var m := Members(assets, gs[i].chainId, gs[i].contractRef);
          && gs[i].chainId in simulated && m != []
          && gs[i].useCaseKey == m[0].useCaseKey && gs[i].tokenType == m[0].tokenType
          && gs[i].assetIds == MemberIds(m))
    && (forall i :: 0 <= i < |assets| && assets[i].chainId in simulated ==>
          Find(gs, assets[i].chainId, assets[i].contractRef) < |gs|)
  }

  lemma {:induction false} FindAt(gs: seq<Group>, i: nat)
    requires i < |gs|
    ensures Find(gs, gs[i].chainId, gs[i].contractRef) <= i
  {
  }

  method GroupByContract(assets: seq<AssetRecord>, simulated: set<string>) returns (gs: seq<Group>)
    ensures GroupedBy(gs, assets, simulated)
  {
    gs := [];
    for n := 0 to |assets|
      invariant GroupedBy(gs, assets[..n], simulated)
    {
      var a := assets[n];
      assert assets[..n + 1] == assets[..n] + [a];
      if a.chainId in simulated {
        var k := Find(gs, a.chainId, a.contractRef);
        if k < |gs| {
          JoinGroup(gs, assets[..n], simulated, a, k);
          gs := gs[k := gs[k].(assetIds := gs[k].assetIds + [a.id])];
        } else {
          NewGroup(gs, assets[..n], simulated, a);
          gs := gs + [Group(a.chainId, a.contractRef, a.useCaseKey, a.tokenType, [a.id])];
        }
      } else {
        NotSimulated(gs, assets[..n], simulated, a);
      }
    }
    assert assets[..|assets|] == assets;
  }

  lemma {:induction false} MembersGrow(seen: seq<AssetRecord>, a: AssetRecord, c: string, r: string)
    ensures Members(seen + [a], c, r) == Members(seen, c, r) + if a.chainId == c && a.contractRef == r then [a] else []
  {
  }

  lemma {:induction false} OthersKeepMembers(gs: seq<Group>, seen: seq<AssetRecord>, a: AssetRecord, k: int)
    requires forall i :: 0 <= i < |gs| && i != k ==> gs[i].chainId != a.chainId || gs[i].contractRef != a.contractRef
    ensures forall i :: 0 <= i < |gs| && i != k ==>
      Members(seen + [a], gs[i].chainId, gs[i].contractRef) == Members(seen, gs[i].chainId, gs[i].contractRef)
  {
  }

  lemma {:induction false} JoinGroup(gs: seq<Group>, seen: seq<AssetRecord>, simulated: set<string>, a: AssetRecord,
      k: nat)
    requires GroupedBy(gs, seen, simulated) && a.chainId in simulated
    requires k == Find(gs, a.chainId, a.contractRef) < |gs|
    ensures GroupedBy(gs[k := gs[k].(assetIds := gs[k].assetIds + [a.id])], seen + [a], simulated)
  {
    hide Members;
    var hs := gs[k := gs[k].(assetIds := gs[k].assetIds + [a.id])];
    OthersKeepMembers(gs, seen, a, k);
    MembersGrow(seen, a, a.chainId, a.contractRef);
    forall i | 0 <= i < |seen| + 1 && (seen + [a])[i].chainId in simulated
      ensures Find(hs, (seen + [a])[i].chainId, (seen + [a])[i].contractRef) < |hs|
    {
      var f := if i < |seen| then Find(gs, seen[i].chainId, seen[i].contractRef) else k;
      FindAt(hs, f);
    }
  }

  lemma {:induction false} NewGroup(gs: seq<Group>, seen: seq<AssetRecord>, simulated: set<string>, a: AssetRecord)
    requires GroupedBy(gs, seen, simulated) && a.chainId in simulated
    requires Find(gs, a.chainId, a.contractRef) == |gs|
    ensures GroupedBy(gs + [Group(a.chainId, a.contractRef, a.useCaseKey, a.tokenType, [a.id])], seen + [a], simulated)
  {
    hide Members;
    var hs := gs + [Group(a.chainId, a.contractRef, a.useCaseKey, a.tokenType, [a.id])];
    OthersKeepMembers(gs, seen, a, -1);
    NoMembers(gs, seen, simulated, a.chainId, a.contractRef);
    MembersGrow(seen, a, a.chainId, a.contractRef);
    forall i | 0 <= i < |seen| + 1 && (seen + [a])[i].chainId in simulated
      ensures Find(hs, (seen + [a])[i].chainId, (seen + [a])[i].contractRef) < |hs|
    {
      var f := if i < |seen| then Find(gs, seen[i].chainId, seen[i].contractRef) else |gs|;
      FindAt(hs, f);
    }
  }

  lemma {:induction false} NotSimulated(gs: seq<Group>, seen: seq<AssetRecord>, simulated: set<string>, a: AssetRecord)
    requires GroupedBy(gs, seen, simulated) && a.chainId !in simulated
    ensures GroupedBy(gs, seen + [a], simulated)
  {
  }

  lemma {:induction false} MembersBelong(assets: seq<AssetRecord>, chainId: string, contractRef: string)
    ensures Members(assets, chainId, contractRef) == [] <==>
      forall i :: 0 <= i < |assets| ==> assets[i].chainId != chainId || assets[i].contractRef != contractRef
  {
    if assets != [] {
      var init := assets[..|assets| - 1];
      MembersBelong(init, chainId, contractRef);
      forall i | 0 <= i < |init| ensures init[i] == assets[i] { }
    }
  }

  lemma {:induction false} NoMembers(gs: seq<Group>, assets: seq<AssetRecord>, simulated: set<string>,
      chainId: string, contractRef: string)
    requires GroupedBy(gs, assets, simulated) && chainId in simulated
    requires Find(gs, chainId, contractRef) == |gs|
    ensures Members(assets, chainId, contractRef) == []
  {
    MembersBelong(assets, chainId, contractRef);
  }

  /** The asset that a group's trail, read in one page, folds to. */
  function Restored(g: Group, allowlistEnabled: bool, audit: seq<Tagged>): AssetState {
    Hydrated(g.tokenType, allowlistEnabled, Replay(Entries(Page(RowsOf(audit, Ids(g.assetIds))))))
  }

  /** A group is skipped if its use case has vanished or its trail cannot be read. */
  predicate Recoverable(g: Group, useCases: map<string, bool>, readable: (string, string) -> bool) {
    g.useCaseKey in useCases && readable(g.chainId, g.contractRef)
  }

  /** One chain's ledger after the groups are hydrated in turn; a skipped group leaves its contract alone. */
  function Restore(ledger: map<string, AssetState>, chainId: string, gs: seq<Group>,
                   useCases: map<string, bool>, readable: (string, string) -> bool,
                   audit: seq<Tagged>): map<string, AssetState> {
    if gs == [] then ledger else
      var g, l := gs[|gs| - 1], Restore(ledger, chainId, gs[..|gs| - 1], useCases, readable, audit);
      if g.chainId == chainId && Recoverable(g, useCases, readable)
      then l[g.contractRef := Restored(g, useCases[g.useCaseKey], audit)] else l
  }

  /** How many entries were read for the groups that were hydrated. */
  function EntriesRead(gs: seq<Group>, useCases: map<string, bool>, readable: (string, string) -> bool,
      audit: seq<Tagged>): nat {
    if gs == [] then 0 else
      var g := gs[|gs| - 1];
      EntriesRead(gs[..|gs| - 1], useCases, readable, audit) + if Recoverable(g, useCases, readable)
        then |Page(RowsOf(audit, Ids(g.assetIds)))| else 0
  }

  lemma {:induction false} NoneRestored(useCases: map<string, bool>, readable: (string, string) -> bool,
      audit: seq<Tagged>)
    ensures EntriesRead([], useCases, readable, audit) == 0
    ensures forall ledger, c :: Restore(ledger, c, [], useCases, readable, audit) == ledger
  {
  }

  lemma {:induction false} OneMoreRestored(gs: seq<Group>, g: Group, useCases: map<string, bool>,
      readable: (string, string) -> bool, audit: seq<Tagged>)
    ensures EntriesRead(gs + [g], useCases, readable, audit)
      == EntriesRead(gs, useCases, readable, audit) + EntriesRead([g], useCases, readable, audit)
    ensures forall ledger, c ::
      Restore(ledger, c, gs + [g], useCases, readable, audit)
        == Restore(Restore(ledger, c, gs, useCases, readable, audit), c, [g], useCases, readable, audit)
  {
    assert (gs + [g])[..|gs|] == gs && [g][..0] == [];
    hide Page, RowsOf, Entries, Ids, Restored, Recoverable;
  }

  /** One group, read and hydrated unless it is skipped. */
  method RehydrateGroup(g: Group, audit: seq<Tagged>, useCases: map<string, bool>, readable: (string, string) -> bool,
      simulated: map<string, SimulatedLedger>)
      returns (entries: nat)
    requires forall c, d :: c in simulated && d in simulated && c != d ==> simulated[c] != simulated[d]
    requires g.chainId in simulated
    modifies simulated.Values
    ensures entries == EntriesRead([g], useCases, readable, audit)
    ensures forall c :: c in simulated ==>
      simulated[c].assets == Restore(old(simulated[c].assets), c, [g], useCases, readable, audit)
  {
    hide Page, RowsOf, Entries, Ids, Replay;
    assert [g][..0] == [];
    if g.useCaseKey !in useCases || !readable(g.chainId, g.contractRef) { return 0; }
    var rows := Page(RowsOf(audit, Ids(g.assetIds)));
    var state := FoldLedgerState(Entries(rows));
    simulated[g.chainId].Hydrate(g.contractRef,
      AssetState(g.tokenType, useCases[g.useCaseKey], state.balances, state.supply, state.owners, state.uris,
        state.frozen, state.allowed));
    entries := |rows|;
  }

  /**
   * `simulated` maps each chain that is configured and simulated to its ledger;
   * `useCases` maps each use case there is to its allowlist rule; `readable` tells of which
   * contracts the trail can be read.
   */
  method RehydrateSimulatedLedgers(assets: seq<AssetRecord>, audit: seq<Tagged>,
                                   useCases: map<string, bool>, readable: (string, string) -> bool,
                                   simulated: map<string, SimulatedLedger>)
      returns (contracts: nat, entries: nat, ghost gs: seq<Group>)
    requires forall c, d :: c in simulated && d in simulated && c != d ==> simulated[c] != simulated[d]
    modifies simulated.Values
    ensures GroupedBy(gs, assets, simulated.Keys) && contracts == |gs|
      && entries == EntriesRead(gs, useCases, readable, audit)
    ensures forall c :: c in simulated ==>
      simulated[c].assets == Restore(old(simulated[c].assets), c, gs, useCases, readable, audit)
  {
    var groups := GroupByContract(assets, simulated.Keys);
    gs := groups;
    entries := 0;
    NoneRestored(useCases, readable, audit);
    if groups == [] { return 0, 0, gs; }
    assert forall i :: 0 <= i < |groups| ==> groups[i].chainId in simulated;
    hide *;
    for i := 0 to |groups|
      invariant entries == EntriesRead(groups[..i], useCases, readable, audit)
      invariant forall c :: c in simulated ==>
        simulated[c].assets == Restore(old(simulated[c].assets), c, groups[..i], useCases, readable, audit)
    {
      assert groups[..i + 1] == groups[..i] + [groups[i]];
      OneMoreRestored(groups[..i], groups[i], useCases, readable, audit);
      var read := RehydrateGroup(groups[i], audit, useCases, readable, simulated);
      entries := entries + read;
    }
    assert groups[..|groups|] == groups;
    contracts := |groups|;
  }

  /** A page is the first hundred thousand rows, or all of them. */
  lemma {:induction false} PageIsFirst(rows: seq<Tagged>)
    ensures Page(rows) <= rows && |Page(rows)| == if |rows| <= 100000 then |rows| else 100000
  {
  }

  /** The asset is one of the contract's. */
  predicate OnContract(assets: seq<AssetRecord>, chainId: string, contractRef: string, id: string) {
    exists k :: 0 <= k < |assets| && assets[k].id == id && assets[k].chainId == chainId
      && assets[k].contractRef == contractRef
  }

  /** The trail read for a group has the rows of every asset on its contract, and no others. */
  lemma {:induction false} GroupReadsItsContract(gs: seq<Group>, assets: seq<AssetRecord>, simulated: set<string>,
      k: nat, audit: seq<Tagged>)
    requires GroupedBy(gs, assets, simulated) && k < |gs|
    ensures
      var rows := RowsOf(audit, Ids(gs[k].assetIds));
      && multiset(rows) <= multiset(audit)
      && forall t :: multiset(rows)[t] == if OnContract(assets, gs[k].chainId, gs[k].contractRef, t.assetId)
           then multiset(audit)[t] else 0
  {
    var ids, members := Ids(gs[k].assetIds), Members(assets, gs[k].chainId, gs[k].contractRef);
    forall id: string
      ensures id in ids <==> OnContract(assets, gs[k].chainId, gs[k].contractRef, id)
    {
      MembersAreOn(assets, gs[k].chainId, gs[k].contractRef, id);
      assert gs[k].assetIds == MemberIds(members);
      if OnContract(assets, gs[k].chainId, gs[k].contractRef, id) {
        var i :| 0 <= i < |members| && members[i].id == id;
        assert gs[k].assetIds[i] == id;
      }
    }
    hide GroupedBy, OnContract, Members;
    forall t: Tagged ensures multiset(RowsOf(audit, ids))[t] == if t.assetId in ids then multiset(audit)[t] else 0 {
      RowsCounted(audit, ids, t);
    }
  }

  lemma {:induction false} OneMoreOn(assets: seq<AssetRecord>, a: AssetRecord, chainId: string, contractRef: string,
      id: string)
    ensures OnContract(assets + [a], chainId, contractRef, id) <==>
      OnContract(assets, chainId, contractRef, id)
      || (a.id == id && a.chainId == chainId && a.contractRef == contractRef)
  {
    var all := assets + [a];
    if OnContract(assets, chainId, contractRef, id) {
      var k :| 0 <= k < |assets| && assets[k].id == id && assets[k].chainId == chainId
        && assets[k].contractRef == contractRef;
      assert all[k] == assets[k];
    }
    assert all[|assets|] == a;
  }

  predicate HasId(members: seq<AssetRecord>, id: string) {
    exists i :: 0 <= i < |members| && members[i].id == id
  }

  lemma {:induction false} HasIdMore(members: seq<AssetRecord>, a: AssetRecord, id: string)
    ensures HasId(members + [a], id) <==> HasId(members, id) || a.id == id
    ensures members + [] == members
  {
    var all := members + [a];
    assert all[|members|] == a;
    if HasId(members, id) {
      var i :| 0 <= i < |members| && members[i].id == id;
      assert all[i] == members[i];
    }
  }

  lemma {:induction false} MembersAreOn(assets: seq<AssetRecord>, chainId: string, contractRef: string, id: string)
    ensures OnContract(assets, chainId, contractRef, id) <==> HasId(Members(assets, chainId, contractRef), id)
  {
    if assets != [] {
      var init, a := assets[..|assets| - 1], assets[|assets| - 1];
      MembersAreOn(init, chainId, contractRef, id);
      assert assets == init + [a];
      OneMoreOn(init, a, chainId, contractRef, id);
      HasIdMore(Members(init, chainId, contractRef), a, id);
      hide OnContract, HasId;
    }
  }

  lemma {:induction false} RowsCounted(audit: seq<Tagged>, ids: set<string>, t: Tagged)
    ensures multiset(RowsOf(audit, ids))[t] == if t.assetId in ids then multiset(audit)[t] else 0
  {
    if audit != [] {
      RowsCounted(audit[..|audit| - 1], ids, t);
      assert audit == audit[..|audit| - 1] + [audit[|audit| - 1]];
    }
  }

  lemma {:induction false} RowsOfBoth(audit: seq<Tagged>, a: set<string>, b: set<string>)
    requires a !! b
    ensures |RowsOf(audit, a + b)| == |RowsOf(audit, a)| + |RowsOf(audit, b)|
  {
    if audit != [] { RowsOfBoth(audit[..|audit| - 1], a, b); }
  }

  /** The assets whose contract is recovered. */
  ghost function RecoveredIds(gs: seq<Group>, useCases: map<string, bool>,
      readable: (string, string) -> bool): set<string> {
    if gs == [] then {} else
      var g := gs[|gs| - 1];
      RecoveredIds(gs[..|gs| - 1], useCases, readable)
        + if g.useCaseKey in useCases && readable(g.chainId, g.contractRef) then Ids(g.assetIds) else {}
  }

  /**
   * Where no two groups have an asset in common and the trail of each fits one page of a hundred
   * thousand, the entries counted are the audit's entries of the assets recovered.
   */
  lemma {:induction false} EntriesAreCounted(gs: seq<Group>, useCases: map<string, bool>,
      readable: (string, string) -> bool, audit: seq<Tagged>)
    requires forall i, j :: 0 <= i < j < |gs| ==> Ids(gs[i].assetIds) !! Ids(gs[j].assetIds)
    requires forall i :: 0 <= i < |gs| ==> |RowsOf(audit, Ids(gs[i].assetIds))| <= 100000
    ensures EntriesRead(gs, useCases, readable, audit) == |RowsOf(audit, RecoveredIds(gs, useCases, readable))|
    ensures forall x :: x in RecoveredIds(gs, useCases, readable) ==>
      exists i :: 0 <= i < |gs| && x in Ids(gs[i].assetIds)
  {
    if gs == [] {
      NoRows(audit);
    } else {
      var init, g := gs[..|gs| - 1], gs[|gs| - 1];
      assert forall i :: 0 <= i < |init| ==> init[i] == gs[i];
      EntriesAreCounted(init, useCases, readable, audit);
      var before := RecoveredIds(init, useCases, readable);
      hide RowsOf;
      forall x | x in RecoveredIds(gs, useCases, readable)
        ensures exists i :: 0 <= i < |gs| && x in Ids(gs[i].assetIds) {
        if x in before {
          var i :| 0 <= i < |init| && x in Ids(init[i].assetIds);
          assert x in Ids(gs[i].assetIds);
        } else {
          assert x in Ids(gs[|gs| - 1].assetIds);
        }
      }
      hide Ids;
      assert before + {} == before;
      if Recoverable(g, useCases, readable) { RowsOfBoth(audit, before, Ids(g.assetIds)); }
    }
  }

  lemma {:induction false} NoRows(audit: seq<Tagged>)
    ensures RowsOf(audit, {}) == []
  {
    if audit != [] { NoRows(audit[..|audit| - 1]); }
  }

  /** Groups of other contracts do not touch this one. */
  lemma {:induction false} RestoreOthers(ledger: map<string, AssetState>, chainId: string, gs: seq<Group>,
                                         useCases: map<string, bool>, readable: (string, string) -> bool,
                                         audit: seq<Tagged>, ref: string)
    requires forall i :: 0 <= i < |gs| ==> gs[i].chainId != chainId || gs[i].contractRef != ref
    ensures ref in Restore(ledger, chainId, gs, useCases, readable, audit) <==> ref in ledger
    ensures ref in ledger ==> Restore(ledger, chainId, gs, useCases, readable, audit)[ref] == ledger[ref]
  {
    if gs != [] { RestoreOthers(ledger, chainId, gs[..|gs| - 1], useCases, readable, audit, ref); }
  }

  lemma {:induction false} RestoreOne(ledger: map<string, AssetState>, gs: seq<Group>, k: nat,
                                      useCases: map<string, bool>, readable: (string, string) -> bool,
                                      audit: seq<Tagged>)
    requires k < |gs| && Recoverable(gs[k], useCases, readable)
    requires forall i, j :: 0 <= i < j < |gs| ==>
      gs[i].chainId != gs[j].chainId || gs[i].contractRef != gs[j].contractRef
    ensures
      var l := Restore(ledger, gs[k].chainId, gs, useCases, readable, audit);
      gs[k].contractRef in l && l[gs[k].contractRef] == Restored(gs[k], useCases[gs[k].useCaseKey], audit)
  {
    if k < |gs| - 1 {
      var init := gs[..|gs| - 1];
      assert init[k] == gs[k];
      RestoreOne(ledger, init, k, useCases, readable, audit);
    }
  }

  /**
   * The reboot as a whole: for a contract whose assets' combined trail is what a
   * live run of ordinary calls recorded, and fits one page, the ledger restored at
   * boot answers every reader as the live one did; and a contract whose use case
   * has vanished, whose trail cannot be read, or that has no assets, is left as it was.
   */
  lemma {:induction false} RebootRestores(ledger: map<string, AssetState>, assets: seq<AssetRecord>,
      simulated: set<string>, gs: seq<Group>,
                       useCases: map<string, bool>, readable: (string, string) -> bool, audit: seq<Tagged>,
                       chainId: string, ref: string, calls: seq<Call>)
    requires GroupedBy(gs, assets, simulated) && chainId in simulated
    ensures
      var members, after := Members(assets, chainId, ref), Restore(ledger, chainId, gs, useCases, readable, audit);
      if members == [] || members[0].useCaseKey !in useCases || !readable(chainId, ref) then
        (ref in after <==> ref in ledger) && (ref in ledger ==> after[ref] == ledger[ref])
      else
        var kind, rows := members[0].tokenType, RowsOf(audit, Ids(MemberIds(members)));
        var shell := Fresh(kind, useCases[members[0].useCaseKey]);
        ref in after &&
        (OfOneKind(kind, Accepted(shell, calls)) && Ordinary(Accepted(shell, calls)) && |rows| <= AUDIT_PAGE
          && Entries(rows) == TrailOf(shell, calls) ==>
           Agree(After(shell, calls), after[ref]) && ReadTheSame(After(shell, calls), after[ref]))
  {
    var members := Members(assets, chainId, ref);
    var k := Find(gs, chainId, ref);
    MembersBelong(assets, chainId, ref);
    if k == |gs| {
      NoMembers(gs, assets, simulated, chainId, ref);
      RestoreOthers(ledger, chainId, gs, useCases, readable, audit, ref);
    } else if members[0].useCaseKey !in useCases || !readable(chainId, ref) {
      SkippedGroup(ledger, gs, k, useCases, readable, audit);
    } else {
      RestoreOne(ledger, gs, k, useCases, readable, audit);
      var kind, rows := members[0].tokenType, RowsOf(audit, Ids(MemberIds(members)));
      var shell := Fresh(kind, useCases[members[0].useCaseKey]);
      if OfOneKind(kind, Accepted(shell, calls)) && Ordinary(Accepted(shell, calls)) && |rows| <= AUDIT_PAGE
        && Entries(rows) == TrailOf(shell, calls) {
        ReplayKeepsStep(shell, calls);
        AgreeReads(After(shell, calls), Restored(gs[k], useCases[gs[k].useCaseKey], audit));
      }
    }
  }

  /**
   * And for a contract with a market: the ledger restored at boot agrees with the live one
   * exactly when no account but the escrow account has anything listed.
   */
  lemma {:induction false} RebootRestoresMarketIff(ledger: map<string, AssetState>, assets: seq<AssetRecord>,
      simulated: set<string>, gs: seq<Group>, useCases: map<string, bool>, readable: (string, string) -> bool,
      audit: seq<Tagged>, chainId: string, ref: string, escrow: string, calls: seq<Call>)
    requires GroupedBy(gs, assets, simulated) && chainId in simulated
    requires Members(assets, chainId, ref) != [] && readable(chainId, ref)
    requires Members(assets, chainId, ref)[0].useCaseKey in useCases
    requires Members(assets, chainId, ref)[0].tokenType == Fungible
    requires
      var members := Members(assets, chainId, ref);
      var shell, rows := Fresh(Fungible, useCases[members[0].useCaseKey]), RowsOf(audit, Ids(MemberIds(members)));
      MarketRun(escrow, shell, calls) && |rows| <= AUDIT_PAGE && Entries(rows) == TrailOf(shell, calls)
    ensures
      var after := Restore(ledger, chainId, gs, useCases, readable, audit);
      var shell := Fresh(Fungible, useCases[Members(assets, chainId, ref)[0].useCaseKey]);
      && ref in after
      && (Agree(After(shell, calls), after[ref])
          <==> forall x :: x != escrow ==> Get(OpenOf(TrailOf(shell, calls)), x) == 0)
  {
    var members := Members(assets, chainId, ref);
    var k := Find(gs, chainId, ref);
    MembersBelong(assets, chainId, ref);
    if k == |gs| { NoMembers(gs, assets, simulated, chainId, ref); }
    RestoreOne(ledger, gs, k, useCases, readable, audit);
    var allowlist := useCases[members[0].useCaseKey];
    RestartInvisibleIffNothingListed(escrow, allowlist, calls);
    hide OpenOf, Replay, RowsOf, Entries, Agree, MarketRun, TrailOf, Restore;
    assert Restored(gs[k], allowlist, audit)
      == Hydrated(Fungible, allowlist, Replay(TrailOf(Fresh(Fungible, allowlist), calls)));
  }

  lemma {:induction false} SkippedGroup(ledger: map<string, AssetState>, gs: seq<Group>, k: nat,
                                        useCases: map<string, bool>, readable: (string, string) -> bool,
                                        audit: seq<Tagged>)
    requires k < |gs| && !Recoverable(gs[k], useCases, readable)
    requires forall i, j :: 0 <= i < j < |gs| ==>
      gs[i].chainId != gs[j].chainId || gs[i].contractRef != gs[j].contractRef
    ensures
      var l, ref := Restore(ledger, gs[k].chainId, gs, useCases, readable, audit), gs[k].contractRef;
      (ref in l <==> ref in ledger) && (ref in ledger ==> l[ref] == ledger[ref])
  {
    if k < |gs| - 1 {
      var init := gs[..|gs| - 1];
      assert init[k] == gs[k];
      SkippedGroup(ledger, init, k, useCases, readable, audit);
    } else {
      RestoreOthers(ledger, gs[k].chainId, gs[..k], useCases, readable, audit, gs[k].contractRef);
    }
  }
}
