/**
 * Credential writes with a failure possible at every call: issuing, revoking,
 * onboarding with rollback, and revoking a user's identity.
 */
module Credentials {
  import opened Wrappers
  import opened Faults

  datatype Credential = Credential(holder: string, revoked: bool, anchored: bool)

  datatype Kyc = KycPending | KycApproved | KycRejected

  datatype User = User(email: string, did: Option<string>, kyc: Kyc, credentialId: Option<string>)

  datatype Stores = Stores(
    anchoredOnChain: set<string>,
    revokedOnChain: set<string>,
    credentials: map<string, Credential>,
    users: map<string, User>,
    audit: seq<string>)

  /** Where a registry is present, no row is ahead of the chain: neither in being there, nor in being revoked. */
  ghost predicate BehindChain(s: Stores) {
    && (forall c :: c in s.credentials ==> c in s.anchoredOnChain)
    && (forall c :: c in s.credentials && s.credentials[c].revoked ==> c in s.revokedOnChain)
  }

  predicate EmailTaken(s: Stores, email: string) {
    exists u :: u in s.users && s.users[u].email == email
  }

  ghost predicate UniqueEmails(s: Stores) {
    forall u, v :: u in s.users && v in s.users && s.users[u].email == s.users[v].email ==> u == v
  }

  datatype Issue = Issue(signs: bool, anchor: Fault, create: Fault)

  datatype Revoke = Revoke(get: bool, chain: Fault, row: Fault)

  /** What onboarding meets on its way, and on its way back. */
  datatype World = World(
    account: bool,
    createUser: Fault,
    updateDid: Fault,
    issuer: bool,
    issue: Issue,
    updateKyc: Fault,
    audit: Fault,
    undo: Revoke,
    removeUser: Fault)

  datatype Row = Row(email: string, did: Option<string>, kyc: bool, userId: string, credentialId: string)

  class Desk {
    const registry: bool
    const plain: bool
    var stores: Stores
    ghost var passed: seq<Stores>   // every state that a crash could have left behind

    ghost predicate Valid()
      reads this
    {
      && passed != [] && passed[|passed| - 1] == stores
      && (registry ==> forall i :: 0 <= i < |passed| ==> BehindChain(passed[i]))
    }

    constructor (registry: bool, plain: bool)
      ensures Valid() && this.registry == registry && this.plain == plain
      ensures stores == Stores({}, {}, map[], map[], [])
    {
      this.registry, this.plain := registry, plain;
      stores := Stores({}, {}, map[], map[], []);
      passed := [Stores({}, {}, map[], map[], [])];
    }

    /** One call that would take the stores to `next`. */
    method Try(next: Stores, fault: Fault) returns (ok: bool)
      requires Valid() && (registry ==> BehindChain(next))
      modifies this
      ensures Valid() && old(passed) <= passed
      ensures ok <==> fault == Works
      ensures stores == if fault == Before then old(stores) else next
    {
      if fault == Before { return false; }
      stores := next;
      passed := passed + [next];
      ok := fault == Works;
    }

    /** Sign, anchor, persist. `None` is a throw. */
    method IssueCredentialFor(id: string, subject: string, w: Issue) returns (credential: Option<string>)
      requires Valid() && id !in stores.credentials
      modifies this
      ensures Valid() && old(passed) <= passed
      ensures credential == if IssueWorks(registry, w) then Some(id) else None
      ensures stores == AfterIssue(old(stores), registry, id, subject, w)
    {
      if !w.signs { return None; }
      if registry {
        var ok := Try(stores.(anchoredOnChain := stores.anchoredOnChain + {id}), w.anchor);
        if !ok { return None; }
      }
      var row := Credential(subject, false, registry);
      var ok := Try(stores.(credentials := stores.credentials[id := row]), w.create);
      if !ok { return None; }
      credential := Some(id);
    }

    /** Chain first, then the row. */
    method RevokeCredentialById(id: string, w: Revoke) returns (ok: bool)
      requires Valid()
      modifies this
      ensures Valid() && old(passed) <= passed
      ensures ok <==> id in old(stores).credentials && !old(stores).credentials[id].revoked && RevokeWorks(registry, w)
      ensures stores == AfterRevoke(old(stores), registry, id, w)
    {
      if !w.get || id !in stores.credentials || stores.credentials[id].revoked { return false; }
      if registry {
        ok := Try(stores.(revokedOnChain := stores.revokedOnChain + {id}), w.chain);
        if !ok { return; }
      }
      ok := Try(stores.(credentials := stores.credentials[id := stores.credentials[id].(revoked := true)]), w.row);
    }

    /** Onboard one row; on any failure after the user row exists, revoke what was issued and remove the user. */
    method OnboardSingle(row: Row, w: World) returns (ok: bool)
      requires Valid() && row.userId !in stores.users && row.credentialId !in stores.credentials
      modifies this
      ensures Valid() && old(passed) <= passed
      ensures ok <==> Onboards(old(stores), registry, plain, row, w)
      ensures stores == AfterOnboard(old(stores), registry, plain, row, w)
    {
      if EmailTaken(stores, row.email) || !w.account { return false; }
      ok := Try(stores.(users := stores.users[row.userId := NewUser(row)]), w.createUser);
      if !ok { return; }
      var issued: Option<string>;
      ok, issued := Complete(row, w);
      if !ok {
        if issued.Some? { var _ := RevokeCredentialById(issued.value, w.undo); }
        var _ := Try(stores.(users := stores.users - {row.userId}), w.removeUser);
      }
    }

    /** The part of onboarding that is rolled back when it fails. */
    method Complete(row: Row, w: World) returns (ok: bool, issued: Option<string>)
      requires Valid() && row.userId in stores.users && row.credentialId !in stores.credentials
      modifies this
      ensures Valid() && old(passed) <= passed
      ensures ok <==> Completes(registry, plain, row, w)
      ensures issued == if Issues(registry, plain, row, w) then Some(row.credentialId) else None
      ensures stores == AfterComplete(old(stores), registry, plain, row, w)
    {
      issued := None;
      if !plain {
        var did := if row.did.Some? then row.did.value else Minted(row.userId);
        var user := stores.users[row.userId].(did := Some(did),
          kyc := if row.did.Some? then KycApproved else stores.users[row.userId].kyc);
        ok := Try(stores.(users := stores.users[row.userId := user]), w.updateDid);
        if !ok { return; }
        if row.kyc {
          if !w.issuer { return false, issued; }
          issued := IssueCredentialFor(row.credentialId, did, w.issue);
          if issued.None? { return false, issued; }
          user := user.(kyc := KycApproved, credentialId := issued);
          ok := Try(stores.(users := stores.users[row.userId := user]), w.updateKyc);
          if !ok { return; }
        }
      }
      ok := Try(stores.(audit := stores.audit + [row.userId]), w.audit);
    }

    /** Rows are independent: the failure of one aborts none of the others. */
    method OnboardBatch(rows: seq<Row>, worlds: seq<World>) returns (results: seq<bool>)
      requires Valid() && |rows| == |worlds| && NewIds(stores, rows)
      modifies this
      ensures Valid() && old(passed) <= passed
      ensures |results| == |rows|
      ensures stores == AfterBatch(old(stores), registry, plain, rows, worlds)
      ensures forall i :: 0 <= i < |rows| ==>
        results[i] == Onboards(AfterBatch(old(stores), registry, plain, rows[..i], worlds[..i]), registry, plain,
          rows[i], worlds[i])
    {
      hide Onboards, AfterOnboard, NewIds, AfterBatch, Valid;
      results := [];
      NothingYet(old(stores), registry, plain, rows, worlds);
      for i := 0 to |rows|
        invariant Valid() && old(passed) <= passed && |results| == i
        invariant stores == AfterBatch(old(stores), registry, plain, rows[..i], worlds[..i])
        invariant forall j :: 0 <= j < i ==>
          results[j] == Onboards(AfterBatch(old(stores), registry, plain, rows[..j], worlds[..j]), registry, plain,
            rows[j], worlds[j])
      {
        NextRow(old(stores), registry, plain, rows, worlds, i);
        var ok := OnboardSingle(rows[i], worlds[i]);
        results := results + [ok];
      }
      assert rows[..|rows|] == rows && worlds[..|worlds|] == worlds;
    }

    /** Revokes everything a user holds, each on chain first, before the user's own row is touched. */
    method RevokeUserIdentity(userId: string, held: seq<string>, worlds: seq<Revoke>, update: Fault,
        append: Fault) returns (ok: bool)
      requires Valid() && userId in stores.users && |held| == |worlds| && HeldBy(stores, stores.users[userId], held)
      modifies this
      ensures Valid() && old(passed) <= passed
      ensures stores.users.Keys == old(stores).users.Keys
      ensures forall u :: u in stores.users && u != userId ==> stores.users[u] == old(stores).users[u]
      ensures stores.users[userId] == old(stores).users[userId]
        || stores.users[userId] == old(stores).users[userId].(kyc := KycRejected)
      ensures stores.users[userId] != old(stores).users[userId] || ok ==>
        forall i :: 0 <= i < |held| ==>
          held[i] in stores.credentials && stores.credentials[held[i]].revoked
            && (registry ==> held[i] in stores.revokedOnChain)
      ensures ok <==>
        (forall i :: 0 <= i < |held| ==> RevokeWorks(registry, worlds[i])) && update == Works && append == Works
      ensures ok ==> stores.users[userId].kyc == KycRejected && stores.audit == old(stores).audit + [userId]
      ensures stores.audit != old(stores).audit ==> stores.users[userId].kyc == KycRejected
    {
      hide AfterRevoke, RevokeWorks;
      for i := 0 to |held|
        invariant Valid() && old(passed) <= passed && stores.users == old(stores).users
          && stores.audit == old(stores).audit
        invariant forall j :: 0 <= j < i ==> RevokeWorks(registry, worlds[j])
        invariant forall j :: 0 <= j < i ==>
          held[j] in stores.credentials && stores.credentials[held[j]].revoked
            && (registry ==> held[j] in stores.revokedOnChain)
        invariant forall j :: i <= j < |held| ==> held[j] in stores.credentials && !stores.credentials[held[j]].revoked
      {
        WhatRevokingDoes(stores, registry, held[i], worlds[i]);
        ok := RevokeCredentialById(held[i], worlds[i]);
        if !ok { return; }
      }
      ok := Try(stores.(users := stores.users[userId := stores.users[userId].(kyc := KycRejected)]), update);
      if !ok { return; }
      ok := Try(stores.(audit := stores.audit + [userId]), append);
    }
  }

  function Minted(userId: string): string {
    "did:key:" + userId
  }

  function NewUser(row: Row): User {
    User(row.email, None, KycPending, None)
  }

  // --- what each operation leaves -------------------------------------------------------------

  function Left(before: Stores, next: Stores, fault: Fault): Stores {
    if fault == Before then before else next
  }

  predicate IssueWorks(registry: bool, w: Issue) {
    w.signs && (registry ==> w.anchor == Works) && w.create == Works
  }

  function AfterIssue(s: Stores, registry: bool, id: string, subject: string, w: Issue): Stores {
    if !w.signs then s else
      var anchored := if registry then Left(s, s.(anchoredOnChain := s.anchoredOnChain + {id}), w.anchor) else s;
      if registry && w.anchor != Works then anchored
      else Left(anchored, anchored.(credentials := s.credentials[id := Credential(subject, false, registry)]), w.create)
  }

  predicate RevokeWorks(registry: bool, w: Revoke) {
    w.get && (registry ==> w.chain == Works) && w.row == Works
  }

  function AfterRevoke(s: Stores, registry: bool, id: string, w: Revoke): Stores {
    if !w.get || id !in s.credentials || s.credentials[id].revoked then s else
      var onChain := if registry then Left(s, s.(revokedOnChain := s.revokedOnChain + {id}), w.chain) else s;
      if registry && w.chain != Works then onChain
      else Left(onChain, onChain.(credentials := s.credentials[id := s.credentials[id].(revoked := true)]), w.row)
  }

  /** What a revocation does to the rest, and to its own credential if it works. */
  lemma {:induction false} WhatRevokingDoes(s: Stores, registry: bool, id: string, w: Revoke)
    ensures
      var t := AfterRevoke(s, registry, id, w);
      && t.users == s.users && t.audit == s.audit && s.revokedOnChain <= t.revokedOnChain
      && (forall c :: c in s.credentials ==> c in t.credentials && (c != id ==> t.credentials[c] == s.credentials[c]))
      && (id in s.credentials && !s.credentials[id].revoked && RevokeWorks(registry, w) ==>
            t.credentials[id].revoked && (registry ==> id in t.revokedOnChain))
  {
  }

  predicate Issues(registry: bool, plain: bool, row: Row, w: World) {
    !plain && row.kyc && w.updateDid == Works && w.issuer && IssueWorks(registry, w.issue)
  }

  predicate Completes(registry: bool, plain: bool, row: Row, w: World) {
    && (!plain ==> w.updateDid == Works && (row.kyc ==> Issues(registry, plain, row, w) && w.updateKyc == Works))
    && w.audit == Works
  }

  function AfterComplete(s: Stores, registry: bool, plain: bool, row: Row, w: World): Stores
    requires row.userId in s.users
  {
    var did := if row.did.Some? then row.did.value else Minted(row.userId);
    var known :=
      s.users[row.userId].(did := Some(did), kyc := if row.did.Some? then KycApproved else s.users[row.userId].kyc);
    var named := if plain then s else Left(s, s.(users := s.users[row.userId := known]), w.updateDid);
    if !plain && w.updateDid != Works then named
    else if !plain && row.kyc && !w.issuer then named
    else
      var issued := if !plain && row.kyc then AfterIssue(named, registry, row.credentialId, did, w.issue) else named;
      if !plain && row.kyc && !IssueWorks(registry, w.issue) then issued
      else
        var approved := if plain || !row.kyc then issued
          else
            var approved := known.(kyc := KycApproved, credentialId := Some(row.credentialId));
            Left(issued, issued.(users := issued.users[row.userId := approved]), w.updateKyc);
        if !plain && row.kyc && w.updateKyc != Works then approved
        else Left(approved, approved.(audit := approved.audit + [row.userId]), w.audit)
  }

  function AfterOnboard(s: Stores, registry: bool, plain: bool, row: Row, w: World): Stores {
    if EmailTaken(s, row.email) || !w.account then s else
      var created := Left(s, s.(users := s.users[row.userId := NewUser(row)]), w.createUser);
      if w.createUser != Works then created else
        var tried := AfterComplete(created, registry, plain, row, w);
        if Completes(registry, plain, row, w) then tried else
          var revoked :=
            if Issues(registry, plain, row, w) then AfterRevoke(tried, registry, row.credentialId, w.undo) else tried;
          Left(revoked, revoked.(users := revoked.users - {row.userId}), w.removeUser)
  }

  predicate Onboards(s: Stores, registry: bool, plain: bool, row: Row, w: World) {
    !EmailTaken(s, row.email) && w.account && w.createUser == Works && Completes(registry, plain, row, w)
  }

  function AfterBatch(s: Stores, registry: bool, plain: bool, rows: seq<Row>, worlds: seq<World>): Stores
    requires |rows| == |worlds|
  {
    if rows == [] then s else
      var n := |rows| - 1;
      AfterOnboard(AfterBatch(s, registry, plain, rows[..n], worlds[..n]), registry, plain, rows[n], worlds[n])
  }

  /** Identifiers are random: new, and never twice the same. */
  predicate NewIds(s: Stores, rows: seq<Row>) {
    && (forall i :: 0 <= i < |rows| ==> rows[i].userId !in s.users && rows[i].credentialId !in s.credentials)
    && (forall i, j :: 0 <= i < j < |rows| ==>
      rows[i].userId != rows[j].userId && rows[i].credentialId != rows[j].credentialId)
  }

  /** The unrevoked credentials of a user's holder, each once. */
  predicate HeldBy(s: Stores, user: User, held: seq<string>) {
    && (forall i :: 0 <= i < |held| ==>
      held[i] in s.credentials && !s.credentials[held[i]].revoked && Some(s.credentials[held[i]].holder) == user.did)
    && (forall c :: c in s.credentials && !s.credentials[c].revoked && Some(s.credentials[c].holder) == user.did ==>
      c in held)
    && (forall i, j :: 0 <= i < j < |held| ==> held[i] != held[j])
  }

  /** From `s` to `t` no user and no credential but these has changed, and nothing has left the chain or the audit. */
  predicate Local(s: Stores, t: Stores, userId: string, credentialId: string) {
    && t.users - {userId} == s.users - {userId} && t.credentials - {credentialId} == s.credentials - {credentialId}
    && s.anchoredOnChain <= t.anchoredOnChain && s.revokedOnChain <= t.revokedOnChain && s.audit <= t.audit
  }

  lemma {:induction false} IssueIsLocal(s: Stores, registry: bool, id: string, subject: string, w: Issue,
      userId: string)
    ensures Local(s, AfterIssue(s, registry, id, subject, w), userId, id)
  {
  }

  lemma {:induction false} RevokeIsLocal(s: Stores, registry: bool, id: string, w: Revoke, userId: string)
    ensures Local(s, AfterRevoke(s, registry, id, w), userId, id)
  {
  }

  lemma {:induction false} CompleteIsLocal(s: Stores, registry: bool, plain: bool, row: Row, w: World)
    requires row.userId in s.users
    ensures Local(s, AfterComplete(s, registry, plain, row, w), row.userId, row.credentialId)
  {
    var did := if row.did.Some? then row.did.value else Minted(row.userId);
    var known :=
      s.users[row.userId].(did := Some(did), kyc := if row.did.Some? then KycApproved else s.users[row.userId].kyc);
    var named := if plain then s else Left(s, s.(users := s.users[row.userId := known]), w.updateDid);
    IssueIsLocal(named, registry, row.credentialId, did, w.issue, row.userId);
    hide AfterIssue, IssueWorks;
  }

  lemma {:induction false} OnboardStaysLocal(s: Stores, registry: bool, plain: bool, row: Row, w: World)
    requires row.userId !in s.users
    ensures Local(s, AfterOnboard(s, registry, plain, row, w), row.userId, row.credentialId)
  {
    var created := s.(users := s.users[row.userId := NewUser(row)]);
    assert Local(s, created, row.userId, row.credentialId) && Local(s, s, row.userId, row.credentialId);
    CompleteIsLocal(created, registry, plain, row, w);
    var tried := AfterComplete(created, registry, plain, row, w);
    RevokeIsLocal(tried, registry, row.credentialId, w.undo, row.userId);
    assert Local(tried, tried, row.userId, row.credentialId);
    hide Local, AfterComplete, AfterRevoke, Completes, Issues, EmailTaken;
    var revoked :=
      if Issues(registry, plain, row, w) then AfterRevoke(tried, registry, row.credentialId, w.undo) else tried;
    var removed := revoked.(users := revoked.users - {row.userId});
    UserGone(revoked, row.userId, row.credentialId);
    LocalTwice(s, created, tried, row.userId, row.credentialId);
    LocalTwice(s, tried, revoked, row.userId, row.credentialId);
    LocalTwice(s, revoked, removed, row.userId, row.credentialId);
  }

  /** Onboarding touches no user and no credential but its own, and takes nothing off the chain or the audit. */
  lemma {:induction false} OnboardIsLocal(s: Stores, registry: bool, plain: bool, row: Row, w: World)
    requires row.userId !in s.users && row.credentialId !in s.credentials
    ensures
      var t := AfterOnboard(s, registry, plain, row, w);
      && t.users - {row.userId} == s.users && t.credentials - {row.credentialId} == s.credentials
      && Local(s, t, row.userId, row.credentialId)
  {
    hide AfterOnboard;
    OnboardStaysLocal(s, registry, plain, row, w);
    assert s.users - {row.userId} == s.users && s.credentials - {row.credentialId} == s.credentials;
  }

  lemma {:induction false} UserGone(s: Stores, userId: string, credentialId: string)
    ensures Local(s, s.(users := s.users - {userId}), userId, credentialId)
  {
  }

  lemma {:induction false} LocalTwice(s: Stores, t: Stores, u: Stores, userId: string, credentialId: string)
    requires Local(s, t, userId, credentialId) && Local(t, u, userId, credentialId)
    ensures Local(s, u, userId, credentialId)
  {
  }

  lemma {:induction false} StillIn<V>(m: map<string, V>, removed: string, k: string)
    requires k != removed
    ensures k in m - {removed} <==> k in m
  {
  }

  lemma {:induction false} BatchLeavesLaterIds(s: Stores, registry: bool, plain: bool, rows: seq<Row>,
      worlds: seq<World>, n: nat)
    requires |rows| == |worlds| && n <= |rows| && NewIds(s, rows)
    ensures
      var t := AfterBatch(s, registry, plain, rows[..n], worlds[..n]);
      forall i :: n <= i < |rows| ==> rows[i].userId !in t.users && rows[i].credentialId !in t.credentials
  {
    if n > 0 {
      BatchLeavesLaterIds(s, registry, plain, rows, worlds, n - 1);
      assert rows[..n][..n - 1] == rows[..n - 1] && worlds[..n][..n - 1] == worlds[..n - 1];
      var before := AfterBatch(s, registry, plain, rows[..n - 1], worlds[..n - 1]);
      OnboardIsLocal(before, registry, plain, rows[n - 1], worlds[n - 1]);
      hide AfterOnboard;
      var t := AfterOnboard(before, registry, plain, rows[n - 1], worlds[n - 1]);
      forall i | n <= i < |rows| ensures rows[i].userId !in t.users && rows[i].credentialId !in t.credentials {
        StillIn(t.users, rows[n - 1].userId, rows[i].userId);
        StillIn(t.credentials, rows[n - 1].credentialId, rows[i].credentialId);
      }
    }
  }

  lemma {:induction false} NothingYet(s: Stores, registry: bool, plain: bool, rows: seq<Row>, worlds: seq<World>)
    requires |rows| == |worlds|
    ensures AfterBatch(s, registry, plain, rows[..0], worlds[..0]) == s
  {
  }

  lemma {:induction false} NextRow(s: Stores, registry: bool, plain: bool, rows: seq<Row>, worlds: seq<World>, i: nat)
    requires |rows| == |worlds| && i < |rows| && NewIds(s, rows)
    ensures
      var t := AfterBatch(s, registry, plain, rows[..i], worlds[..i]);
      && rows[i].userId !in t.users && rows[i].credentialId !in t.credentials
      && AfterBatch(s, registry, plain, rows[..i + 1], worlds[..i + 1])
        == AfterOnboard(t, registry, plain, rows[i], worlds[i])
  {
    BatchLeavesLaterIds(s, registry, plain, rows, worlds, i);
    hide AfterOnboard, NewIds;
    assert rows[..i + 1][..i] == rows[..i] && worlds[..i + 1][..i] == worlds[..i];
  }

  // --- what a successful onboarding leaves -----------------------------------------------------------

  /** Onboarding succeeds exactly if the address is free and every call it makes works. */
  lemma {:induction false} OnboardsIff(s: Stores, registry: bool, plain: bool, row: Row, w: World)
    ensures Onboards(s, registry, plain, row, w) <==>
      && (forall u :: u in s.users ==> s.users[u].email != row.email)
      && w.account && w.createUser == Works && w.audit == Works
      && (!plain ==> w.updateDid == Works)
      && (!plain && row.kyc ==>
           w.issuer && w.issue.signs && (registry ==> w.issue.anchor == Works) && w.issue.create == Works
           && w.updateKyc == Works)
  {
  }

  /**
   * A successful onboarding leaves a user of that address. Its DID is the one supplied or else
   * minted, and it is approved exactly if one was supplied or KYC was asked for; with KYC it
   * names its credential, held by that DID, not revoked, and anchored where there is a
   * registry. With plain identifiers it has no DID, no approval and no credential. One entry
   * is added to the audit.
   */
  lemma {:induction false} SuccessLeaves(s: Stores, registry: bool, plain: bool, row: Row, w: World)
    requires row.userId !in s.users && row.credentialId !in s.credentials && Onboards(s, registry, plain, row, w)
    ensures
      var t := AfterOnboard(s, registry, plain, row, w);
      && row.userId in t.users && t.audit == s.audit + [row.userId]
      && var user, issued := t.users[row.userId], !plain && row.kyc;
      && user.email == row.email
      && (user.did == if plain then None else if row.did.Some? then row.did else Some("did:key:" + row.userId))
      && (user.kyc == if !plain && (row.did.Some? || row.kyc) then KycApproved else KycPending)
      && (user.credentialId == if issued then Some(row.credentialId) else None)
      && (row.credentialId in t.credentials <==> issued)
      && (issued ==>
           && Some(t.credentials[row.credentialId].holder) == user.did && !t.credentials[row.credentialId].revoked
           && (t.credentials[row.credentialId].anchored <==> registry)
           && (registry ==> row.credentialId in t.anchoredOnChain))
      && t.revokedOnChain == s.revokedOnChain
  {
    var created := s.(users := s.users[row.userId := NewUser(row)]);
    CompletedLeaves(created, registry, plain, row, w);
    hide AfterComplete, Completes, EmailTaken;
  }

  lemma {:induction false} CompletedLeaves(s: Stores, registry: bool, plain: bool, row: Row, w: World)
    requires row.userId in s.users && row.credentialId !in s.credentials && Completes(registry, plain, row, w)
    ensures
      var t := AfterComplete(s, registry, plain, row, w);
      && row.userId in t.users && t.audit == s.audit + [row.userId] && t.revokedOnChain == s.revokedOnChain
      && var user, was, issued := t.users[row.userId], s.users[row.userId], !plain && row.kyc;
      && user.email == was.email
      && (user.did == if plain then was.did else if row.did.Some? then row.did else Some("did:key:" + row.userId))
      && (user.kyc == if !plain && (row.did.Some? || row.kyc) then KycApproved else was.kyc)
      && (user.credentialId == if issued then Some(row.credentialId) else was.credentialId)
      && (row.credentialId in t.credentials <==> issued)
      && (issued ==>
           && Some(t.credentials[row.credentialId].holder) == user.did && !t.credentials[row.credentialId].revoked
           && (t.credentials[row.credentialId].anchored <==> registry)
           && (registry ==> row.credentialId in t.anchoredOnChain))
  {
  }

  // --- what a failed onboarding leaves -----------------------------------------------------------

  predicate StillValid(s: Stores, id: string) {
    id in s.credentials && !s.credentials[id].revoked
  }

  predicate Undone(registry: bool, w: Revoke) {
    w.get && (registry ==> w.chain == Works) && w.row != Before
  }

  /** The credential's row was written, though the call that wrote it threw. */
  predicate LostTrackOf(registry: bool, plain: bool, row: Row, w: World) {
    !plain && row.kyc && w.updateDid == Works && w.issuer && w.issue.signs && (registry ==> w.issue.anchor == Works)
      && w.issue.create == After
  }

  /**
   * Exactly what a failed onboarding leaves of its own. The user row: only if the call
   * that created it threw after creating it, or its removal failed. A credential that is
   * not revoked: only if the call that stored it threw after storing it, so that nobody
   * knew of it, or its revocation failed.
   */
  lemma {:induction false} FailedOnboardingLeaves(s: Stores, registry: bool, plain: bool, row: Row, w: World)
    requires row.userId !in s.users && row.credentialId !in s.credentials && !Onboards(s, registry, plain, row, w)
    ensures
      var t := AfterOnboard(s, registry, plain, row, w);
      var started := !EmailTaken(s, row.email) && w.account;
      && (row.userId in t.users <==>
        started && (w.createUser == After || (w.createUser == Works && w.removeUser == Before)))
      && (StillValid(t, row.credentialId) <==>
            started && w.createUser == Works
            && (LostTrackOf(registry, plain, row, w) || (Issues(registry, plain, row, w) && !Undone(registry, w.undo))))
  {
    if !EmailTaken(s, row.email) && w.account && w.createUser == Works {
      var created := s.(users := s.users[row.userId := NewUser(row)]);
      CompleteLeaves(created, registry, plain, row, w);
      hide AfterComplete, Completes, Issues, LostTrackOf;
      var tried := AfterComplete(created, registry, plain, row, w);
    } else {
      hide AfterComplete, AfterRevoke;
    }
  }

  /** A failed onboarding is in the audit only if appending to it was all that failed, and it threw after it had. */
  lemma {:induction false} FailedOnboardingAudit(s: Stores, registry: bool, plain: bool, row: Row, w: World)
    requires row.userId !in s.users && row.credentialId !in s.credentials && !Onboards(s, registry, plain, row, w)
    ensures
      var all := Onboards(s, registry, plain, row, w.(audit := Works));
      AfterOnboard(s, registry, plain, row, w).audit
        == if all && w.audit == After then s.audit + [row.userId] else s.audit
  {
    if !EmailTaken(s, row.email) && w.account && w.createUser == Works {
      var created := s.(users := s.users[row.userId := NewUser(row)]);
      CompletedAudit(created, registry, plain, row, w);
      var tried := AfterComplete(created, registry, plain, row, w);
      WhatRevokingDoes(tried, registry, row.credentialId, w.undo);
      hide AfterComplete, AfterRevoke, Issues;
    } else {
      hide AfterComplete, AfterRevoke;
    }
  }

  lemma {:induction false} CompletedAudit(s: Stores, registry: bool, plain: bool, row: Row, w: World)
    requires row.userId in s.users && !Completes(registry, plain, row, w)
    ensures AfterComplete(s, registry, plain, row, w).audit
      == if Completes(registry, plain, row, w.(audit := Works)) && w.audit == After then s.audit + [row.userId]
         else s.audit
  {
  }

  /** A credential that the rollback revokes is revoked on chain too, where there is a registry. */
  lemma {:induction false} RolledBackOnChain(s: Stores, registry: bool, plain: bool, row: Row, w: World)
    requires row.userId !in s.users && row.credentialId !in s.credentials && !Onboards(s, registry, plain, row, w)
    ensures
      var t := AfterOnboard(s, registry, plain, row, w);
      registry && row.credentialId in t.credentials && t.credentials[row.credentialId].revoked ==>
        row.credentialId in t.revokedOnChain && row.credentialId in t.anchoredOnChain
  {
    if !EmailTaken(s, row.email) && w.account && w.createUser == Works {
      var created := s.(users := s.users[row.userId := NewUser(row)]);
      CompletedUnrevoked(created, registry, plain, row, w);
      hide AfterComplete, Completes, Issues, EmailTaken;
    } else {
      hide AfterComplete, AfterRevoke;
    }
  }

  lemma {:induction false} CompletedUnrevoked(s: Stores, registry: bool, plain: bool, row: Row, w: World)
    requires row.userId in s.users && row.credentialId !in s.credentials
    ensures
      var t := AfterComplete(s, registry, plain, row, w);
      row.credentialId in t.credentials ==>
        !t.credentials[row.credentialId].revoked && (registry ==> row.credentialId in t.anchoredOnChain)
  {
  }

  lemma {:induction false} CompleteLeaves(s: Stores, registry: bool, plain: bool, row: Row, w: World)
    requires row.userId in s.users && row.credentialId !in s.credentials
    ensures
      var t := AfterComplete(s, registry, plain, row, w);
      && t.users.Keys == s.users.Keys
      && (Issues(registry, plain, row, w) ==> StillValid(t, row.credentialId))
      && (!Issues(registry, plain, row, w) ==>
        (row.credentialId in t.credentials <==> LostTrackOf(registry, plain, row, w)))
      && (LostTrackOf(registry, plain, row, w) ==> StillValid(t, row.credentialId))
  {
  }

  /**
   * Where no creating call throws after taking effect and the compensations work, nothing of a
   * failed run is left alive.
   */
  lemma {:induction false} RollbackIsClean(s: Stores, registry: bool, plain: bool, row: Row, w: World)
    requires row.userId !in s.users && row.credentialId !in s.credentials && !Onboards(s, registry, plain, row, w)
    requires w.createUser != After && w.issue.create != After && w.removeUser != Before && Undone(registry, w.undo)
    ensures
      var t := AfterOnboard(s, registry, plain, row, w);
      && t.users == s.users && !StillValid(t, row.credentialId)
      && (forall c :: c in s.credentials ==> c in t.credentials && t.credentials[c] == s.credentials[c])
  {
    FailedOnboardingLeaves(s, registry, plain, row, w);
    OnboardIsLocal(s, registry, plain, row, w);
    hide AfterOnboard, Onboards;
    var t := AfterOnboard(s, registry, plain, row, w);
    assert t.users == t.users - {row.userId};
    forall c | c in s.credentials ensures c in t.credentials && t.credentials[c] == s.credentials[c] {
      assert c in t.credentials - {row.credentialId};
    }
  }

  /** One at a time, onboardings never give one address to two users. */
  lemma {:induction false} EmailsStayUnique(s: Stores, registry: bool, plain: bool, rows: seq<Row>, worlds: seq<World>)
    requires |rows| == |worlds| && NewIds(s, rows) && UniqueEmails(s)
    ensures UniqueEmails(AfterBatch(s, registry, plain, rows, worlds))
  {
    if rows != [] {
      var n := |rows| - 1;
      assert forall i :: 0 <= i < n ==> rows[..n][i] == rows[i];
      EmailsStayUnique(s, registry, plain, rows[..n], worlds[..n]);
      BatchLeavesLaterIds(s, registry, plain, rows, worlds, n);
      var before := AfterBatch(s, registry, plain, rows[..n], worlds[..n]);
      hide AfterBatch, NewIds;
      OneEmailMore(before, registry, plain, rows[n], worlds[n]);
    }
  }

  lemma {:induction false} OneEmailMore(s: Stores, registry: bool, plain: bool, row: Row, w: World)
    requires row.userId !in s.users && row.credentialId !in s.credentials && UniqueEmails(s)
    ensures UniqueEmails(AfterOnboard(s, registry, plain, row, w))
  {
    OnboardIsLocal(s, registry, plain, row, w);
    OwnEmail(s, registry, plain, row, w);
    hide AfterOnboard;
    var t := AfterOnboard(s, registry, plain, row, w);
    forall u, v | u in t.users && v in t.users && t.users[u].email == t.users[v].email ensures u == v {
      assert u != row.userId ==> u in t.users - {row.userId};
      assert v != row.userId ==> v in t.users - {row.userId};
    }
  }

  lemma {:induction false} CompleteKeepsEmail(s: Stores, registry: bool, plain: bool, row: Row, w: World)
    requires row.userId in s.users
    ensures
      var t := AfterComplete(s, registry, plain, row, w);
      row.userId in t.users && t.users[row.userId].email == s.users[row.userId].email
  {
  }

  lemma {:induction false} RevokeKeepsUsers(s: Stores, registry: bool, id: string, w: Revoke)
    ensures AfterRevoke(s, registry, id, w).users == s.users
  {
  }

  lemma {:induction false} OwnEmail(s: Stores, registry: bool, plain: bool, row: Row, w: World)
    requires row.userId !in s.users
    ensures
      var t := AfterOnboard(s, registry, plain, row, w);
      row.userId in t.users ==> !EmailTaken(s, row.email) && t.users[row.userId].email == row.email
  {
    var created := s.(users := s.users[row.userId := NewUser(row)]);
    CompleteKeepsEmail(created, registry, plain, row, w);
    RevokeKeepsUsers(AfterComplete(created, registry, plain, row, w), registry, row.credentialId, w.undo);
    hide AfterComplete, AfterRevoke, Completes, Issues, EmailTaken;
  }

  const ANA := Row("ana@example.org", None, true, "u", "c")

  /** Everything works but the call that stores the credential, which throws after storing it. */
  const LOSES_TRACK :=
    World(true, Works, Works, true, Issue(true, Works, After), Works, Works, Revoke(true, Works, Works),
    Works)

  /** The case in point: nothing is left of the user, and its credential lives on, valid and anchored. */
  lemma {:induction false} OrphanedCredential()
    ensures
      var s := Stores({}, {}, map[], map[], []);
      var t := AfterOnboard(s, true, false, ANA, LOSES_TRACK);
      && !Onboards(s, true, false, ANA, LOSES_TRACK) && t.users == map[]
      && t.credentials == map["c" := Credential(Minted("u"), false, true)]
      && "c" in t.anchoredOnChain && "c" !in t.revokedOnChain
  {
    var s := Stores({}, {}, map[], map[], []);
    var known := User(ANA.email, Some(Minted("u")), KycPending, None);
    var created := s.(users := map["u" := NewUser(ANA)]);
    var named := s.(users := map["u" := known]);
    var issued := named.(anchoredOnChain := {"c"}, credentials := map["c" := Credential(Minted("u"), false, true)]);
    assert !EmailTaken(s, ANA.email);
    assert AfterIssue(named, true, "c", Minted("u"), LOSES_TRACK.issue) == issued;
    assert AfterComplete(created, true, false, ANA, LOSES_TRACK) == issued;
    assert issued.users - {"u"} == map[];
  }
}
