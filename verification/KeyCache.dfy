/**
 * The verified-prefix cache of API keys: a sliding-expiry memo of the slow check,
 * evicted in insertion order at its cap.
 */
module KeyCache {
  import opened Sequences
  import Sums

  const VERIFIED_TTL := 60000
  const VERIFIED_MAX_ENTRIES: nat := 1000

  datatype Entry = Entry(keyId: string, secretHash: string, fingerprint: string, expiresAt: int)

  /** A map that remembers the order in which its keys were first put in. */
  datatype Cache = Cache(entries: map<string, Entry>, order: seq<string>)

  const NOTHING := Cache(map[], [])

  function Forget(order: seq<string>, prefix: string): seq<string> {
    if order == [] then [] else
      Forget(order[..|order| - 1], prefix) + if order[|order| - 1] == prefix then [] else [order[|order| - 1]]
  }

  function Delete(c: Cache, prefix: string): Cache {
    Cache(c.entries - {prefix}, Forget(c.order, prefix))
  }

  function Put(c: Cache, prefix: string, e: Entry): Cache {
    Cache(c.entries[prefix := e], if prefix in c.entries then c.order else c.order + [prefix])
  }

  predicate Hit(c: Cache, now: int, prefix: string, keyId: string, secretHash: string, fingerprint: string) {
    && prefix in c.entries && c.entries[prefix].expiresAt > now
    && c.entries[prefix].keyId == keyId && c.entries[prefix].secretHash == secretHash
      && c.entries[prefix].fingerprint == fingerprint
  }

  /** A look-up: a hit extends the entry's life, an expired entry is dropped. */
  function Look(c: Cache, now: int, prefix: string, keyId: string, secretHash: string, fingerprint: string): Cache {
    if prefix !in c.entries then c
    else if c.entries[prefix].expiresAt <= now then Delete(c, prefix)
    else if Hit(c, now, prefix, keyId, secretHash, fingerprint)
      then Put(c, prefix, c.entries[prefix].(expiresAt := now + VERIFIED_TTL))
    else c
  }

  function Remember(c: Cache, now: int, prefix: string, keyId: string, secretHash: string, fingerprint: string): Cache {
    var full := |c.entries| >= VERIFIED_MAX_ENTRIES && prefix !in c.entries && c.order != [];
    var room := if full then Delete(c, c.order[0]) else c;
    Put(room, prefix, Entry(keyId, secretHash, fingerprint, now + VERIFIED_TTL))
  }

  // --- what every operation keeps ----------------------------------------------------------

  ghost predicate Ordered(c: Cache) {
    && Distinct(c.order)
    && (forall p :: p in c.order <==> p in c.entries)
  }

  /** Some secret with that fingerprint passed the slow check against that hash. */
  ghost predicate Proven(e: Entry, matches: (string, string) -> bool, fingerprint: string -> string) {
    exists raw: string :: fingerprint(raw) == e.fingerprint && matches(raw, e.secretHash)
  }

  ghost predicate Sound(c: Cache, matches: (string, string) -> bool, fingerprint: string -> string) {
    && Ordered(c) && |c.entries| <= VERIFIED_MAX_ENTRIES
    && forall p :: p in c.entries ==> Proven(c.entries[p], matches, fingerprint)
  }

  ghost predicate Injective(fingerprint: string -> string) {
    forall x: string, y: string :: fingerprint(x) == fingerprint(y) ==> x == y
  }

  lemma {:induction false} ForgetKeeps(order: seq<string>, prefix: string)
    requires Distinct(order)
    ensures
      var rest := Forget(order, prefix);
      && Distinct(rest)
      && (forall p :: p in rest <==> p in order && p != prefix)
  {
    if order != [] {
      var init, last := order[..|order| - 1], order[|order| - 1];
      ForgetKeeps(init, prefix);
      assert order == init + [last];
      assert last !in init by { assert forall i :: 0 <= i < |init| ==> order[i] != last; }
    }
  }

  lemma {:induction false} DeleteKeeps(c: Cache, prefix: string)
    requires Ordered(c)
    ensures Ordered(Delete(c, prefix))
    ensures prefix in c.entries ==> |Delete(c, prefix).entries| == |c.entries| - 1
    ensures prefix !in c.entries ==> Delete(c, prefix) == c
  {
    if prefix in c.entries {
      hide Distinct, Forget;
      ForgetKeeps(c.order, prefix);
      Sums.Smaller(c.entries, prefix);
    } else {
      DeleteAbsent(c, prefix);
    }
  }

  lemma {:induction false} DeleteAbsent(c: Cache, prefix: string)
    requires Ordered(c) && prefix !in c.entries
    ensures Delete(c, prefix) == c
  {
    hide Distinct;
    assert prefix !in c.order;
    assert c.entries - {prefix} == c.entries;
    NothingToForget(c.order, prefix);
  }

  lemma {:induction false} NothingToForget(order: seq<string>, prefix: string)
    requires prefix !in order
    ensures Forget(order, prefix) == order
  {
    if order != [] { NothingToForget(order[..|order| - 1], prefix); }
  }

  lemma {:induction false} PutKeeps(c: Cache, prefix: string, e: Entry)
    requires Ordered(c)
    ensures Ordered(Put(c, prefix, e))
    ensures |Put(c, prefix, e).entries| == if prefix in c.entries then |c.entries| else |c.entries| + 1
  {
  }

  lemma {:induction false} LookKeeps(c: Cache, now: int, prefix: string, keyId: string, secretHash: string, fp: string,
                                     matches: (string, string) -> bool, fingerprint: string -> string)
    requires Sound(c, matches, fingerprint)
    ensures Sound(Look(c, now, prefix, keyId, secretHash, fp), matches, fingerprint)
  {
    hide Ordered, Delete, Forget;
    DeleteKeeps(c, prefix);
    assert Delete(c, prefix).entries == c.entries - {prefix} by { DeleteEntries(c, prefix); }
    if prefix in c.entries {
      var e := c.entries[prefix];
      PutKeeps(c, prefix, e.(expiresAt := now + VERIFIED_TTL));
      assert Proven(e, matches, fingerprint) ==> Proven(e.(expiresAt := now + VERIFIED_TTL), matches, fingerprint);
    }
  }

  lemma {:induction false} DeleteEntries(c: Cache, prefix: string)
    ensures Delete(c, prefix).entries == c.entries - {prefix}
  {
  }

  lemma {:induction false} PutSound(c: Cache, prefix: string, e: Entry, matches: (string, string) -> bool,
      fingerprint: string -> string)
    requires Sound(c, matches, fingerprint) && Proven(e, matches, fingerprint)
    requires |c.entries| < VERIFIED_MAX_ENTRIES || prefix in c.entries
    ensures Sound(Put(c, prefix, e), matches, fingerprint)
  {
  }

  lemma {:induction false} DeleteSound(c: Cache, prefix: string, matches: (string, string) -> bool,
      fingerprint: string -> string)
    requires Sound(c, matches, fingerprint)
    ensures Sound(Delete(c, prefix), matches, fingerprint)
    ensures prefix in c.entries ==> |Delete(c, prefix).entries| == |c.entries| - 1
  {
    hide Ordered, Proven, Delete;
    DeleteKeeps(c, prefix);
    DeleteEntries(c, prefix);
  }

  lemma {:induction false} EvictSound(c: Cache, matches: (string, string) -> bool, fingerprint: string -> string)
    requires Sound(c, matches, fingerprint) && |c.entries| > 0
    ensures c.order != []
    ensures var room := Delete(c, c.order[0]); Sound(room, matches, fingerprint) && |room.entries| == |c.entries| - 1
  {
    var p :| p in c.entries;
    assert p in c.order;
    assert c.order[0] in c.entries;
    DeleteSound(c, c.order[0], matches, fingerprint);
  }

  /** Recording a secret that passed the slow check keeps the cache sound and within its cap. */
  lemma {:induction false} RememberKeeps(c: Cache, now: int, prefix: string, keyId: string, secretHash: string,
      raw: string, matches: (string, string) -> bool, fingerprint: string -> string)
    requires Sound(c, matches, fingerprint) && matches(raw, secretHash)
    ensures Sound(Remember(c, now, prefix, keyId, secretHash, fingerprint(raw)), matches, fingerprint)
  {
    var e := Entry(keyId, secretHash, fingerprint(raw), now + VERIFIED_TTL);
    assert Proven(e, matches, fingerprint);
    assert |c.entries| <= VERIFIED_MAX_ENTRIES;
    hide Sound, Proven, Delete, Put;
    if |c.entries| >= VERIFIED_MAX_ENTRIES && prefix !in c.entries {
      EvictSound(c, matches, fingerprint);
      PutSound(Delete(c, c.order[0]), prefix, e, matches, fingerprint);
    } else {
      PutSound(c, prefix, e, matches, fingerprint);
    }
  }

  /** In a sound cache a hit is as good as the slow check: for this very secret, against this very hash. */
  lemma {:induction false} HitMatches(c: Cache, now: int, prefix: string, keyId: string, secretHash: string,
      raw: string, matches: (string, string) -> bool, fingerprint: string -> string)
    requires Sound(c, matches, fingerprint) && Injective(fingerprint)
    requires Hit(c, now, prefix, keyId, secretHash, fingerprint(raw))
    ensures matches(raw, secretHash)
  {
  }

  // --- what becomes of an entry -------------------------------------------------------------

  /** After a look-up an entry is as it was, or it was hit and lasts for another minute. */
  lemma {:induction false} LookEntry(c: Cache, now: int, prefix: string, keyId: string, secretHash: string, fp: string,
      p: string)
    ensures
      var t := Look(c, now, prefix, keyId, secretHash, fp).entries;
      var hit := p == prefix && Hit(c, now, prefix, keyId, secretHash, fp);
      p in t ==>
        p in c.entries && t[p] == if hit then Entry(keyId, secretHash, fp, now + 60000) else c.entries[p]
    ensures p in c.entries && p !in Look(c, now, prefix, keyId, secretHash, fp).entries <==>
      p == prefix && p in c.entries && c.entries[p].expiresAt <= now
  {
    DeleteEntries(c, prefix);
    hide Delete;
  }

  /** After a verification an entry is the one just made, for a minute, or as it was. */
  lemma {:induction false} RememberEntry(c: Cache, now: int, prefix: string, keyId: string, secretHash: string,
      fp: string, p: string)
    ensures
      var t := Remember(c, now, prefix, keyId, secretHash, fp).entries;
      && prefix in t && t[prefix] == Entry(keyId, secretHash, fp, now + 60000)
      && (p in t && p != prefix ==> p in c.entries && t[p] == c.entries[p])
  {
    if c.order != [] { DeleteEntries(c, c.order[0]); }
    hide Delete;
  }

  /** A look-up leaves the other entries alone, and makes room if it drops one. */
  lemma {:induction false} LookLeaves(c: Cache, now: int, prefix: string, keyId: string, secretHash: string, fp: string,
      p: string)
    requires p in c.entries && p != prefix && |c.entries| <= 1000
    ensures
      var t := Look(c, now, prefix, keyId, secretHash, fp);
      && p in t.entries && t.entries[p] == c.entries[p] && |t.entries| <= |c.entries|
      && (prefix in t.entries || t == c || |t.entries| < 1000)
  {
    DeleteEntries(c, prefix);
    if prefix in c.entries { Sums.Smaller(c.entries, prefix); }
    hide Delete;
  }

  /** Only the oldest of a thousand entries makes room for another. */
  lemma {:induction false} RememberLeaves(c: Cache, now: int, prefix: string, keyId: string, secretHash: string,
      fp: string, p: string)
    requires p in c.entries && p != prefix
    ensures
      var t := Remember(c, now, prefix, keyId, secretHash, fp).entries;
      if |c.entries| >= 1000 && prefix !in c.entries && c.order != [] && c.order[0] == p then p !in t
      else p in t && t[p] == c.entries[p]
  {
    if c.order != [] { DeleteEntries(c, c.order[0]); }
    hide Delete;
  }

  /** A secret just verified is a hit for exactly a minute, and no other secret, key or hash is. */
  lemma {:induction false} HitForAMinute(c: Cache, now: int, prefix: string, keyId: string, secretHash: string,
      fp: string, later: int, keyId': string, secretHash': string, fp': string)
    ensures Hit(Remember(c, now, prefix, keyId, secretHash, fp), later, prefix, keyId', secretHash', fp')
      <==> later < now + 60000 && keyId' == keyId && secretHash' == secretHash && fp' == fp
    ensures Hit(c, now, prefix, keyId, secretHash, fp) ==>
      (Hit(Look(c, now, prefix, keyId, secretHash, fp), later, prefix, keyId', secretHash', fp')
       <==> later < now + 60000 && keyId' == keyId && secretHash' == secretHash && fp' == fp)
    ensures !Hit(Delete(c, prefix), later, prefix, keyId', secretHash', fp')
  {
    RememberEntry(c, now, prefix, keyId, secretHash, fp, prefix);
    LookEntry(c, now, prefix, keyId, secretHash, fp, prefix);
    DeleteEntries(c, prefix);
    hide Remember, Delete;
  }

  class VerifiedCache {
    var entries: map<string, Entry>
    var order: seq<string>

    constructor ()
      ensures Contents() == NOTHING
    {
      entries, order := map[], [];
    }

    function Contents(): Cache
      reads this
    {
      Cache(entries, order)
    }

    method Cached(now: int, prefix: string, keyId: string, secretHash: string, fingerprint: string) returns (hit: bool)
      modifies this
      ensures hit == Hit(old(Contents()), now, prefix, keyId, secretHash, fingerprint)
      ensures Contents() == Look(old(Contents()), now, prefix, keyId, secretHash, fingerprint)
    {
      if prefix !in entries || entries[prefix].expiresAt <= now {
        if prefix in entries { Invalidate(prefix); }
        return false;
      }
      var entry := entries[prefix];
      hit := entry.keyId == keyId && entry.secretHash == secretHash && entry.fingerprint == fingerprint;
      if hit { entries := entries[prefix := entry.(expiresAt := now + VERIFIED_TTL)]; }
    }

    method RememberVerification(now: int, prefix: string, keyId: string, secretHash: string, fingerprint: string)
      modifies this
      ensures Contents() == Remember(old(Contents()), now, prefix, keyId, secretHash, fingerprint)
    {
      if |entries| >= VERIFIED_MAX_ENTRIES && prefix !in entries && order != [] {
        Invalidate(order[0]);
      }
      if prefix !in entries { order := order + [prefix]; }
      entries := entries[prefix := Entry(keyId, secretHash, fingerprint, now + VERIFIED_TTL)];
    }

    method Invalidate(prefix: string)
      modifies this
      ensures Contents() == Delete(old(Contents()), prefix)
    {
      entries := entries - {prefix};
      var kept: seq<string> := [];
      for i := 0 to |order|
        invariant kept == Forget(order[..i], prefix)
      {
        assert order[..i + 1][..i] == order[..i];
        if order[i] != prefix { kept := kept + [order[i]]; }
      }
      assert order[..|order|] == order;
      order := kept;
    }
  }
}
