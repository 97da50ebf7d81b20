/**
 * The API-key path of authentication: live row, cache, failure budget, slow check,
 * user, rate limit; over whole sequences of requests.
 */
module Principal {
  import opened Wrappers
  import opened KeyCache
  import opened Budgets

  const RATE_WINDOW := 60000
  const FAILED_WINDOW := 60000

  datatype Config = Config(rateMax: int, failedMax: int, reserve: int)

  /** The key row found under the prefix; `live` when it is neither revoked nor expired. */
  datatype KeyRow = KeyRow(id: string, secretHash: string, live: bool, userActive: bool)

  /** What comes in: requests with a key, and the invalidations that revoking and rotating a key send. */
  datatype Request =
    | Request(now: int, prefix: string, raw: string, row: Option<KeyRow>)
    | Invalidation(now: int, prefix: string)

  datatype Verdict = UnknownKey | FromCache | RefusedUnhashed | WrongSecret | Hashed

  datatype Outcome = Serve | RateLimited | Unauthorized

  datatype Auth = Auth(cache: Cache, rate: map<string, Counter>, failed: map<string, Counter>,
    lastHash: map<string, int>)

  const IDLE := Auth(NOTHING, map[], map[], map[])

  function Find<V>(m: map<string, V>, k: string): Option<V> {
    if k in m then Some(m[k]) else None
  }

  function FailsOf(s: Auth, prefix: string): Fails {
    Fails(Find(s.failed, prefix), Find(s.lastHash, prefix))
  }

  predicate Live(q: Request) {
    q.Request? && q.row.Some? && q.row.value.live
  }

  function Verify(s: Auth, q: Request, cfg: Config, matches: (string, string) -> bool,
      fingerprint: string -> string): Verdict {
    if !Live(q) then UnknownKey
    else if Hit(s.cache, q.now, q.prefix, q.row.value.id, q.row.value.secretHash, fingerprint(q.raw)) then FromCache
    else if Refuses(FailsOf(s, q.prefix), q.now, cfg.failedMax, cfg.reserve) then RefusedUnhashed
    else if matches(q.raw, q.row.value.secretHash) then Hashed
    else WrongSecret
  }

  predicate Verified(v: Verdict) {
    v == FromCache || v == Hashed
  }

  /** The state once the secret has been judged. */
  function Judged(s: Auth, q: Request, cfg: Config, matches: (string, string) -> bool,
      fingerprint: string -> string): Auth {
    if !Live(q) then s else
      var row, fp := q.row.value, fingerprint(q.raw);
      var looked := Look(s.cache, q.now, q.prefix, row.id, row.secretHash, fp);
      match Verify(s, q, cfg, matches, fingerprint)
      case WrongSecret =>
        s.(cache := looked, lastHash := s.lastHash[q.prefix := q.now],
           failed := s.failed[q.prefix := Bump(Find(s.failed, q.prefix), q.now, FAILED_WINDOW)])
      case Hashed =>
        s.(cache := Remember(looked, q.now, q.prefix, row.id, row.secretHash, fp),
          lastHash := s.lastHash - {q.prefix}, failed := s.failed - {q.prefix})
      case _ => s.(cache := looked)
  }

  predicate Charged(s: Auth, q: Request, cfg: Config, matches: (string, string) -> bool,
      fingerprint: string -> string) {
    Live(q) && Verified(Verify(s, q, cfg, matches, fingerprint)) && q.row.value.userActive
  }

  function After(s: Auth, q: Request, cfg: Config, matches: (string, string) -> bool,
      fingerprint: string -> string): Auth {
    var t := Judged(s, q, cfg, matches, fingerprint);
    if q.Invalidation? then s.(cache := Delete(s.cache, q.prefix))
    else if !Charged(s, q, cfg, matches, fingerprint) then t
    else t.(rate := t.rate[q.row.value.id := Bump(Find(t.rate, q.row.value.id), q.now, RATE_WINDOW)])
  }

  function OutcomeOf(s: Auth, q: Request, cfg: Config, matches: (string, string) -> bool,
      fingerprint: string -> string): Outcome {
    if !Charged(s, q, cfg, matches, fingerprint) then Unauthorized
    else if cfg.rateMax > 0 && Bump(Find(s.rate, q.row.value.id), q.now, RATE_WINDOW).count > cfg.rateMax
    then RateLimited
    else Serve
  }

  function Run(qs: seq<Request>, cfg: Config, matches: (string, string) -> bool, fingerprint: string -> string): Auth {
    if qs == [] then IDLE else
      After(Run(qs[..|qs| - 1], cfg, matches, fingerprint), qs[|qs| - 1], cfg, matches, fingerprint)
  }

  /** As written, over the cache object and the three counters. */
  class Authenticator {
    const cache: VerifiedCache
    var rate: map<string, Counter>
    var failed: map<string, Counter>
    var lastHash: map<string, int>

    constructor ()
      ensures fresh(cache) && State() == IDLE
    {
      cache := new VerifiedCache();
      rate, failed, lastHash := map[], map[], map[];
    }

    function State(): Auth
      reads this, cache
    {
      Auth(cache.Contents(), rate, failed, lastHash)
    }

    method BumpRate(k: string, now: int) returns (count: nat)
      modifies this`rate
      ensures rate == old(rate)[k := Bump(Find(old(rate), k), now, RATE_WINDOW)] && count == rate[k].count
    {
      if k !in rate || now > rate[k].resetAt {
        rate := rate[k := Counter(1, now + RATE_WINDOW)];
      } else {
        rate := rate[k := Counter(rate[k].count + 1, rate[k].resetAt)];
      }
      count := rate[k].count;
    }

    /** Whether a hash may be spent on this prefix; if so, that it is spent now. */
    method MayHash(prefix: string, now: int, cfg: Config) returns (ok: bool)
      modifies this`lastHash
      ensures ok == !Refuses(FailsOf(old(State()), prefix), now, cfg.failedMax, cfg.reserve)
      ensures lastHash == if ok then old(lastHash)[prefix := now] else old(lastHash)
    {
      var since := now - (if prefix in lastHash then lastHash[prefix] else 0);
      var over := cfg.failedMax > 0 && prefix in failed && failed[prefix].resetAt > now
        && failed[prefix].count >= cfg.failedMax;
      if over && since < cfg.reserve { return false; }
      lastHash := lastHash[prefix := now];
      ok := true;
    }

    /** The slow check, within its budget: a failure is counted, and a success remembered. */
    method SlowCheck(q: Request, cfg: Config, matches: (string, string) -> bool, fingerprint: string -> string)
        returns (ok: bool)
      requires Live(q)
      modifies this, cache
      ensures
        var s, row, fp := old(State()), q.row.value, fingerprint(q.raw);
        var refused := Refuses(FailsOf(s, q.prefix), q.now, cfg.failedMax, cfg.reserve);
        && ok == (!refused && matches(q.raw, row.secretHash))
        && State() ==
          if ok then
            s.(cache := Remember(s.cache, q.now, q.prefix, row.id, row.secretHash, fp),
               lastHash := s.lastHash - {q.prefix}, failed := s.failed - {q.prefix})
          else if refused then s
          else
            s.(lastHash := s.lastHash[q.prefix := q.now],
               failed := s.failed[q.prefix := Bump(Find(s.failed, q.prefix), q.now, FAILED_WINDOW)])
    {
      hide Remember, Bump, Refuses, FailsOf;
      var prefix, key := q.prefix, q.row.value;
      ok := MayHash(prefix, q.now, cfg);
      if !ok { return; }
      ok := matches(q.raw, key.secretHash);
      if ok {
        cache.RememberVerification(q.now, prefix, key.id, key.secretHash, fingerprint(q.raw));
        failed := failed - {prefix};
        lastHash := lastHash - {prefix};
        assert lastHash == old(lastHash) - {prefix};
      } else {
        failed := failed[prefix := Bump(Find(failed, prefix), q.now, FAILED_WINDOW)];
      }
    }

    /** The cache first, and the slow check only for what it does not answer. */
    method CheckSecret(q: Request, cfg: Config, matches: (string, string) -> bool, fingerprint: string -> string)
        returns (ok: bool)
      requires Live(q)
      modifies this, cache
      ensures State() == Judged(old(State()), q, cfg, matches, fingerprint)
      ensures ok == Verified(Verify(old(State()), q, cfg, matches, fingerprint))
    {
      hide Look, Remember, Hit, Bump, Refuses;
      var key := q.row.value;
      ok := cache.Cached(q.now, q.prefix, key.id, key.secretHash, fingerprint(q.raw));
      if !ok { ok := SlowCheck(q, cfg, matches, fingerprint); }
    }

    method RequirePrincipal(q: Request, cfg: Config, matches: (string, string) -> bool,
        fingerprint: string -> string) returns (outcome: Outcome)
      requires q.Request?
      modifies this, cache
      ensures State() == After(old(State()), q, cfg, matches, fingerprint)
      ensures outcome == OutcomeOf(old(State()), q, cfg, matches, fingerprint)
    {
      hide Verify, Bump;
      if q.row.None? || !q.row.value.live { UnknownFails(State(), q, cfg, matches, fingerprint); return Unauthorized; }
      var key := q.row.value;
      var ok := CheckSecret(q, cfg, matches, fingerprint);
      if !ok || !key.userActive { return Unauthorized; }
      RateStays(old(State()), q, cfg, matches, fingerprint);
      var count := BumpRate(key.id, q.now);
      outcome := if cfg.rateMax > 0 && count > cfg.rateMax then RateLimited else Serve;
    }
  }

  lemma {:induction false} UnknownFails(s: Auth, q: Request, cfg: Config, matches: (string, string) -> bool,
      fingerprint: string -> string)
    requires q.Request? && !Live(q)
    ensures After(s, q, cfg, matches, fingerprint) == s
    ensures OutcomeOf(s, q, cfg, matches, fingerprint) == Unauthorized
  {
  }

  lemma {:induction false} RateStays(s: Auth, q: Request, cfg: Config, matches: (string, string) -> bool,
      fingerprint: string -> string)
    ensures Judged(s, q, cfg, matches, fingerprint).rate == s.rate
  {
  }

  // --- the cache against the slow check -----------------------------------------------------

  lemma {:induction false} RequestKeepsCache(s: Auth, q: Request, cfg: Config, matches: (string, string) -> bool,
      fingerprint: string -> string)
    requires Sound(s.cache, matches, fingerprint)
    ensures Sound(After(s, q, cfg, matches, fingerprint).cache, matches, fingerprint)
  {
    hide Sound, Look, Remember, Hit, Delete;
    if q.Invalidation? {
      DeleteSound(s.cache, q.prefix, matches, fingerprint);
    } else if Live(q) {
      var row, fp := q.row.value, fingerprint(q.raw);
      LookKeeps(s.cache, q.now, q.prefix, row.id, row.secretHash, fp, matches, fingerprint);
      if matches(q.raw, row.secretHash) {
        RememberKeeps(Look(s.cache, q.now, q.prefix, row.id, row.secretHash, fp), q.now, q.prefix, row.id,
          row.secretHash, q.raw, matches, fingerprint);
      }
    }
  }

  lemma {:induction false} CacheStaysSound(qs: seq<Request>, cfg: Config, matches: (string, string) -> bool,
      fingerprint: string -> string)
    ensures Sound(Run(qs, cfg, matches, fingerprint).cache, matches, fingerprint)
  {
    if qs != [] {
      CacheStaysSound(qs[..|qs| - 1], cfg, matches, fingerprint);
      hide Sound;
      RequestKeepsCache(Run(qs[..|qs| - 1], cfg, matches, fingerprint), qs[|qs| - 1], cfg, matches, fingerprint);
    }
  }

  /**
   * After any requests whatever, a request verifies exactly when its row is live, its
   * secret passes the slow check against the hash the row has now, and it is not
   * refused over budget: what the cache answers never differs from the slow check.
   */
  lemma {:induction false} CacheAgreesWithSlowCheck(qs: seq<Request>, q: Request, cfg: Config,
      matches: (string, string) -> bool, fingerprint: string -> string)
    requires Injective(fingerprint)
    ensures
      var s := Run(qs, cfg, matches, fingerprint);
      var v := Verify(s, q, cfg, matches, fingerprint);
      && |s.cache.entries| <= VERIFIED_MAX_ENTRIES
      && (Verified(v) <==> Live(q) && matches(q.raw, q.row.value.secretHash) && v != RefusedUnhashed)
  {
    CacheStaysSound(qs, cfg, matches, fingerprint);
    var s := Run(qs, cfg, matches, fingerprint);
    if Verify(s, q, cfg, matches, fingerprint) == FromCache {
      HitMatches(s.cache, q.now, q.prefix, q.row.value.id, q.row.value.secretHash, q.raw, matches, fingerprint);
    }
  }

  // --- how long a verification lasts -----------------------------------------------------------

  /** A verification of this entry's secret, and nothing invalidated since. */
  predicate Attests(qs: seq<Request>, i: nat, p: string, e: Entry, cfg: Config, matches: (string, string) -> bool,
      fingerprint: string -> string) {
    && i < |qs| && Live(qs[i])
      && Verified(Verify(Run(qs[..i], cfg, matches, fingerprint), qs[i], cfg, matches, fingerprint))
    && qs[i].prefix == p && e == Entry(qs[i].row.value.id, qs[i].row.value.secretHash, fingerprint(qs[i].raw),
                                       qs[i].now + 60000)
    && forall j :: i < j < |qs| ==> qs[j] != Invalidation(qs[j].now, p)
  }

  /** The cache after a request, by its verdict. */
  lemma {:induction false} CacheAfter(s: Auth, q: Request, cfg: Config, matches: (string, string) -> bool,
      fingerprint: string -> string)
    ensures
      var cache, v := After(s, q, cfg, matches, fingerprint).cache, Verify(s, q, cfg, matches, fingerprint);
      if q.Invalidation? then cache == Delete(s.cache, q.prefix)
      else if !Live(q) then cache == s.cache
      else
        var row, fp := q.row.value, fingerprint(q.raw);
        var looked := Look(s.cache, q.now, q.prefix, row.id, row.secretHash, fp);
        && cache == (if v == Hashed then Remember(looked, q.now, q.prefix, row.id, row.secretHash, fp) else looked)
        && (v == FromCache <==> Hit(s.cache, q.now, q.prefix, row.id, row.secretHash, fp))
  {
    hide Look, Remember, Delete, Hit, Bump, Refuses, FailsOf;
  }

  lemma {:induction false} EntryStep(s: Auth, q: Request, p: string, cfg: Config, matches: (string, string) -> bool,
      fingerprint: string -> string)
    ensures
      var entries := After(s, q, cfg, matches, fingerprint).cache.entries;
      p in entries ==>
        || (q != Invalidation(q.now, p) && p in s.cache.entries && entries[p] == s.cache.entries[p])
        || (q.prefix == p && Live(q) && Verified(Verify(s, q, cfg, matches, fingerprint))
            && entries[p] == Entry(q.row.value.id, q.row.value.secretHash, fingerprint(q.raw), q.now + 60000))
  {
    if Live(q) {
      var row, fp := q.row.value, fingerprint(q.raw);
      var looked := Look(s.cache, q.now, q.prefix, row.id, row.secretHash, fp);
      LookEntry(s.cache, q.now, q.prefix, row.id, row.secretHash, fp, p);
      RememberEntry(looked, q.now, q.prefix, row.id, row.secretHash, fp, p);
    } else {
      DeleteEntries(s.cache, q.prefix);
    }
    CacheAfter(s, q, cfg, matches, fingerprint);
    hide Look, Remember, Delete, Hit, After, Verify;
  }

  lemma {:induction false} JustAttested(qs: seq<Request>, p: string, e: Entry, cfg: Config,
      matches: (string, string) -> bool, fingerprint: string -> string)
    requires qs != []
    requires
      var s, q := Run(qs[..|qs| - 1], cfg, matches, fingerprint), qs[|qs| - 1];
      && q.prefix == p && Live(q) && Verified(Verify(s, q, cfg, matches, fingerprint))
      && e == Entry(q.row.value.id, q.row.value.secretHash, fingerprint(q.raw), q.now + 60000)
    ensures Attests(qs, |qs| - 1, p, e, cfg, matches, fingerprint)
  {
    hide Run, Verify;
  }

  lemma {:induction false} RunStep(qs: seq<Request>, cfg: Config, matches: (string, string) -> bool,
      fingerprint: string -> string)
    ensures Run(qs, cfg, matches, fingerprint)
      == if qs == [] then IDLE
         else After(Run(qs[..|qs| - 1], cfg, matches, fingerprint), qs[|qs| - 1], cfg, matches, fingerprint)
  {
    hide After;
  }

  lemma {:induction false} EntriesAttested(qs: seq<Request>, p: string, cfg: Config,
      matches: (string, string) -> bool, fingerprint: string -> string) returns (i: nat)
    requires p in Run(qs, cfg, matches, fingerprint).cache.entries
    ensures Attests(qs, i, p, Run(qs, cfg, matches, fingerprint).cache.entries[p], cfg, matches, fingerprint)
    decreases |qs|
  {
    NotIdle(qs, p, cfg, matches, fingerprint);
    hide *;
    RunStep(qs, cfg, matches, fingerprint);
    var init, q := qs[..|qs| - 1], qs[|qs| - 1];
    assert qs == init + [q];
    var s, e := Run(init, cfg, matches, fingerprint), Run(qs, cfg, matches, fingerprint).cache.entries[p];
    EntryStep(s, q, p, cfg, matches, fingerprint);
    if q.prefix == p && Live(q) && Verified(Verify(s, q, cfg, matches, fingerprint))
      && e == Entry(q.row.value.id, q.row.value.secretHash, fingerprint(q.raw), q.now + 60000) {
      JustAttested(qs, p, e, cfg, matches, fingerprint);
      i := |qs| - 1;
    } else {
      i := EntriesAttested(init, p, cfg, matches, fingerprint);
      StillAttested(init, q, i, p, e, cfg, matches, fingerprint);
    }
  }

  lemma {:induction false} NotIdle(qs: seq<Request>, p: string, cfg: Config,
      matches: (string, string) -> bool, fingerprint: string -> string)
    requires p in Run(qs, cfg, matches, fingerprint).cache.entries
    ensures qs != []
  {
  }

  lemma {:induction false} StillAttested(qs: seq<Request>, q: Request, i: nat, p: string, e: Entry, cfg: Config,
      matches: (string, string) -> bool, fingerprint: string -> string)
    requires Attests(qs, i, p, e, cfg, matches, fingerprint) && q != Invalidation(q.now, p)
    ensures Attests(qs + [q], i, p, e, cfg, matches, fingerprint)
  {
    hide Run, Verify, Live;
    assert (qs + [q])[..i] == qs[..i] && (qs + [q])[i] == qs[i];
  }

  /**
   * What the cache answers was verified less than a minute before: the same secret, for the
   * same key and hash, with nothing invalidated on its prefix since.
   */
  lemma {:induction false} CachedWasVerified(qs: seq<Request>, q: Request, cfg: Config,
      matches: (string, string) -> bool, fingerprint: string -> string) returns (i: nat)
    requires Injective(fingerprint)
      && Verify(Run(qs, cfg, matches, fingerprint), q, cfg, matches, fingerprint) == FromCache
    ensures i < |qs| && Live(qs[i]) && q.row.Some?
    ensures Verified(Verify(Run(qs[..i], cfg, matches, fingerprint), qs[i], cfg, matches, fingerprint))
    ensures qs[i].prefix == q.prefix && qs[i].raw == q.raw && q.now < qs[i].now + 60000
    ensures qs[i].row.value.id == q.row.value.id && qs[i].row.value.secretHash == q.row.value.secretHash
    ensures forall j :: i < j < |qs| ==> qs[j] != Invalidation(qs[j].now, q.prefix)
  {
    i := EntriesAttested(qs, q.prefix, cfg, matches, fingerprint);
    hide Run, Refuses, FailsOf;
  }

  /** And for that minute the same secret is answered from the cache, whatever has been spent. */
  lemma {:induction false} VerifiedIsCached(s: Auth, q: Request, again: Request, cfg: Config,
      matches: (string, string) -> bool, fingerprint: string -> string)
    requires Live(q) && Verified(Verify(s, q, cfg, matches, fingerprint)) && Live(again)
    requires again.prefix == q.prefix && again.raw == q.raw && again.now < q.now + 60000
    requires again.row.value.id == q.row.value.id && again.row.value.secretHash == q.row.value.secretHash
    ensures Verify(After(s, q, cfg, matches, fingerprint), again, cfg, matches, fingerprint) == FromCache
  {
    hide Forget, Bump, Refuses, FailsOf;
  }

  /** Requests on other prefixes leave an entry alone, but for one that takes the place of the oldest of a thousand. */
  lemma {:induction false} OthersLeaveEntry(s: Auth, q: Request, p: string, cfg: Config,
      matches: (string, string) -> bool, fingerprint: string -> string)
    requires q.prefix != p && p in s.cache.entries && |s.cache.entries| <= 1000
    requires |s.cache.entries| < 1000 || s.cache.order == [] || s.cache.order[0] != p
      || Verify(s, q, cfg, matches, fingerprint) != Hashed
    ensures
      var entries := After(s, q, cfg, matches, fingerprint).cache.entries;
      p in entries && entries[p] == s.cache.entries[p]
  {
    if Live(q) {
      var row, fp := q.row.value, fingerprint(q.raw);
      var looked := Look(s.cache, q.now, q.prefix, row.id, row.secretHash, fp);
      LookLeaves(s.cache, q.now, q.prefix, row.id, row.secretHash, fp, p);
      RememberLeaves(looked, q.now, q.prefix, row.id, row.secretHash, fp, p);
    } else {
      DeleteEntries(s.cache, q.prefix);
    }
    hide Look, Remember, Delete, Hit, Bump, Refuses, FailsOf;
  }

  /** Once the reserve interval has passed since a prefix last cost a hash, no attempt on it is refused unhashed. */
  lemma {:induction false} ReserveAlwaysOpens(s: Auth, q: Request, cfg: Config, matches: (string, string) -> bool,
      fingerprint: string -> string)
    requires q.now - (if q.prefix in s.lastHash then s.lastHash[q.prefix] else 0) >= cfg.reserve
    ensures Verify(s, q, cfg, matches, fingerprint) != RefusedUnhashed
  {
  }

  // --- the budgets over whole runs -----------------------------------------------------------

  /** The times at which a key's verified requests came. */
  function ChargedAt(qs: seq<Request>, k: string, cfg: Config, matches: (string, string) -> bool,
      fingerprint: string -> string): seq<int> {
    if qs == [] then [] else
      var init, q := qs[..|qs| - 1], qs[|qs| - 1];
      ChargedAt(init, k, cfg, matches, fingerprint)
        + if Charged(Run(init, cfg, matches, fingerprint), q, cfg, matches, fingerprint) && q.row.value.id == k
          then [q.now] else []
  }

  /** The times at which it was served. */
  function ServedAt(qs: seq<Request>, k: string, cfg: Config, matches: (string, string) -> bool,
      fingerprint: string -> string): seq<int> {
    if qs == [] then [] else
      var init, q := qs[..|qs| - 1], qs[|qs| - 1];
      ServedAt(init, k, cfg, matches, fingerprint)
        + if OutcomeOf(Run(init, cfg, matches, fingerprint), q, cfg, matches, fingerprint) == Serve
             && q.row.value.id == k
          then [q.now] else []
  }

  predicate ClockRuns(qs: seq<Request>) {
    forall i, j :: 0 <= i <= j < |qs| ==> qs[i].now <= qs[j].now
  }

  lemma {:induction false} RateStep(s: Auth, q: Request, k: string, cfg: Config, matches: (string, string) -> bool,
      fingerprint: string -> string)
    ensures Find(After(s, q, cfg, matches, fingerprint).rate, k)
      == if Charged(s, q, cfg, matches, fingerprint) && q.row.value.id == k
         then Some(Bump(Find(s.rate, k), q.now, RATE_WINDOW))
         else Find(s.rate, k)
    ensures OutcomeOf(s, q, cfg, matches, fingerprint) == Serve <==>
      Charged(s, q, cfg, matches, fingerprint)
      && !(cfg.rateMax > 0 && Bump(Find(s.rate, q.row.value.id), q.now, RATE_WINDOW).count > cfg.rateMax)
  {
  }

  lemma {:induction false} RateIsPerKey(qs: seq<Request>, k: string, cfg: Config,
      matches: (string, string) -> bool, fingerprint: string -> string)
    requires cfg.rateMax > 0
    ensures Find(Run(qs, cfg, matches, fingerprint).rate, k)
      == RateAfter(ChargedAt(qs, k, cfg, matches, fingerprint), RATE_WINDOW)
    ensures ServedAt(qs, k, cfg, matches, fingerprint)
      == Served(ChargedAt(qs, k, cfg, matches, fingerprint), RATE_WINDOW, cfg.rateMax)
  {
    if qs != [] {
      var init, q := qs[..|qs| - 1], qs[|qs| - 1];
      RateIsPerKey(init, k, cfg, matches, fingerprint);
      var s, times := Run(init, cfg, matches, fingerprint), ChargedAt(init, k, cfg, matches, fingerprint);
      RateStep(s, q, k, cfg, matches, fingerprint);
      hide After, OutcomeOf, Charged, Bump, Find;
      assert (times + [q.now])[..|times|] == times;
      assert times + [] == times;
      assert Served(times, RATE_WINDOW, cfg.rateMax) + [] == Served(times, RATE_WINDOW, cfg.rateMax);
    }
  }

  lemma {:induction false} ChargedInOrder(qs: seq<Request>, k: string, cfg: Config,
      matches: (string, string) -> bool, fingerprint: string -> string)
    requires ClockRuns(qs)
    ensures Monotone(ChargedAt(qs, k, cfg, matches, fingerprint))
    ensures forall i :: 0 <= i < |ChargedAt(qs, k, cfg, matches, fingerprint)| ==>
      qs != [] && ChargedAt(qs, k, cfg, matches, fingerprint)[i] <= qs[|qs| - 1].now
  {
    if qs != [] {
      ChargedInOrder(qs[..|qs| - 1], k, cfg, matches, fingerprint);
      hide Run, Charged;
    }
  }

  /** However requests for all keys were mixed, no key is served more than twice its allowance in any minute. */
  lemma {:induction false} NoKeyOverserved(qs: seq<Request>, k: string, cfg: Config,
      matches: (string, string) -> bool, fingerprint: string -> string, a: int)
    requires ClockRuns(qs) && cfg.rateMax > 0
    ensures CountIn(ServedAt(qs, k, cfg, matches, fingerprint), a, a + RATE_WINDOW) <= 2 * cfg.rateMax
  {
    RateIsPerKey(qs, k, cfg, matches, fingerprint);
    ChargedInOrder(qs, k, cfg, matches, fingerprint);
    RateBound(ChargedAt(qs, k, cfg, matches, fingerprint), RATE_WINDOW, cfg.rateMax, a);
  }

  // --- a budget refuses nobody before it is spent ---------------------------------------------

  /** The wrong secrets hashed on a prefix since its last verification by hash. */
  function WrongAt(qs: seq<Request>, p: string, cfg: Config, matches: (string, string) -> bool,
      fingerprint: string -> string): seq<int> {
    if qs == [] then [] else
      var init, q := qs[..|qs| - 1], qs[|qs| - 1];
      var v := Verify(Run(init, cfg, matches, fingerprint), q, cfg, matches, fingerprint);
      var wrong := WrongAt(init, p, cfg, matches, fingerprint);
      if q.prefix != p then wrong else if v == WrongSecret then wrong + [q.now] else if v == Hashed then [] else wrong
  }

  lemma {:induction false} FailsStep(s: Auth, q: Request, p: string, cfg: Config, matches: (string, string) -> bool,
      fingerprint: string -> string)
    ensures
      var v, f := Verify(s, q, cfg, matches, fingerprint), FailsOf(s, p);
      FailsOf(After(s, q, cfg, matches, fingerprint), p)
        == if q.prefix != p then f
           else if v == WrongSecret then Fails(Some(Bump(f.counter, q.now, 60000)), Some(q.now))
           else if v == Hashed then CLEAN
           else f
  {
    hide Look, Remember, Delete, Hit, Refuses, Bump;
  }

  function Last(times: seq<int>): Option<int> {
    if times == [] then None else Some(times[|times| - 1])
  }

  /** What is remembered about a prefix is its history of wrong secrets. */
  lemma {:induction false} FailsAreHistory(qs: seq<Request>, p: string, cfg: Config,
      matches: (string, string) -> bool, fingerprint: string -> string)
    ensures
      var wrong := WrongAt(qs, p, cfg, matches, fingerprint);
      FailsOf(Run(qs, cfg, matches, fingerprint), p) == Fails(RateAfter(wrong, 60000), Last(wrong))
  {
    if qs != [] {
      var init, q := qs[..|qs| - 1], qs[|qs| - 1];
      FailsAreHistory(init, p, cfg, matches, fingerprint);
      var s, wrong := Run(init, cfg, matches, fingerprint), WrongAt(init, p, cfg, matches, fingerprint);
      FailsStep(s, q, p, cfg, matches, fingerprint);
      hide After, Verify, FailsOf, Bump;
      assert (wrong + [q.now])[..|wrong|] == wrong;
    }
  }

  lemma {:induction false} WrongInOrder(qs: seq<Request>, p: string, cfg: Config, matches: (string, string) -> bool,
      fingerprint: string -> string)
    requires ClockRuns(qs)
    ensures Monotone(WrongAt(qs, p, cfg, matches, fingerprint))
    ensures forall i :: 0 <= i < |WrongAt(qs, p, cfg, matches, fingerprint)| ==>
      qs != [] && WrongAt(qs, p, cfg, matches, fingerprint)[i] <= qs[|qs| - 1].now
  {
    if qs != [] {
      WrongInOrder(qs[..|qs| - 1], p, cfg, matches, fingerprint);
      hide Run, Verify;
    }
  }

  /** At this instant the last window of these events is open, and holds at least so many of them. */
  predicate Spent(times: seq<int>, now: int, max: int) {
    times != [] && now < Opening(times, 60000) + 60000 && CountIn(times, Opening(times, 60000), now) >= max
  }

  lemma {:induction false} SpentIsOver(times: seq<int>, now: int, max: int)
    requires Monotone(times) && (times != [] ==> times[|times| - 1] <= now)
    ensures Over(RateAfter(times, 60000), now, max) <==> max > 0 && Spent(times, now, max)
  {
    if times != [] {
      CounterCounts(times, 60000, now);
      hide RateAfter, Opening, CountIn;
    }
  }

  /**
   * After any requests, a live one is refused unhashed exactly when the cache does not answer
   * it, `failedMax` wrong secrets have been hashed on its prefix since its last verification in
   * the minute that the first of them opened and that is not over, and the last of them was
   * hashed less than the reserve ago.
   */
  lemma {:induction false} RefusedIff(qs: seq<Request>, q: Request, cfg: Config, matches: (string, string) -> bool,
      fingerprint: string -> string)
    requires ClockRuns(qs + [q])
    ensures
      var s, wrong := Run(qs, cfg, matches, fingerprint), WrongAt(qs, q.prefix, cfg, matches, fingerprint);
      Verify(s, q, cfg, matches, fingerprint) == RefusedUnhashed <==>
        && Live(q) && Verify(s, q, cfg, matches, fingerprint) != FromCache
        && cfg.failedMax > 0 && Spent(wrong, q.now, cfg.failedMax) && q.now - wrong[|wrong| - 1] < cfg.reserve
  {
    var wrong := WrongAt(qs, q.prefix, cfg, matches, fingerprint);
    OneMoreInOrder(qs, q);
    FailsAreHistory(qs, q.prefix, cfg, matches, fingerprint);
    WrongInOrder(qs, q.prefix, cfg, matches, fingerprint);
    SpentIsOver(wrong, q.now, cfg.failedMax);
    hide Run, WrongAt, FailsOf, RateAfter, Over, Hit, Spent, ClockRuns;
    if wrong == [] { NothingSpent(q.now, cfg.failedMax); }
  }

  lemma {:induction false} NothingSpent(now: int, max: int)
    ensures !Spent([], now, max) && !Over(RateAfter([], 60000), now, max)
  {
  }

  lemma {:induction false} OneMoreInOrder(qs: seq<Request>, q: Request)
    requires ClockRuns(qs + [q])
    ensures ClockRuns(qs) && (qs != [] ==> qs[|qs| - 1].now <= q.now)
  {
    assert forall i :: 0 <= i < |qs| ==> (qs + [q])[i] == qs[i];
    assert (qs + [q])[|qs|] == q;
  }

  /** The key's verified requests fill its minute exactly when one more of them is limited. */
  lemma {:induction false} LimitedIff(qs: seq<Request>, q: Request, cfg: Config, matches: (string, string) -> bool,
      fingerprint: string -> string)
    requires ClockRuns(qs + [q]) && Charged(Run(qs, cfg, matches, fingerprint), q, cfg, matches, fingerprint)
    ensures
      var times := ChargedAt(qs, q.row.value.id, cfg, matches, fingerprint);
      OutcomeOf(Run(qs, cfg, matches, fingerprint), q, cfg, matches, fingerprint)
        == if cfg.rateMax > 0 && times != [] && q.now <= Opening(times, 60000) + 60000
             && CountIn(times, Opening(times, 60000), q.now) >= cfg.rateMax
           then RateLimited else Serve
  {
    var s, k := Run(qs, cfg, matches, fingerprint), q.row.value.id;
    var times := ChargedAt(qs, k, cfg, matches, fingerprint);
    OneMoreInOrder(qs, q);
    RateStep(s, q, k, cfg, matches, fingerprint);
    if cfg.rateMax > 0 {
      RateIsPerKey(qs, k, cfg, matches, fingerprint);
      ChargedInOrder(qs, k, cfg, matches, fingerprint);
      if times != [] { CounterCounts(times, 60000, q.now); }
    }
    hide Run, ChargedAt, Charged, Find, CountIn, Opening, ClockRuns;
  }

  lemma {:induction false} SpentIsRecent(times: seq<int>, now: int, max: int)
    requires times != [] && now <= Opening(times, 60000) + 60000 && CountIn(times, Opening(times, 60000), now) >= max
    ensures CountIn(times, now - 60000, now) >= max
  {
    CountNarrows(times, Opening(times, 60000), now, now - 60000, now);
  }

  /**
   * The right secret of a live key is served, whatever came before, if fewer than `failedMax`
   * wrong secrets were hashed on its prefix and fewer than `rateMax` of its requests
   * verified in the last minute.
   */
  lemma {:induction false} RightSecretIsServed(qs: seq<Request>, q: Request, cfg: Config,
      matches: (string, string) -> bool, fingerprint: string -> string)
    requires ClockRuns(qs + [q]) && Live(q) && matches(q.raw, q.row.value.secretHash) && q.row.value.userActive
    requires cfg.failedMax > 0 ==>
      CountIn(WrongAt(qs, q.prefix, cfg, matches, fingerprint), q.now - 60000, q.now) < cfg.failedMax
    requires cfg.rateMax > 0 ==>
      CountIn(ChargedAt(qs, q.row.value.id, cfg, matches, fingerprint), q.now - 60000, q.now) < cfg.rateMax
    ensures OutcomeOf(Run(qs, cfg, matches, fingerprint), q, cfg, matches, fingerprint) == Serve
  {
    assert q.row.Some?;
    hide *;
    var s := Run(qs, cfg, matches, fingerprint);
    RightSecretIsHashed(qs, q, cfg, matches, fingerprint);
    MatchesOrRefused(s, q, cfg, matches, fingerprint);
    LimitedIff(qs, q, cfg, matches, fingerprint);
    var times := ChargedAt(qs, q.row.value.id, cfg, matches, fingerprint);
    if times != [] && q.now <= Opening(times, 60000) + 60000
      && CountIn(times, Opening(times, 60000), q.now) >= cfg.rateMax {
      SpentIsRecent(times, q.now, cfg.rateMax);
    }
  }

  lemma {:induction false} RightSecretIsHashed(qs: seq<Request>, q: Request, cfg: Config,
      matches: (string, string) -> bool, fingerprint: string -> string)
    requires ClockRuns(qs + [q])
    requires cfg.failedMax > 0 ==>
      CountIn(WrongAt(qs, q.prefix, cfg, matches, fingerprint), q.now - 60000, q.now) < cfg.failedMax
    ensures Verify(Run(qs, cfg, matches, fingerprint), q, cfg, matches, fingerprint) != RefusedUnhashed
  {
    hide *;
    var wrong := WrongAt(qs, q.prefix, cfg, matches, fingerprint);
    RefusedIff(qs, q, cfg, matches, fingerprint);
    if Verify(Run(qs, cfg, matches, fingerprint), q, cfg, matches, fingerprint) == RefusedUnhashed {
      OpenIsRecent(wrong, q.now, cfg.failedMax);
    }
  }

  lemma {:induction false} OpenIsRecent(times: seq<int>, now: int, max: int)
    requires Spent(times, now, max)
    ensures CountIn(times, now - 60000, now) >= max
  {
    hide Opening, CountIn;
    SpentIsRecent(times, now, max);
  }

  lemma {:induction false} MatchesOrRefused(s: Auth, q: Request, cfg: Config, matches: (string, string) -> bool,
      fingerprint: string -> string)
    requires Live(q) && matches(q.raw, q.row.value.secretHash) && q.row.value.userActive
    ensures Verify(s, q, cfg, matches, fingerprint) == RefusedUnhashed || Charged(s, q, cfg, matches, fingerprint)
  {
    hide Hit, Refuses;
  }

  /** The times of the attempts on a prefix whose row is live. */
  function TriedAt(qs: seq<Request>, p: string): seq<int> {
    if qs == [] then [] else
      TriedAt(qs[..|qs| - 1], p) + if Live(qs[|qs| - 1]) && qs[|qs| - 1].prefix == p then [qs[|qs| - 1].now] else []
  }

  /** Those that cost a hash, in a run that goes on from `before`. */
  function HashedAt(before: seq<Request>, qs: seq<Request>, p: string, cfg: Config,
                    matches: (string, string) -> bool, fingerprint: string -> string): seq<int> {
    if qs == [] then [] else
      var init, q := qs[..|qs| - 1], qs[|qs| - 1];
      var v := Verify(Run(before + init, cfg, matches, fingerprint), q, cfg, matches, fingerprint);
      HashedAt(before, init, p, cfg, matches, fingerprint)
      + if q.prefix == p && (v == Hashed || v == WrongSecret) then [q.now] else []
  }

  predicate Wrong(q: Request, p: string, matches: (string, string) -> bool) {
    Live(q) && q.prefix == p ==> !matches(q.raw, q.row.value.secretHash)
  }

  /** A wrong secret never comes out of the cache. */
  lemma {:induction false} WrongIsNoHit(s: Auth, q: Request, p: string, cfg: Config,
      matches: (string, string) -> bool, fingerprint: string -> string)
    requires Sound(s.cache, matches, fingerprint) && Injective(fingerprint) && Wrong(q, p, matches) && Live(q)
      && q.prefix == p
    ensures Verify(s, q, cfg, matches, fingerprint)
      == if Refuses(FailsOf(s, p), q.now, cfg.failedMax, cfg.reserve) then RefusedUnhashed else WrongSecret
  {
    if Verify(s, q, cfg, matches, fingerprint) == FromCache {
      HitMatches(s.cache, q.now, q.prefix, q.row.value.id, q.row.value.secretHash, q.raw, matches, fingerprint);
    }
    hide Hit, Sound, Injective, FailsOf, Refuses;
  }

  lemma {:induction false} OtherPrefixStays(s: Auth, q: Request, p: string, cfg: Config,
      matches: (string, string) -> bool, fingerprint: string -> string)
    requires !(Live(q) && q.prefix == p)
    ensures FailsOf(After(s, q, cfg, matches, fingerprint), p) == FailsOf(s, p)
  {
    hide Look, Remember, Delete, Hit, Refuses, Bump;
  }

  lemma {:induction false} RequestOnPrefix(s: Auth, q: Request, p: string, cfg: Config,
      matches: (string, string) -> bool, fingerprint: string -> string)
    requires Sound(s.cache, matches, fingerprint) && Injective(fingerprint) && Wrong(q, p, matches)
    ensures FailsOf(After(s, q, cfg, matches, fingerprint), p)
      == if Live(q) && q.prefix == p then FailOnce(FailsOf(s, p), q.now, FAILED_WINDOW, cfg.failedMax, cfg.reserve)
        else FailsOf(s, p)
    ensures Live(q) && q.prefix == p ==>
      (Verify(s, q, cfg, matches, fingerprint) == WrongSecret <==>
        !Refuses(FailsOf(s, p), q.now, cfg.failedMax, cfg.reserve))
      && Verify(s, q, cfg, matches, fingerprint) in {WrongSecret, RefusedUnhashed}
  {
    if Live(q) && q.prefix == p {
      WrongIsNoHit(s, q, p, cfg, matches, fingerprint);
      hide Look, Remember, Delete, Sound, Injective, Verify, Refuses, Bump;
    } else {
      OtherPrefixStays(s, q, p, cfg, matches, fingerprint);
      hide *;
    }
  }

  lemma {:induction false} RunOnward(before: seq<Request>, qs: seq<Request>, p: string, cfg: Config,
                                     matches: (string, string) -> bool, fingerprint: string -> string)
    requires qs != []
    ensures
      var init, q := qs[..|qs| - 1], qs[|qs| - 1];
      var s := Run(before + init, cfg, matches, fingerprint);
      var v := Verify(s, q, cfg, matches, fingerprint);
      && Run(before + qs, cfg, matches, fingerprint) == After(s, q, cfg, matches, fingerprint)
      && HashedAt(before, qs, p, cfg, matches, fingerprint)
           == HashedAt(before, init, p, cfg, matches, fingerprint)
             + (if q.prefix == p && (v == Hashed || v == WrongSecret) then [q.now] else [])
  {
    hide After, Verify;
    assert (before + qs)[..|before + qs| - 1] == before + qs[..|qs| - 1];
  }

  lemma {:induction false} UnknownIsUnhashed(s: Auth, q: Request, cfg: Config, matches: (string, string) -> bool,
      fingerprint: string -> string)
    ensures !Live(q) ==> Verify(s, q, cfg, matches, fingerprint) == UnknownKey
  {
  }

  lemma {:induction false} TryOnward(times: seq<int>, now: int, window: int, max: int, reserve: int)
    ensures FailsAfter(times + [now], window, max, reserve)
      == FailOnce(FailsAfter(times, window, max, reserve), now, window, max, reserve)
    ensures Hashes(times + [now], window, max, reserve)
      == Hashes(times, window, max, reserve)
        + (if Refuses(FailsAfter(times, window, max, reserve), now, max, reserve) then [] else [now])
  {
  }

  lemma {:induction false} FailuresArePerPrefix(before: seq<Request>, qs: seq<Request>, p: string, cfg: Config,
                                                matches: (string, string) -> bool, fingerprint: string -> string)
    requires Injective(fingerprint) && FailsOf(Run(before, cfg, matches, fingerprint), p) == CLEAN
    requires forall i :: 0 <= i < |qs| ==> Wrong(qs[i], p, matches)
    ensures FailsOf(Run(before + qs, cfg, matches, fingerprint), p)
      == FailsAfter(TriedAt(qs, p), FAILED_WINDOW, cfg.failedMax, cfg.reserve)
    ensures HashedAt(before, qs, p, cfg, matches, fingerprint)
      == Hashes(TriedAt(qs, p), FAILED_WINDOW, cfg.failedMax, cfg.reserve)
  {
    hide Sound, Injective, Verify, Wrong, After, FailsOf, FailOnce, Refuses, Run, Live;
    if qs == [] {
      assert before + qs == before;
    } else {
      var init, q := qs[..|qs| - 1], qs[|qs| - 1];
      FailuresArePerPrefix(before, init, p, cfg, matches, fingerprint);
      CacheStaysSound(before + init, cfg, matches, fingerprint);
      var s, times := Run(before + init, cfg, matches, fingerprint), TriedAt(init, p);
      assert TriedAt(qs, p) == times + (if Live(q) && q.prefix == p then [q.now] else []);
      RequestOnPrefix(s, q, p, cfg, matches, fingerprint);
      UnknownIsUnhashed(s, q, cfg, matches, fingerprint);
      RunOnward(before, qs, p, cfg, matches, fingerprint);
      TryOnward(times, q.now, FAILED_WINDOW, cfg.failedMax, cfg.reserve);
      hide HashedAt, Hashes, FailsAfter, TriedAt;
      assert times + [] == times;
    }
  }

  lemma {:induction false} TriedInOrder(qs: seq<Request>, p: string)
    requires ClockRuns(qs)
    ensures Monotone(TriedAt(qs, p))
    ensures forall i :: 0 <= i < |TriedAt(qs, p)| ==> qs != [] && TriedAt(qs, p)[i] <= qs[|qs| - 1].now
  {
    if qs != [] { TriedInOrder(qs[..|qs| - 1], p); }
  }

  /**
   * However requests for all prefixes were mixed: from a clean start, and while its
   * secret is not presented, a prefix costs at most `failedMax` hashes and one more
   * for each reserve interval, within one failure window and before its reset.
   */
  lemma {:induction false} NoPrefixOverworked(before: seq<Request>, qs: seq<Request>, p: string, cfg: Config,
                                              matches: (string, string) -> bool, fingerprint: string -> string)
    requires Injective(fingerprint) && FailsOf(Run(before, cfg, matches, fingerprint), p) == CLEAN
    requires forall i :: 0 <= i < |qs| ==> Wrong(qs[i], p, matches)
    requires ClockRuns(qs) && TriedAt(qs, p) != [] && cfg.failedMax > 0 && cfg.reserve > 0
    ensures
      var tried, failed := TriedAt(qs, p), Run(before + qs, cfg, matches, fingerprint).failed;
      p in failed && tried[|tried| - 1] < failed[p].resetAt ==>
        CountIn(HashedAt(before, qs, p, cfg, matches, fingerprint), failed[p].resetAt - FAILED_WINDOW,
          tried[|tried| - 1])
          <= Allowance(cfg.failedMax, FAILED_WINDOW - 1, cfg.reserve)
  {
    hide Allowance, Wrong, Injective, ClockRuns, TriedAt, HashedAt, Hashes, FailsAfter, CountIn, Run, Monotone;
    FailuresArePerPrefix(before, qs, p, cfg, matches, fingerprint);
    TriedInOrder(qs, p);
    WorkBound(TriedAt(qs, p), FAILED_WINDOW, cfg.failedMax, cfg.reserve);
  }

  /** A verified request gives its prefix that clean start, unless it was answered from the cache. */
  lemma {:induction false} SuccessCleans(s: Auth, q: Request, cfg: Config, matches: (string, string) -> bool,
      fingerprint: string -> string)
    requires Verify(s, q, cfg, matches, fingerprint) == Hashed
    ensures FailsOf(After(s, q, cfg, matches, fingerprint), q.prefix) == CLEAN
  {
  }
}
