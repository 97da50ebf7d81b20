/**
 * Fixed-window counters: what the rate limit serves in any span of time, and what
 * the failure bound lets one prefix cost.
 */
module Budgets {
  import opened Wrappers
  import opened Sequences

  datatype Counter = Counter(count: nat, resetAt: int)

  /** A window lasts until its reset instant, inclusive; then the next bump opens another. */
  function Bump(c: Option<Counter>, now: int, window: int): Counter {
    if c.None? || now > c.value.resetAt then Counter(1, now + window) else Counter(c.value.count + 1, c.value.resetAt)
  }

  /** At the reset instant itself a budget no longer counts as spent. */
  predicate Over(c: Option<Counter>, now: int, max: int) {
    max > 0 && c.Some? && c.value.resetAt > now && c.value.count >= max
  }

  predicate Monotone(times: seq<int>) {
    forall i, j :: 0 <= i <= j < |times| ==> times[i] <= times[j]
  }

  function CountIn(times: seq<int>, a: int, b: int): nat {
    if times == [] then 0 else CountIn(times[..|times| - 1], a, b) + if a <= times[|times| - 1] <= b then 1 else 0
  }

  lemma {:induction false} CountNarrows(times: seq<int>, a: int, b: int, c: int, d: int)
    requires c <= a && b <= d
    ensures CountIn(times, a, b) <= CountIn(times, c, d)
  {
    if times != [] { CountNarrows(times[..|times| - 1], a, b, c, d); }
  }

  lemma {:induction false} CountAppend(times: seq<int>, t: int, a: int, b: int)
    ensures CountIn(times + [t], a, b) == CountIn(times, a, b) + if a <= t <= b then 1 else 0
  {
  }

  lemma {:induction false} CountNone(times: seq<int>, a: int, b: int)
    requires forall i :: 0 <= i < |times| ==> times[i] < a
    ensures CountIn(times, a, b) == 0
  {
    if times != [] { CountNone(times[..|times| - 1], a, b); }
  }

  // --- the rate limit ----------------------------------------------------------------------

  function RateAfter(times: seq<int>, window: int): Option<Counter> {
    if times == [] then None else Some(Bump(RateAfter(times[..|times| - 1], window), times[|times| - 1], window))
  }

  /** The times, of those at which a verified request came, at which it was served. */
  function Served(times: seq<int>, window: int, max: int): seq<int> {
    if times == [] then [] else
      Served(times[..|times| - 1], window, max)
        + if max > 0 && RateAfter(times, window).value.count > max then [] else [times[|times| - 1]]
  }

  function Min(a: int, b: int): int {
    if a < b then a else b
  }

  /** Served since the current window opened, and since one window before that. */
  predicate Within(c: Counter, served: seq<int>, now: int, window: int, max: int, far: int) {
    var start := c.resetAt - window;
    && start <= now <= c.resetAt
    && CountIn(served, start, far) <= Min(c.count, max)
    && CountIn(served, start - window, far) <= max + Min(c.count, max)
  }

  lemma {:induction false} OneMore(times: seq<int>, window: int, max: int)
    requires times != [] && max > 0
    ensures
      var init, now := times[..|times| - 1], times[|times| - 1];
      var c := Bump(RateAfter(init, window), now, window);
      && RateAfter(times, window) == Some(c)
      && Served(times, window, max) == Served(init, window, max) + if c.count > max then [] else [now]
  {
  }

  lemma {:induction false} NothingServed(window: int, max: int, a: int, b: int)
    ensures RateAfter([], window) == None && CountIn(Served([], window, max), a, b) == 0
  {
  }

  lemma {:induction false} CountMaybe(times: seq<int>, t: int, keep: bool, a: int, b: int)
    ensures CountIn(times + (if keep then [t] else []), a, b)
      == CountIn(times, a, b) + if keep && a <= t <= b then 1 else 0
  {
    CountAppend(times, t, a, b);
    assert times + [] == times;
  }

  lemma {:induction false} SameWindow(c: Counter, served: seq<int>, was: int, now: int, window: int, max: int, far: int)
    requires Within(c, served, was, window, max, far) && was <= now <= c.resetAt && now <= far && max > 0 && window > 0
    ensures
      var next := Counter(c.count + 1, c.resetAt);
      Within(next, served + (if next.count <= max then [now] else []), now, window, max, far)
  {
    CountMaybe(served, now, c.count + 1 <= max, c.resetAt - window, far);
    CountMaybe(served, now, c.count + 1 <= max, c.resetAt - window - window, far);
    hide CountIn;
  }

  lemma {:induction false} NewWindow(served: seq<int>, now: int, window: int, max: int, far: int)
    requires CountIn(served, now, far) == 0 && CountIn(served, now - window, far) <= max && now <= far && max > 0
      && window > 0
    ensures Within(Counter(1, now + window), served + (if 1 <= max then [now] else []), now, window, max, far)
  {
    CountMaybe(served, now, 1 <= max, now, far);
    CountMaybe(served, now, 1 <= max, now - window, far);
    hide CountIn;
  }

  lemma {:induction false} TwoWindows(times: seq<int>, window: int, max: int, far: int)
    requires Monotone(times) && times != [] && max > 0 && window > 0 && times[|times| - 1] <= far
    ensures Within(RateAfter(times, window).value, Served(times, window, max), times[|times| - 1], window, max, far)
  {
    var init, now := times[..|times| - 1], times[|times| - 1];
    OneMore(times, window, max);
    if init == [] {
      NothingServed(window, max, now, far);
      NothingServed(window, max, now - window, far);
      hide Within, Served, CountIn;
      NewWindow(Served(init, window, max), now, window, max, far);
    } else {
      TwoWindows(init, window, max, far);
      var was, last := RateAfter(init, window).value, init[|init| - 1];
      assert last <= now && Monotone(init);
      hide Served, RateAfter, Monotone;
      if now > was.resetAt {
        NoneServedFrom(init, window, max, was.resetAt, now, far);
        CountNarrows(Served(init, window, max), now - window, far, was.resetAt - window, far);
        hide CountIn;
        NewWindow(Served(init, window, max), now, window, max, far);
      } else {
        hide CountIn;
        SameWindow(was, Served(init, window, max), last, now, window, max, far);
      }
    }
  }

  lemma {:induction false} NoneServedFrom(times: seq<int>, window: int, max: int, last: int, from: int, far: int)
    requires times != [] && Monotone(times) && times[|times| - 1] <= last < from
    ensures CountIn(Served(times, window, max), from, far) == 0
  {
    ServedEarlier(times, window, max, last);
    CountNone(Served(times, window, max), from, far);
  }

  lemma {:induction false} ServedEarlier(times: seq<int>, window: int, max: int, t: int)
    requires forall i :: 0 <= i < |times| ==> times[i] <= t
    ensures forall i :: 0 <= i < |Served(times, window, max)| ==> Served(times, window, max)[i] <= t
  {
    if times != [] { ServedEarlier(times[..|times| - 1], window, max, t); }
  }

  /** In any span of one window's length, a key is served at most twice its allowance. */
  lemma {:induction false} RateBound(times: seq<int>, window: int, max: int, a: int)
    requires Monotone(times) && max > 0 && window > 0
    ensures CountIn(Served(times, window, max), a, a + window) <= 2 * max
  {
    if times != [] {
      var init, now := times[..|times| - 1], times[|times| - 1];
      if now > a + window {
        RateBound(init, window, max, a);
        CountAppend(Served(init, window, max), now, a, a + window);
        assert Served(init, window, max) + [] == Served(init, window, max);
      } else {
        TwoWindows(times, window, max, a + window);
        var c := RateAfter(times, window).value;
        CountNarrows(Served(times, window, max), a, a + window, c.resetAt - 2 * window, a + window);
      }
    }
  }

  // --- what a counter counts -----------------------------------------------------------------

  /** When the last window of these events was opened: by the first of them that no earlier window covers. */
  function Opening(times: seq<int>, window: int): int
    requires times != []
  {
    var init, now := times[..|times| - 1], times[|times| - 1];
    if init == [] || now > Opening(init, window) + window then now else Opening(init, window)
  }

  /** A counter is the number of the events since its window opened, and that window is still open at the last. */
  lemma {:induction false} CounterCounts(times: seq<int>, window: int, far: int)
    requires Monotone(times) && times != [] && window > 0 && times[|times| - 1] <= far
    ensures
      var start := Opening(times, window);
      && RateAfter(times, window) == Some(Counter(CountIn(times, start, far), start + window))
      && start in times && start <= times[|times| - 1] <= start + window
  {
    var init, now := times[..|times| - 1], times[|times| - 1];
    if init == [] {
      assert times == [now] && CountIn([], now, far) == 0 && RateAfter([], window) == None;
    } else {
      CounterCounts(init, window, far);
      var start := Opening(init, window);
      assert init[|init| - 1] <= now && start in times;
      if now > start + window {
        forall i | 0 <= i < |init| ensures init[i] < now { assert init[i] <= init[|init| - 1]; }
        CountNone(init, now, far);
      }
    }
  }

  // --- the failure bound --------------------------------------------------------------------

  /** What is remembered about one prefix: its failures in this window, and when it last cost a hash. */
  datatype Fails = Fails(counter: Option<Counter>, lastHash: Option<int>)

  const CLEAN := Fails(None, None)

  predicate Refuses(f: Fails, now: int, max: int, reserve: int) {
    Over(f.counter, now, max) && now - (if f.lastHash.Some? then f.lastHash.value else 0) < reserve
  }

  /** An attempt with a wrong secret: refused unhashed, or hashed and counted. */
  function FailOnce(f: Fails, now: int, window: int, max: int, reserve: int): Fails {
    if Refuses(f, now, max, reserve) then f else Fails(Some(Bump(f.counter, now, window)), Some(now))
  }

  function FailsAfter(times: seq<int>, window: int, max: int, reserve: int): Fails {
    if times == [] then CLEAN else
      FailOnce(FailsAfter(times[..|times| - 1], window, max, reserve), times[|times| - 1], window, max, reserve)
  }

  /** The attempts that cost a hash. */
  function Hashes(times: seq<int>, window: int, max: int, reserve: int): seq<int> {
    if times == [] then [] else
      var init, now := times[..|times| - 1], times[|times| - 1];
      Hashes(init, window, max, reserve)
      + if Refuses(FailsAfter(init, window, max, reserve), now, max, reserve) then [] else [now]
  }

  /** Hashes past the allowance take `reserve` each. */
  predicate Gaps(n: int, max: int, reserve: int, span: int) {
    n > max ==> (n - max) * reserve <= span
  }

  lemma {:induction false} GapsGrow(n: int, max: int, reserve: int, span: int, more: int)
    requires Gaps(n, max, reserve, span) && span >= 0 && more >= reserve
    ensures Gaps(n + 1, max, reserve, span + more)
  {
  }

  lemma {:induction false} GapsFew(n: int, max: int, reserve: int, span: int)
    requires n <= max
    ensures Gaps(n, max, reserve, span)
  {
  }

  /**
   * Up to the reset instant: the counter counts the window's hashes, and those past the allowance
   * are `reserve` apart.
   */
  ghost predicate Spaced(f: Fails, hashes: seq<int>, window: int, max: int, reserve: int, far: int) {
    if f.counter.None? then f == CLEAN && hashes == []
    else
      && f.lastHash.Some?
      && var n, reset, last := f.counter.value.count, f.counter.value.resetAt, f.lastHash.value;
      && 1 <= n && reset - window <= last <= reset && last <= far
      && (forall i :: 0 <= i < |hashes| ==> hashes[i] <= last)
      && CountIn(hashes, reset - window, far) == n
      && (last < reset ==> Gaps(n, max, reserve, last - (reset - window)))
  }

  lemma {:induction false} AttemptSpaced(f: Fails, hashes: seq<int>, now: int, window: int, max: int, reserve: int,
      far: int)
    requires Spaced(f, hashes, window, max, reserve, far) && !Refuses(f, now, max, reserve)
    requires max > 0 && window > 0 && reserve > 0 && now <= far && (f.lastHash.Some? ==> f.lastHash.value <= now)
    ensures Spaced(FailOnce(f, now, window, max, reserve), hashes + [now], window, max, reserve, far)
  {
    hide Gaps, CountIn;
    var c := Bump(f.counter, now, window);
    CountAppend(hashes, now, c.resetAt - window, far);
    if f.counter.None? || now > f.counter.value.resetAt {
      CountNone(hashes, now, far);
      GapsFew(1, max, reserve, 0);
    } else {
      var n, last, start := f.counter.value.count, f.lastHash.value, c.resetAt - window;
      if n < max {
        GapsFew(n + 1, max, reserve, now - start);
      } else if now < c.resetAt {
        GapsGrow(n, max, reserve, last - start, now - last);
      }
    }
  }

  lemma {:induction false} AttemptsSpaced(times: seq<int>, window: int, max: int, reserve: int, far: int)
    requires Monotone(times) && max > 0 && window > 0 && reserve > 0
    requires times != [] ==> times[|times| - 1] <= far
    ensures Spaced(FailsAfter(times, window, max, reserve), Hashes(times, window, max, reserve), window, max, reserve,
      far)
    ensures FailsAfter(times, window, max, reserve).lastHash.Some? ==>
      times != [] && FailsAfter(times, window, max, reserve).lastHash.value <= times[|times| - 1]
  {
    if times != [] {
      var init, now := times[..|times| - 1], times[|times| - 1];
      AttemptsSpaced(init, window, max, reserve, far);
      var f, before := FailsAfter(init, window, max, reserve), Hashes(init, window, max, reserve);
      hide Spaced, Gaps, CountIn, Over;
      assert before + [] == before;
      if !Refuses(f, now, max, reserve) { AttemptSpaced(f, before, now, window, max, reserve, far); }
    }
  }

  /** `max`, and one for each whole `reserve` in a span. */
  function Allowance(max: int, span: int, reserve: int): int
    requires reserve > 0
  {
    max + span / reserve
  }

  /**
   * Inside one failure window and before its reset instant, wrong secrets cost a
   * prefix at most its allowance of hashes and one more for each `reserve`.
   */
  lemma {:induction false} WorkBound(times: seq<int>, window: int, max: int, reserve: int)
    requires Monotone(times) && times != [] && max > 0 && window > 0 && reserve > 0
    ensures
      var c := FailsAfter(times, window, max, reserve).counter;
      c.Some? && times[|times| - 1] < c.value.resetAt ==>
        CountIn(Hashes(times, window, max, reserve), c.value.resetAt - window, times[|times| - 1])
          <= Allowance(max, window - 1, reserve)
  {
    hide *;
    var now := times[|times| - 1];
    AttemptsSpaced(times, window, max, reserve, now);
    var f := FailsAfter(times, window, max, reserve);
    if f.counter.Some? && now < f.counter.value.resetAt {
      SpacedBound(f, Hashes(times, window, max, reserve), window, max, reserve, now);
    }
  }

  lemma {:induction false} SpacedBound(f: Fails, hashes: seq<int>, window: int, max: int, reserve: int, now: int)
    requires Spaced(f, hashes, window, max, reserve, now) && reserve > 0
    requires f.counter.Some? && now < f.counter.value.resetAt
    ensures CountIn(hashes, f.counter.value.resetAt - window, now) <= Allowance(max, window - 1, reserve)
  {
    hide Gaps, Allowance, CountIn;
    Fewer(f.counter.value.count, max, reserve, f.lastHash.value - (f.counter.value.resetAt - window), window - 1);
  }

  lemma {:induction false} Fewer(n: int, max: int, reserve: int, span: int, most: int)
    requires Gaps(n, max, reserve, span) && 0 <= span <= most && reserve > 0
    ensures n <= Allowance(max, most, reserve)
  {
    if n > max {
      var q := most / reserve;
      assert most < (q + 1) * reserve;
      if n - max > q { TimesMore(q + 1, n - max, reserve); }
    }
  }
}
