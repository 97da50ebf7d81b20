/**
 * Endpoint health: the consecutive-failure counter, its clock, and the automatic
 * disable, over whole histories of one endpoint.
 */
module EndpointHealth {
  import opened Wrappers

  const AUTO_DISABLE_AFTER: nat := 20
  const AUTO_DISABLE_MIN_AGE := 3600000

  datatype Endpoint = Endpoint(
    active: bool,
    deleted: bool,
    consecutiveFailures: nat,
    consecutiveGuardFailures: nat,
    failingSince: Option<int>,
    lastDeliveryAt: Option<int>,
    disabledAt: Option<int>)

  const REGISTERED := Endpoint(true, false, 0, 0, None, None, None)

  /** How an attempt ended: a 2xx, anything else from the endpoint, the URL guard, or a secret that will not open. */
  datatype Outcome = Accepted | Rejected | Refused | NoSecret

  function FailuresAfter(seen: Endpoint, o: Outcome): nat {
    match o
    case Accepted => 0
    case Rejected => seen.consecutiveFailures + 1
    case _ => seen.consecutiveFailures
  }

  function FailingSinceAfter(seen: Endpoint, o: Outcome, at: int): Option<int> {
    match o
    case Accepted => None
    case Rejected => if seen.failingSince.Some? then seen.failingSince else Some(at)
    case _ => seen.failingSince
  }

  function RunAge(since: Option<int>, at: int): int {
    if since.Some? then at - since.value else 0
  }

  predicate ShouldDisable(seen: Endpoint, o: Outcome, at: int) {
    FailuresAfter(seen, o) >= AUTO_DISABLE_AFTER && RunAge(FailingSinceAfter(seen, o, at), at) >= AUTO_DISABLE_MIN_AGE
  }

  /** The health update: computed from the endpoint as `seen` before the send, written over the current record. */
  function Judge(current: Endpoint, seen: Endpoint, o: Outcome, at: int): Endpoint {
    Endpoint(
      current.active && !ShouldDisable(seen, o, at),
      current.deleted,
      FailuresAfter(seen, o),
      (match o
       case Refused => seen.consecutiveGuardFailures + 1
       case NoSecret => seen.consecutiveGuardFailures
       case _ => 0),
      FailingSinceAfter(seen, o, at),
      Some(at),
      if ShouldDisable(seen, o, at) then Some(at) else current.disabledAt)
  }

  // --- serial histories ------------------------------------------------------------------

  datatype Mark = Attempted(o: Outcome, at: int) | SwitchedOn | SwitchedOff(at: int)

  /** Re-enabling resets the bookkeeping; a change to the status it already has is no change. */
  function MarkOn(e: Endpoint, m: Mark): Endpoint {
    match m
    case Attempted(o, at) => if e.active then Judge(e, e, o, at) else e
    case SwitchedOn =>
      if e.active then e else
        e.(active := true, consecutiveFailures := 0, consecutiveGuardFailures := 0, failingSince := None,
           disabledAt := None)
    case SwitchedOff(at) => if e.active then e.(active := false, disabledAt := Some(at)) else e
  }

  function HealthFrom(e: Endpoint, marks: seq<Mark>): Endpoint {
    if marks == [] then e else MarkOn(HealthFrom(e, marks[..|marks| - 1]), marks[|marks| - 1])
  }

  /** Attempts are made only while the endpoint is active; switching is switching. */
  predicate Lived(marks: seq<Mark>) {
    marks == [] ||
      (var init, m := marks[..|marks| - 1], marks[|marks| - 1];
       Lived(init) && (HealthFrom(REGISTERED, init).active <==> !m.SwitchedOn?))
  }

  /** The times of the failures attributable to the endpoint since its last 2xx or re-enabling. */
  function FailureRun(marks: seq<Mark>): seq<int> {
    if marks == [] then [] else
      var run := FailureRun(marks[..|marks| - 1]);
      match marks[|marks| - 1]
      case Attempted(Accepted, _) => []
      case Attempted(Rejected, at) => run + [at]
      case SwitchedOn => []
      case _ => run
  }

  /** Twenty of them, of which the first is at least an hour old. */
  predicate LongRun(run: seq<int>, at: int) {
    |run| >= 20 && at - run[0] >= 3600000
  }

  /**
   * After every serial history the counter is the number of attributable failures
   * in the current run, its clock is the time of the first of them, and so is
   * absent exactly when the counter is zero.
   */
  lemma {:induction false} CountersAreHistory(marks: seq<Mark>)
    requires Lived(marks)
    ensures
      var e, run := HealthFrom(REGISTERED, marks), FailureRun(marks);
      && e.consecutiveFailures == |run|
      && e.failingSince == (if run == [] then None else Some(run[0]))
      && (e.failingSince.None? <==> e.consecutiveFailures == 0)
  {
    if marks != [] { CountersAreHistory(marks[..|marks| - 1]); }
  }

  /**
   * Refusals by the URL guard since anything else came of an attempt, an unopenable secret aside,
   * or since re-enabling.
   */
  function GuardRun(marks: seq<Mark>): nat {
    if marks == [] then 0
    else
      match marks[|marks| - 1]
      case Attempted(Refused, _) => 1 + GuardRun(marks[..|marks| - 1])
      case Attempted(NoSecret, _) => GuardRun(marks[..|marks| - 1])
      case SwitchedOff(_) => GuardRun(marks[..|marks| - 1])
      case _ => 0
  }

  function LastAttempt(marks: seq<Mark>): Option<int> {
    if marks == [] then None
    else if marks[|marks| - 1].Attempted? then Some(marks[|marks| - 1].at)
    else LastAttempt(marks[..|marks| - 1])
  }

  /** The rest of the bookkeeping: refusals in a row, the last attempt, and since when the endpoint has been off. */
  lemma {:induction false} OtherFieldsAreHistory(marks: seq<Mark>)
    requires Lived(marks)
    ensures
      var e := HealthFrom(REGISTERED, marks);
      && e.consecutiveGuardFailures == GuardRun(marks) && e.lastDeliveryAt == LastAttempt(marks) && !e.deleted
      && (e.active ==> e.disabledAt == None)
      && (!e.active ==> marks != [] && !marks[|marks| - 1].SwitchedOn? && e.disabledAt == Some(marks[|marks| - 1].at))
  {
    if marks != [] {
      OtherFieldsAreHistory(marks[..|marks| - 1]);
      hide ShouldDisable, FailuresAfter, FailingSinceAfter;
    }
  }

  /**
   * An attempt switches the endpoint off exactly when, counting that attempt, the
   * run is long: so an attempt that is refused by the guard can be the one at which
   * a run that was already full comes of age, but adds nothing to it.
   */
  lemma {:induction false} AttemptDisablesIff(marks: seq<Mark>, o: Outcome, at: int)
    requires Lived(marks + [Attempted(o, at)])
    ensures
      var after := marks + [Attempted(o, at)];
      && (!HealthFrom(REGISTERED, after).active <==> LongRun(FailureRun(after), at))
      && (o == Accepted ==> FailureRun(after) == [])
      && (o == Refused || o == NoSecret ==> FailureRun(after) == FailureRun(marks))
  {
    assert (marks + [Attempted(o, at)])[..|marks|] == marks;
    CountersAreHistory(marks);
  }

  /** A disabled endpoint was last switched off by hand, or by an attempt with a long run. */
  lemma {:induction false} DisabledForCause(marks: seq<Mark>)
    requires Lived(marks)
    ensures !HealthFrom(REGISTERED, marks).active <==>
      marks != [] &&
      match marks[|marks| - 1]
      case SwitchedOff(_) => true
      case Attempted(_, at) => LongRun(FailureRun(marks), at)
      case SwitchedOn => false
  {
    if marks != [] {
      var init, m := marks[..|marks| - 1], marks[|marks| - 1];
      assert marks == init + [m];
      if m.Attempted? { AttemptDisablesIff(init, m.o, m.at); }
    }
  }

  function Rejections(marks: seq<Mark>): nat {
    if marks == [] then 0 else
      Rejections(marks[..|marks| - 1]) + match marks[|marks| - 1] case Attempted(Rejected, _) => 1 case _ => 0
  }

  lemma {:induction false} RunIsOfRejections(marks: seq<Mark>)
    ensures |FailureRun(marks)| <= Rejections(marks)
  {
    if marks != [] { RunIsOfRejections(marks[..|marks| - 1]); }
  }

  /** Fewer than twenty rejections, among any number of refusals and unopenable secrets, never disable. */
  lemma {:induction false} FaultsOfOursNeverDisable(marks: seq<Mark>)
    requires Lived(marks) && Rejections(marks) < 20
    requires forall i :: 0 <= i < |marks| ==> !marks[i].SwitchedOff?
    ensures HealthFrom(REGISTERED, marks).active
  {
    if marks != [] {
      var init, m := marks[..|marks| - 1], marks[|marks| - 1];
      assert marks == init + [m];
      assert forall i :: 0 <= i < |init| ==> init[i] == marks[i];
      FaultsOfOursNeverDisable(init);
      RunIsOfRejections(marks);
      if m.Attempted? { AttemptDisablesIff(init, m.o, m.at); }
    }
  }

  // --- two workers -----------------------------------------------------------------------

  lemma {:induction false} LivedBefore(marks: seq<Mark>, k: nat)
    requires Lived(marks) && k <= |marks|
    ensures Lived(marks[..k])
    decreases |marks|
  {
    if k == |marks| {
      assert marks[..k] == marks;
    } else {
      assert marks[..|marks| - 1][..k] == marks[..k];
      LivedBefore(marks[..|marks| - 1], k);
    }
  }

  /**
   * A settlement computed from the endpoint as it was `k` marks into its history asks to disable
   * exactly when the run it saw was long.
   */
  lemma {:induction false} StaleDisablesIff(marks: seq<Mark>, k: nat, o: Outcome, at: int)
    requires Lived(marks) && k <= |marks|
    ensures ShouldDisable(HealthFrom(REGISTERED, marks[..k]), o, at) <==>
      LongRun(FailureRun(marks[..k] + [Attempted(o, at)]), at)
  {
    var seen := marks[..k];
    LivedBefore(marks, k);
    CountersAreHistory(seen);
    assert (seen + [Attempted(o, at)])[..|seen|] == seen;
  }

  predicate IsReset(m: Mark) {
    m.SwitchedOn? || (m.Attempted? && m.o == Accepted)
  }

  /** Without a reset the run only grows, at its end. */
  lemma {:induction false} RunGrows(marks: seq<Mark>, k: nat)
    requires k <= |marks| && forall i :: k <= i < |marks| ==> !IsReset(marks[i])
    ensures FailureRun(marks[..k]) <= FailureRun(marks)
    decreases |marks|
  {
    if k == |marks| {
      assert marks[..k] == marks;
    } else {
      var init := marks[..|marks| - 1];
      assert init[..k] == marks[..k];
      RunGrows(init, k);
    }
  }

  predicate HasReset(marks: seq<Mark>) {
    exists i :: 0 <= i < |marks| && IsReset(marks[i])
  }

  /** After a reset the run is what has come since, whatever was before. */
  lemma {:induction false} RunSinceReset(before: seq<Mark>, since: seq<Mark>)
    requires HasReset(since)
    ensures FailureRun(before + since) == FailureRun(since)
    decreases |since|
  {
    var init, m := since[..|since| - 1], since[|since| - 1];
    assert (before + since)[..|before + since| - 1] == before + init;
    if !IsReset(m) {
      var i :| 0 <= i < |since| && IsReset(since[i]);
      assert IsReset(init[i]);
      RunSinceReset(before, init);
    }
  }

  /**
   * Such a disable is wrong, for the history as it has become, exactly when a 2xx or a
   * re-enabling came after the read and what has failed since then is no long run.
   */
  lemma {:induction false} StaleDisableWrongIff(marks: seq<Mark>, k: nat, o: Outcome, at: int)
    requires Lived(marks) && k <= |marks| && ShouldDisable(HealthFrom(REGISTERED, marks[..k]), o, at)
    ensures !LongRun(FailureRun(marks + [Attempted(o, at)]), at)
      <==> HasReset(marks[k..]) && !LongRun(FailureRun(marks[k..] + [Attempted(o, at)]), at)
  {
    StaleDisablesIff(marks, k, o, at);
    var m := Attempted(o, at);
    if HasReset(marks[k..]) {
      var i :| 0 <= i < |marks[k..]| && IsReset(marks[k..][i]);
      assert IsReset((marks[k..] + [m])[i]);
      RunSinceReset(marks[..k], marks[k..] + [m]);
      assert marks[..k] + (marks[k..] + [m]) == marks + [m];
    } else {
      forall i | k <= i < |marks| ensures !IsReset(marks[i]) { assert !IsReset(marks[k..][i - k]); }
      RunGrows(marks, k);
      assert (marks[..k] + [m])[..k] == marks[..k] && (marks + [m])[..|marks|] == marks;
      assert FailureRun(marks[..k])[0] == FailureRun(marks)[0];
    }
  }

  /** `n` rejections in one instant. */
  function Burst(n: nat): seq<Mark> {
    if n == 0 then [] else Burst(n - 1) + [Attempted(Rejected, 0)]
  }

  lemma {:induction false} RejectedMore(marks: seq<Mark>, at: int)
    requires Lived(marks) && HealthFrom(REGISTERED, marks).active
    ensures
      var more := marks + [Attempted(Rejected, at)];
      Lived(more) && FailureRun(more) == FailureRun(marks) + [at]
  {
    hide HealthFrom;
    assert (marks + [Attempted(Rejected, at)])[..|marks|] == marks;
  }

  lemma {:induction false} BurstLives(n: nat)
    requires n < 20
    ensures |Burst(n)| == n && Lived(Burst(n)) && HealthFrom(REGISTERED, Burst(n)).active && |FailureRun(Burst(n))| == n
    ensures n > 0 ==> FailureRun(Burst(n))[0] == 0
  {
    if n > 0 {
      BurstLives(n - 1);
      var init, m := Burst(n - 1), Attempted(Rejected, 0);
      assert Burst(n) == init + [m];
      RejectedMore(init, 0);
      AttemptDisablesIff(init, Rejected, 0);
      hide Burst, HealthFrom, Lived, FailureRun;
    }
  }

  /**
   * A history in which it happens. One worker reads the endpoint after nineteen
   * rejections; an hour later another settles a 2xx; the first then settles a rejection,
   * and the endpoint is off, with one failure since its last 2xx.
   */
  lemma {:induction false} LostResetHappens()
    ensures
      var k, hour := 19, 3600000;
      var marks := Burst(k) + [Attempted(Accepted, hour)];
      && |Burst(k)| == k && Lived(marks)
      && HealthFrom(REGISTERED, marks).active
      && !Judge(HealthFrom(REGISTERED, marks), HealthFrom(REGISTERED, marks[..k]), Rejected, hour).active
      && FailureRun(marks + [Attempted(Rejected, hour)]) == [hour]
  {
    var k, hour := 19, 3600000;
    BurstLives(k);
    var marks := Burst(k) + [Attempted(Accepted, hour)];
    assert marks[..k] == Burst(k) && marks[..|marks| - 1] == Burst(k);
    AttemptDisablesIff(Burst(k), Accepted, hour);
    CountersAreHistory(Burst(k));
    hide Burst;
    assert (marks + [Attempted(Rejected, hour)])[..|marks|] == marks;
    assert FailureRun(marks) == [];
  }
}
