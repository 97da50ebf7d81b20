/**
 * One dispatcher pass as written: claim, look up, attempt, settle, judge.
 */
module DispatchPass {
  import opened Wrappers
  import opened Deliveries
  import opened EndpointHealth
  import opened Sequences

  /** What the world does to the attempt at one due row: whether its event is found, how the try ends, and when. */
  datatype Weather = Weather(eventFound: bool, outcome: Outcome, claimedAt: int, settledAt: int, delay: int)

  datatype Tables = Tables(rows: map<string, Row>, endpoints: map<string, Endpoint>)

  predicate Deliverable(t: Tables, endpoint: string) {
    endpoint in t.endpoints && t.endpoints[endpoint].active && !t.endpoints[endpoint].deleted
  }

  /** One row of a pass. */
  function Handle(t: Tables, id: string, endpoint: string, worker: string, w: Weather): Tables {
    if id !in t.rows || Claim(t.rows[id], worker, w.claimedAt).None? then t else
      var claimed := Claim(t.rows[id], worker, w.claimedAt).value;
      if !w.eventFound || !Deliverable(t, endpoint) then t.(rows := t.rows[id := Bury(claimed)])
      else
        var e := t.endpoints[endpoint];
        Tables(t.rows[id := Settle(claimed, w.outcome == Accepted, w.settledAt + w.delay)],
               t.endpoints[endpoint := Judge(e, e, w.outcome, w.settledAt)])
  }

  function Pass(t: Tables, due: seq<string>, target: map<string, string>, worker: string, world: seq<Weather>): Tables
    requires |due| == |world| && forall i :: 0 <= i < |due| ==> due[i] in target
  {
    if due == [] then t else
      var n := |due| - 1;
      Handle(Pass(t, due[..n], target, worker, world[..n]), due[n], target[due[n]], worker, world[n])
  }

  /** The attempts a pass makes on one endpoint. */
  function MarksOn(t: Tables, due: seq<string>, target: map<string, string>, worker: string, world: seq<Weather>,
      endpoint: string): seq<Mark>
    requires |due| == |world| && forall i :: 0 <= i < |due| ==> due[i] in target
  {
    if due == [] then [] else
      var n := |due| - 1;
      var before := Pass(t, due[..n], target, worker, world[..n]);
      MarksOn(t, due[..n], target, worker, world[..n], endpoint)
        + if due[n] in before.rows && Claimable(before.rows[due[n]]) && target[due[n]] == endpoint
          && world[n].eventFound && Deliverable(before, endpoint)
          then [Attempted(world[n].outcome, world[n].settledAt)] else []
  }

  /**
   * A pass is serial: it takes each endpoint through the health history of the
   * attempts it makes on it, so what holds of serial histories holds of passes.
   */
  lemma {:induction false} PassIsSerial(t: Tables, due: seq<string>, target: map<string, string>, worker: string,
      world: seq<Weather>, endpoint: string)
    requires |due| == |world| && forall i :: 0 <= i < |due| ==> due[i] in target
    requires endpoint in t.endpoints
    ensures
      var after := Pass(t, due, target, worker, world);
      endpoint in after.endpoints
      && after.endpoints[endpoint]
        == HealthFrom(t.endpoints[endpoint], MarksOn(t, due, target, worker, world, endpoint))
  {
    if due != [] {
      var n := |due| - 1;
      PassIsSerial(t, due[..n], target, worker, world[..n], endpoint);
      var marks := MarksOn(t, due[..n], target, worker, world[..n], endpoint);
      var m := Attempted(world[n].outcome, world[n].settledAt);
      assert (marks + [m])[..|marks|] == marks;
      assert marks + [] == marks;
      hide Judge, Settle;
    }
  }

  function ReclaimAll(t: Tables, before: int): Tables {
    t.(rows := map id | id in t.rows :: Reclaim(t.rows[id], before))
  }

  /** A pass takes back the rows claimed more than two minutes before it, and they keep their attempts and due times. */
  lemma {:induction false} TakesBackAfterTwoMinutes(t: Tables, now: int, id: string)
    requires id in t.rows && t.rows[id].status == Inflight && t.rows[id].claimedAt.Some?
    ensures
      var after, claimedAt := ReclaimAll(t, now - STALE_CLAIM).rows, t.rows[id].claimedAt.value;
      && after.Keys == t.rows.Keys
      && after[id] == if now - claimedAt > 120000
        then Row(Pending, t.rows[id].attempts, t.rows[id].nextAttemptAt, None, None) else t.rows[id]
  {
  }

  /**
   * What becomes of a due row, by the number of its earlier attempts: it is delivered, or
   * it waits for the next of its six attempts, or it is dead after the sixth or for want
   * of its event or of an active endpoint.
   */
  lemma {:induction false} RowByAttempts(t: Tables, id: string, endpoint: string, worker: string, w: Weather)
    requires id in t.rows && t.rows[id].status in {Pending, Failed}
    ensures
      var r, after := t.rows[id], Handle(t, id, endpoint, worker, w).rows;
      var goes := w.eventFound && endpoint in t.endpoints && t.endpoints[endpoint].active
        && !t.endpoints[endpoint].deleted;
      && (forall j :: j in t.rows && j != id ==> j in after && after[j] == t.rows[j]) && after.Keys == t.rows.Keys
      && (!goes ==> after[id] == Row(Dead, r.attempts, r.nextAttemptAt, None, None))
      && (goes && w.outcome == Accepted ==> after[id] == Row(Delivered, r.attempts + 1, r.nextAttemptAt, None, None))
      && (goes && w.outcome != Accepted && r.attempts < 5 ==>
           after[id] == Row(Failed, r.attempts + 1, w.settledAt + w.delay, None, None))
      && (goes && w.outcome != Accepted && r.attempts >= 5 ==>
           after[id] == Row(Dead, r.attempts + 1, r.nextAttemptAt, None, None))
  {
    hide Judge;
  }

  /** How many of the due rows the worker wins. */
  function Won(t: Tables, due: seq<string>, target: map<string, string>, worker: string, world: seq<Weather>): nat
    requires |due| == |world| && forall i :: 0 <= i < |due| ==> due[i] in target
  {
    if due == [] then 0 else
      var n := |due| - 1;
      var before := Pass(t, due[..n], target, worker, world[..n]);
      Won(t, due[..n], target, worker, world[..n])
      + if due[n] in before.rows && Claimable(before.rows[due[n]]) then 1 else 0
  }

  lemma {:induction false} PassLeavesOthers(t: Tables, due: seq<string>, target: map<string, string>, worker: string,
      world: seq<Weather>, id: string)
    requires |due| == |world| && (forall i :: 0 <= i < |due| ==> due[i] in target) && id !in due
    ensures
      var after := Pass(t, due, target, worker, world).rows;
      (id in after <==> id in t.rows) && (id in after ==> after[id] == t.rows[id])
  {
    if due != [] {
      PassLeavesOthers(t, due[..|due| - 1], target, worker, world[..|due| - 1], id);
      hide Judge, Settle;
    }
  }

  /** How many of these rows are there and pending or failed. */
  function Waiting(rows: map<string, Row>, due: seq<string>): nat {
    if due == [] then 0 else
      var id := due[|due| - 1];
      Waiting(rows, due[..|due| - 1]) + if id in rows && rows[id].status in {Pending, Failed} then 1 else 0
  }

  /** Of rows read once each, a pass handles those that are waiting when it begins. */
  lemma {:induction false} HandlesThoseWaiting(t: Tables, due: seq<string>, target: map<string, string>, worker: string,
      world: seq<Weather>)
    requires |due| == |world| && (forall i :: 0 <= i < |due| ==> due[i] in target) && Distinct(due)
    ensures Won(t, due, target, worker, world) == Waiting(t.rows, due)
  {
    if due != [] {
      var n := |due| - 1;
      HandlesThoseWaiting(t, due[..n], target, worker, world[..n]);
      PassLeavesOthers(t, due[..n], target, worker, world[..n], due[n]);
      hide Pass;
    }
  }

  class Dispatcher {
    var rows: map<string, Row>
    var endpoints: map<string, Endpoint>

    constructor (rows: map<string, Row>, endpoints: map<string, Endpoint>)
      ensures this.rows == rows && this.endpoints == endpoints
    {
      this.rows := rows;
      this.endpoints := endpoints;
    }

    function State(): Tables
      reads this
    {
      Tables(rows, endpoints)
    }

    /** `due` is what the due read returned: any rows, in any state by the time they are claimed. */
    method DispatchDue(now: int, due: seq<string>, target: map<string, string>, worker: string,
        world: seq<Weather>) returns (handled: nat)
      requires |due| == |world| && forall i :: 0 <= i < |due| ==> due[i] in target
      modifies this
      ensures
        var start := ReclaimAll(old(State()), now - STALE_CLAIM);
        State() == Pass(start, due, target, worker, world) && handled == Won(start, due, target, worker, world)
    {
      rows := map id | id in rows :: Reclaim(rows[id], now - STALE_CLAIM);
      ghost var start := State();
      handled := 0;
      for i := 0 to |due|
        invariant State() == Pass(start, due[..i], target, worker, world[..i])
        invariant handled == Won(start, due[..i], target, worker, world[..i])
      {
        assert due[..i + 1][..i] == due[..i] && world[..i + 1][..i] == world[..i];
        var won := Attempt(due[i], target[due[i]], worker, world[i]);
        if won { handled := handled + 1; }
      }
      assert due[..|due|] == due && world[..|due|] == world;
    }

    /** The outcome of a try, written to the row and then to its endpoint's health. */
    method SettleAttempt(id: string, claimed: Row, endpointId: string, weather: Weather)
      requires endpointId in endpoints
      modifies this
      ensures rows == old(rows)[id := Settle(claimed, weather.outcome == Accepted, weather.settledAt + weather.delay)]
      ensures
        var e := old(endpoints)[endpointId];
        endpoints == old(endpoints)[endpointId := Judge(e, e, weather.outcome, weather.settledAt)]
    {
      var endpoint := endpoints[endpointId];
      var attempts := claimed.attempts + 1;
      var secretUnavailable, guardRefused, ok := weather.outcome == NoSecret, false, false;
      if !secretUnavailable {
        if weather.outcome == Refused { guardRefused := true; } else { ok := weather.outcome == Accepted; }
      }
      var exhausted := !ok && attempts >= MAX_ATTEMPTS;
      rows := rows[id := Row(if ok then Delivered else if exhausted then Dead else Failed,
                             attempts,
                             if ok || exhausted then claimed.nextAttemptAt else weather.settledAt + weather.delay,
                             None, None)];
      var endpointFailed := !ok && !guardRefused && !secretUnavailable;
      var failures :=
        if ok then 0 else if endpointFailed then endpoint.consecutiveFailures + 1 else endpoint.consecutiveFailures;
      var guardFailures := if guardRefused then endpoint.consecutiveGuardFailures + 1
                           else if secretUnavailable then endpoint.consecutiveGuardFailures else 0;
      var failingSince := if ok then None
                          else if !endpointFailed || endpoint.failingSince.Some? then endpoint.failingSince
                          else Some(weather.settledAt);
      var runAge := if failingSince.Some? then weather.settledAt - failingSince.value else 0;
      var shouldDisable := failures >= AUTO_DISABLE_AFTER && runAge >= AUTO_DISABLE_MIN_AGE;
      endpoint := endpoint.(consecutiveFailures := failures, consecutiveGuardFailures := guardFailures,
                            failingSince := failingSince, lastDeliveryAt := Some(weather.settledAt));
      if shouldDisable { endpoint := endpoint.(active := false, disabledAt := Some(weather.settledAt)); }
      endpoints := endpoints[endpointId := endpoint];
    }

    method Attempt(id: string, endpointId: string, worker: string, weather: Weather) returns (won: bool)
      modifies this
      ensures State() == Handle(old(State()), id, endpointId, worker, weather)
      ensures won == (id in old(rows) && Claimable(old(rows)[id]))
    {
      hide Settle, Judge, Backoff;
      if id !in rows || !Claimable(rows[id]) { return false; }
      var claimed := rows[id].(status := Inflight, claimedAt := Some(weather.claimedAt), claimedBy := Some(worker));
      rows := rows[id := claimed];
      if endpointId !in endpoints || !weather.eventFound || !endpoints[endpointId].active
        || endpoints[endpointId].deleted {
        rows := rows[id := claimed.(status := Dead, claimedAt := None, claimedBy := None)];
        return true;
      }
      SettleAttempt(id, claimed, endpointId, weather);
      won := true;
    }
  }

  // --- a pass as a run of the state machine -------------------------------------------------------

  /** The steps up to the attempt: the clock moves on to the claim and to the end of the attempt. */
  function Opening(worker: string, now: int, w: Weather): seq<Step>
    requires now <= w.claimedAt <= w.settledAt
  {
    [Tick(w.claimedAt - now), ClaimNext(worker, w.claimedAt), Tick(w.settledAt - w.claimedAt)]
  }

  /** The attempt itself; after a lost claim none of it can be taken. */
  function Ending(worker: string, giveUp: bool, w: Weather): seq<Step> {
    if giveUp then [GiveUp(worker)]
    else if w.outcome == Refused || w.outcome == NoSecret then [Refuse(worker), SettleTry(worker, w.delay)]
    else [Send(worker), Answer(worker, w.outcome == Accepted), SettleTry(worker, w.delay)]
  }

  predicate GivesUp(t: Tables, endpoint: string, w: Weather) {
    !w.eventFound || !Deliverable(t, endpoint)
  }

  /** The pass is about to claim the first of `queue`. */
  predicate Ready(s: State, worker: string, queue: seq<string>) {
    && s.rows.Keys == s.past.Keys && At(s, worker) == Worker(queue, Empty)
    && forall i :: 0 <= i < |queue| ==> queue[i] in s.rows
  }

  /** The clock does not run backwards, and the delay is the backoff's, within its jitter. */
  predicate Plausible(rows: map<string, Row>, id: string, now: int, w: Weather) {
    now <= w.claimedAt <= w.settledAt && (id in rows ==> Jittered(w.delay, Backoff(rows[id].attempts + 1)))
  }

  lemma {:induction false} OpeningClaims(s: State, worker: string, queue: seq<string>, w: Weather)
    requires Ready(s, worker, queue) && queue != [] && s.now <= w.claimedAt <= w.settledAt
    ensures
      var u, id := After(s, Opening(worker, s.now, w)), queue[0];
      var claimed := Claim(s.rows[id], worker, w.claimedAt);
      && u.now == w.settledAt && u.past == s.past
      && u.rows == (if claimed.Some? then s.rows[id := claimed.value] else s.rows)
      && At(u, worker) == Worker(queue[1..], if claimed.Some? then Holding(id, claimed.value) else Empty)
  {
    AfterFew(s, Tick(w.claimedAt - s.now), ClaimNext(worker, w.claimedAt), Tick(w.settledAt - w.claimedAt));
    hide After, Claim, Settle, Bury, Backoff;
  }

  lemma {:induction false} NothingToEnd(s: State, worker: string, giveUp: bool, w: Weather)
    requires At(s, worker).hand.Empty?
    ensures After(s, Ending(worker, giveUp, w)) == s
  {
    if giveUp { AfterFew(s, GiveUp(worker), GiveUp(worker), GiveUp(worker)); }
    else if w.outcome == Refused || w.outcome == NoSecret {
      AfterFew(s, Refuse(worker), SettleTry(worker, w.delay), GiveUp(worker));
    }
    else { AfterFew(s, Send(worker), Answer(worker, w.outcome == Accepted), SettleTry(worker, w.delay)); }
    hide After, Do, Backoff;
  }

  /** The attempt in hand is over, and its row is `row`. */
  predicate Ended(s: State, u: State, worker: string, row: Row)
    requires At(s, worker).hand.Holding?
  {
    && u.now == s.now && u.rows.Keys == u.past.Keys
    && u.rows == s.rows[At(s, worker).hand.id := row]
    && At(u, worker) == Worker(At(s, worker).queue, Empty)
  }

  lemma {:induction false} GivingUpEnds(s: State, worker: string, w: Weather)
    requires At(s, worker).hand.Holding? && At(s, worker).hand.id in s.rows && s.rows.Keys == s.past.Keys
    requires Jittered(w.delay, Backoff(At(s, worker).hand.row.attempts + 1))
    ensures Ended(s, After(s, [GiveUp(worker)]), worker, Bury(s.rows[At(s, worker).hand.id]))
  {
    AfterFew(s, GiveUp(worker), GiveUp(worker), GiveUp(worker));
    hide After, Backoff, Jittered, Settle, Bury;
  }

  lemma {:induction false} RefusalEnds(s: State, worker: string, w: Weather)
    requires At(s, worker).hand.Holding? && At(s, worker).hand.id in s.rows && s.rows.Keys == s.past.Keys
    requires Jittered(w.delay, Backoff(At(s, worker).hand.row.attempts + 1))
    ensures Ended(s, After(s, [Refuse(worker), SettleTry(worker, w.delay)]), worker,
      Settle(At(s, worker).hand.row, false, s.now + w.delay))
  {
    AfterFew(s, Refuse(worker), SettleTry(worker, w.delay), GiveUp(worker));
    hide After, Backoff, Jittered, Settle, Bury;
  }

  lemma {:induction false} SendEnds(s: State, worker: string, w: Weather)
    requires At(s, worker).hand.Holding? && At(s, worker).hand.id in s.rows && s.rows.Keys == s.past.Keys
    requires Jittered(w.delay, Backoff(At(s, worker).hand.row.attempts + 1))
    ensures Ended(s, After(s, [Send(worker), Answer(worker, w.outcome == Accepted), SettleTry(worker, w.delay)]),
      worker, Settle(At(s, worker).hand.row, w.outcome == Accepted, s.now + w.delay))
  {
    AfterFew(s, Send(worker), Answer(worker, w.outcome == Accepted), SettleTry(worker, w.delay));
    hide After, Backoff, Jittered, Settle, Bury;
  }

  lemma {:induction false} EndingSettles(s: State, worker: string, giveUp: bool, w: Weather)
    requires At(s, worker).hand.Holding? && At(s, worker).hand.id in s.rows && s.rows.Keys == s.past.Keys
    requires Jittered(w.delay, Backoff(At(s, worker).hand.row.attempts + 1))
    ensures Ended(s, After(s, Ending(worker, giveUp, w)), worker,
                  if giveUp then Bury(s.rows[At(s, worker).hand.id])
                    else Settle(At(s, worker).hand.row, w.outcome == Accepted, s.now + w.delay))
  {
    hide After, Ended, Backoff, Jittered, Settle, Bury;
    if giveUp { GivingUpEnds(s, worker, w); }
    else if w.outcome == Refused || w.outcome == NoSecret { RefusalEnds(s, worker, w); }
    else { SendEnds(s, worker, w); }
  }

  lemma {:induction false} RowIsSteps(s: State, t: Tables, worker: string, queue: seq<string>, endpoint: string,
      w: Weather)
    requires Ready(s, worker, queue) && queue != [] && s.rows == t.rows && Plausible(t.rows, queue[0], s.now, w)
    ensures
      var u := After(s, Opening(worker, s.now, w) + Ending(worker, GivesUp(t, endpoint, w), w));
      u.rows == Handle(t, queue[0], endpoint, worker, w).rows && Ready(u, worker, queue[1..]) && u.now == w.settledAt
  {
    var opening, giveUp, id := Opening(worker, s.now, w), GivesUp(t, endpoint, w), queue[0];
    OpeningClaims(s, worker, queue, w);
    var mid := After(s, opening);
    AfterBoth(s, opening, Ending(worker, giveUp, w));
    hide After, Opening, Ending, Judge, Backoff, Jittered, Bury, Settle;
    if Claim(s.rows[id], worker, w.claimedAt).Some? {
      var claimed := Claim(s.rows[id], worker, w.claimedAt).value;
      EndingSettles(mid, worker, giveUp, w);
      var row := if giveUp then Bury(claimed) else Settle(claimed, w.outcome == Accepted, w.settledAt + w.delay);
      assert s.rows[id := claimed][id := row] == s.rows[id := row];
    } else {
      NothingToEnd(mid, worker, giveUp, w);
    }
  }

  /** When row `n` of the pass is reached. */
  function Clock(now: int, world: seq<Weather>, n: nat): int
    requires n <= |world|
  {
    if n == 0 then now else world[n - 1].settledAt
  }

  predicate PlausiblePass(t: Tables, now: int, due: seq<string>, target: map<string, string>, worker: string,
      world: seq<Weather>)
    requires |due| == |world| && forall i :: 0 <= i < |due| ==> due[i] in target
  {
    forall n :: 0 <= n < |due| ==>
      Plausible(Pass(t, due[..n], target, worker, world[..n]).rows, due[n], Clock(now, world, n), world[n])
  }

  /** The steps of the first `n` rows. */
  function PassSteps(t: Tables, now: int, due: seq<string>, target: map<string, string>, worker: string,
      world: seq<Weather>, n: nat): seq<Step>
    requires n <= |due| == |world| && forall i :: 0 <= i < |due| ==> due[i] in target
    requires PlausiblePass(t, now, due, target, worker, world)
  {
    if n == 0 then [] else
      var before, w := Pass(t, due[..n - 1], target, worker, world[..n - 1]), world[n - 1];
      assert Plausible(before.rows, due[n - 1], Clock(now, world, n - 1), w);
      PassSteps(t, now, due, target, worker, world, n - 1)
        + (Opening(worker, Clock(now, world, n - 1), w) + Ending(worker, GivesUp(before, target[due[n - 1]], w), w))
  }

  lemma {:induction false} OneRowMore(t: Tables, now: int, due: seq<string>, target: map<string, string>,
      worker: string, world: seq<Weather>, n: nat)
    requires 0 < n <= |due| == |world| && forall i :: 0 <= i < |due| ==> due[i] in target
    requires PlausiblePass(t, now, due, target, worker, world)
    ensures
      var before, w, at :=
        Pass(t, due[..n - 1], target, worker, world[..n - 1]), world[n - 1], Clock(now, world, n - 1);
      && Plausible(before.rows, due[n - 1], at, w) && at <= w.claimedAt <= w.settledAt
        && Clock(now, world, n) == w.settledAt
      && Pass(t, due[..n], target, worker, world[..n]) == Handle(before, due[n - 1], target[due[n - 1]], worker, w)
      && PassSteps(t, now, due, target, worker, world, n)
           == PassSteps(t, now, due, target, worker, world, n - 1)
              + (Opening(worker, at, w) + Ending(worker, GivesUp(before, target[due[n - 1]], w), w))
  {
    hide Handle, Opening, Ending, GivesUp, Jittered, Backoff;
    assert due[..n][..n - 1] == due[..n - 1] && world[..n][..n - 1] == world[..n - 1];
    var before := Pass(t, due[..n - 1], target, worker, world[..n - 1]);
    assert Plausible(before.rows, due[n - 1], Clock(now, world, n - 1), world[n - 1]);
  }

  lemma {:induction false} NoRowsYet(s: State, t: Tables, due: seq<string>, target: map<string, string>,
      worker: string, world: seq<Weather>)
    requires |due| == |world| && forall i :: 0 <= i < |due| ==> due[i] in target
    requires PlausiblePass(t, s.now, due, target, worker, world)
    ensures After(s, PassSteps(t, s.now, due, target, worker, world, 0)) == s && Clock(s.now, world, 0) == s.now
    ensures Pass(t, due[..0], target, worker, world[..0]) == t && due[0..] == due
  {
    hide Handle, Plausible;
  }

  /**
   * A pass as written is a run of the state machine, from the moment the due rows have
   * been read, however long ago that was: so what holds of every careful interleaving of
   * workers holds of passes.
   */
  lemma {:induction false} PassIsRun(s: State, t: Tables, due: seq<string>, target: map<string, string>,
      worker: string, world: seq<Weather>, n: nat)
    requires n <= |due| == |world| && forall i :: 0 <= i < |due| ==> due[i] in target
    requires Ready(s, worker, due) && s.rows == t.rows && PlausiblePass(t, s.now, due, target, worker, world)
    ensures
      var u := After(s, PassSteps(t, s.now, due, target, worker, world, n));
      u.rows == Pass(t, due[..n], target, worker, world[..n]).rows && Ready(u, worker, due[n..])
        && u.now == Clock(s.now, world, n)
  {
    hide *;
    if n == 0 {
      NoRowsYet(s, t, due, target, worker, world);
    } else {
      PassIsRun(s, t, due, target, worker, world, n - 1);
      OneRowMore(t, s.now, due, target, worker, world, n);
      var before, w := Pass(t, due[..n - 1], target, worker, world[..n - 1]), world[n - 1];
      var steps := PassSteps(t, s.now, due, target, worker, world, n - 1);
      var u := After(s, steps);
      assert due[n - 1..][1..] == due[n..] && due[n - 1..][0] == due[n - 1];
      RowIsSteps(u, before, worker, due[n - 1..], target[due[n - 1]], w);
      AfterBoth(s, steps, Opening(worker, u.now, w) + Ending(worker, GivesUp(before, target[due[n - 1]], w), w));
    }
  }
}
