/**
 * Webhook deliveries: any number of dispatcher workers over one table of
 * delivery rows. A run is any interleaving of the workers' steps with the clock,
 * the fan-out of new events, an operator's requeue, and crashes.
 */
module Deliveries {
  import opened Wrappers
  import opened Sequences

  const BACKOFF: seq<int> := [30000, 120000, 600000, 3600000, 21600000]
  const MAX_ATTEMPTS: nat := |BACKOFF| + 1
  const STALE_CLAIM := 120000

  datatype Status = Pending | Failed | Inflight | Delivered | Dead

  datatype Row = Row(status: Status, attempts: nat, nextAttemptAt: int, claimedAt: Option<int>,
    claimedBy: Option<string>)

  predicate Claimable(r: Row) {
    r.status == Pending || r.status == Failed
  }

  /** The compare-and-set: it tests the status and nothing else. */
  function Claim(r: Row, worker: string, at: int): Option<Row> {
    if Claimable(r) then Some(r.(status := Inflight, claimedAt := Some(at), claimedBy := Some(worker))) else None
  }

  predicate Stale(r: Row, before: int) {
    r.status == Inflight && r.claimedAt.Some? && r.claimedAt.value < before
  }

  function Reclaim(r: Row, before: int): Row {
    if Stale(r, before) then r.(status := Pending, claimedAt := None, claimedBy := None) else r
  }

  function Requeue(r: Row, at: int): Option<Row> {
    if r.status == Inflight then None else Some(Row(Pending, 0, at, None, None))
  }

  /** The delay before the next attempt, once `attempts` have been made. */
  function Backoff(attempts: nat): int {
    if 1 <= attempts <= |BACKOFF| then BACKOFF[attempts - 1] else BACKOFF[|BACKOFF| - 1]
  }

  /** Twenty per cent either way. */
  predicate Jittered(delay: int, base: int) {
    8 * base <= 10 * delay <= 12 * base
  }

  predicate Exhausted(r: Row, ok: bool) {
    !ok && r.attempts + 1 >= MAX_ATTEMPTS
  }

  /** The update that ends an attempt, built from the row as it was claimed. */
  function Settle(r: Row, ok: bool, retryAt: int): Row {
    Row(if ok then Delivered else if Exhausted(r, ok) then Dead else Failed,
        r.attempts + 1,
        if ok || Exhausted(r, ok) then r.nextAttemptAt else retryAt,
        None, None)
  }

  function Bury(r: Row): Row {
    r.(status := Dead, claimedAt := None, claimedBy := None)
  }

  // --- workers ------------------------------------------------------------------

  /** The one delivery a worker is at: the row as claimed, and how far the attempt has come. */
  datatype Hand =
    | Empty
    | Holding(id: string, row: Row)
    | Sending(id: string, row: Row)
    | Tried(id: string, row: Row, ok: bool, sent: bool)

  datatype Worker = Worker(queue: seq<string>, hand: Hand)

  /** What has happened to a row since it was queued or last requeued. */
  datatype History = History(
    sends: nat,      // requests put on the wire
    tries: nat,      // attempts settled
    unsent: nat,     // of those, refused by the URL guard or for want of the secret
    lost: nat,       // sends whose worker crashed before settling
    dropped: nat,    // of those, the ones a 2xx had come back for
    accepted: bool,  // a 2xx came back
    gaveUp: bool,    // a worker gave the row up, for want of its event or its endpoint
    failed: nat,     // attempts settled as failures
    late: nat)       // sends begun after a 2xx, after it was given up or after six failures

  const UNTRIED := History(0, 0, 0, 0, 0, false, false, 0, 0)

  datatype State = State(now: int, rows: map<string, Row>, workers: map<string, Worker>, past: map<string, History>)

  datatype Step =
    | Tick(d: nat)
    | EnqueueNew(id: string)
    | RequeueOld(id: string)
    | ReclaimStale(worker: string, before: int)
    | ListDue(worker: string, ids: seq<string>)
    | ClaimNext(worker: string, at: int)
    | GiveUp(worker: string)
    | Refuse(worker: string)
    | Send(worker: string)
    | Answer(worker: string, ok: bool)
    | SettleTry(worker: string, delay: int)
    | Crash(worker: string)

  function At(s: State, w: string): Worker {
    if w in s.workers then s.workers[w] else Worker([], Empty)
  }

  /** What a due read may return: rows that are due at that moment, each once. */
  predicate DueRead(s: State, ids: seq<string>) {
    Distinct(ids) && forall i :: 0 <= i < |ids| ==>
      ids[i] in s.rows && Claimable(s.rows[ids[i]]) && s.rows[ids[i]].nextAttemptAt <= s.now
  }

  predicate Can(s: State, step: Step) {
    match step
    case Tick(_) => true
    case EnqueueNew(id) => id !in s.rows
    case RequeueOld(id) => id in s.rows && id in s.past && Requeue(s.rows[id], s.now).Some?
    case ReclaimStale(w, before) => At(s, w).hand.Empty? && before <= s.now - STALE_CLAIM
    case ListDue(w, ids) => At(s, w) == Worker([], Empty) && DueRead(s, ids)
    case ClaimNext(w, at) => At(s, w).hand.Empty? && At(s, w).queue != [] && At(s, w).queue[0] in s.rows && at <= s.now
    case GiveUp(w) => At(s, w).hand.Holding? && At(s, w).hand.id in s.rows && At(s, w).hand.id in s.past
    case Refuse(w) => At(s, w).hand.Holding?
    case Send(w) => At(s, w).hand.Holding? && At(s, w).hand.id in s.past
    case Answer(w, _) => At(s, w).hand.Sending? && At(s, w).hand.id in s.past
    case SettleTry(w, delay) =>
      At(s, w).hand.Tried? && At(s, w).hand.id in s.past && Jittered(delay, Backoff(At(s, w).hand.row.attempts + 1))
    case Crash(w) => At(s, w).hand.Empty? || At(s, w).hand.id in s.past
  }

  predicate OnTheWire(h: Hand) {
    h.Sending? || (h.Tried? && h.sent)
  }

  function Lose(h: History, accepted: bool): History {
    h.(lost := h.lost + 1, dropped := h.dropped + if accepted then 1 else 0)
  }

  function Put(s: State, w: string, worker: Worker): State {
    s.(workers := s.workers[w := worker])
  }

  function Do(s: State, step: Step): State
    requires Can(s, step)
  {
    match step
    case Tick(d) => s.(now := s.now + d)
    case EnqueueNew(id) => s.(rows := s.rows[id := Row(Pending, 0, s.now, None, None)], past := s.past[id := UNTRIED])
    case RequeueOld(id) => s.(rows := s.rows[id := Requeue(s.rows[id], s.now).value], past := s.past[id := UNTRIED])
    case ReclaimStale(w, before) => s.(rows := map id | id in s.rows :: Reclaim(s.rows[id], before))
    case ListDue(w, ids) => Put(s, w, Worker(ids, Empty))
    case ClaimNext(w, at) =>
      var q := At(s, w).queue;
      var claimed := Claim(s.rows[q[0]], w, at);
      if claimed.None? then Put(s, w, Worker(q[1..], Empty))
      else Put(s, w, Worker(q[1..], Holding(q[0], claimed.value))).(rows := s.rows[q[0] := claimed.value])
    case GiveUp(w) =>
      var id := At(s, w).hand.id;
      Put(s, w, Worker(At(s, w).queue, Empty)).(rows := s.rows[id := Bury(s.rows[id])],
        past := s.past[id := s.past[id].(gaveUp := true)])
    case Refuse(w) =>
      var hand := At(s, w).hand;
      Put(s, w, Worker(At(s, w).queue, Tried(hand.id, hand.row, false, false)))
    case Send(w) =>
      var hand := At(s, w).hand;
      var h := s.past[hand.id];
      Put(s, w, Worker(At(s, w).queue, Sending(hand.id, hand.row)))
        .(past := s.past[hand.id := h.(sends := h.sends + 1,
                                       late := h.late + if h.accepted || h.gaveUp || h.failed >= 6 then 1 else 0)])
    case Answer(w, ok) =>
      var hand := At(s, w).hand;
      var h := s.past[hand.id];
      Put(s, w, Worker(At(s, w).queue, Tried(hand.id, hand.row, ok, true)))
        .(past := s.past[hand.id := h.(accepted := h.accepted || ok)])
    case SettleTry(w, delay) =>
      var hand := At(s, w).hand;
      var h := s.past[hand.id];
      Put(s, w, Worker(At(s, w).queue, Empty))
        .(rows := s.rows[hand.id := Settle(hand.row, hand.ok, s.now + delay)],
          past := s.past[hand.id := h.(tries := h.tries + 1, unsent := h.unsent + (if hand.sent then 0 else 1),
                                       failed := h.failed + if hand.ok then 0 else 1)])
    case Crash(w) =>
      var hand := At(s, w).hand;
      Put(s, w, Worker([], Empty))
        .(past := if OnTheWire(hand) then s.past[hand.id := Lose(s.past[hand.id], hand.Tried? && hand.ok)] else s.past)
  }

  /** A step that cannot be taken changes nothing, so every list of steps is a run. */
  function Next(s: State, step: Step): State {
    if Can(s, step) then Do(s, step) else s
  }

  function After(s: State, steps: seq<Step>): State {
    if steps == [] then s else Next(After(s, steps[..|steps| - 1]), steps[|steps| - 1])
  }

  lemma {:induction false} AfterBoth(s: State, first: seq<Step>, more: seq<Step>)
    ensures After(s, first + more) == After(After(s, first), more)
  {
    if more == [] {
      assert first + more == first;
    } else {
      var init := more[..|more| - 1];
      assert (first + more)[..|first + more| - 1] == first + init;
      AfterBoth(s, first, init);
    }
  }

  lemma {:induction false} AfterFew(s: State, a: Step, b: Step, c: Step)
    ensures After(s, [a]) == Next(s, a)
    ensures After(s, [a, b]) == Next(Next(s, a), b)
    ensures After(s, [a, b, c]) == Next(Next(Next(s, a), b), c)
  {
    hide Next;
    assert [a, b, c][..2] == [a, b] && [a, b][..1] == [a] && [a][..0] == [];
    assert After(s, []) == s;
  }

  // --- safety -------------------------------------------------------------------------

  predicate HandTimely(s: State, h: Hand) {
    h.Empty? || h.row.claimedAt.None? || s.now - h.row.claimedAt.value <= STALE_CLAIM
  }

  /** No worker that is still alive has held its claim for longer than the limit. */
  predicate Timely(s: State) {
    forall w :: w in s.workers ==> HandTimely(s, s.workers[w].hand)
  }

  predicate TimelyRun(s: State, steps: seq<Step>) {
    Timely(s) && (steps != [] ==> TimelyRun(s, steps[..|steps| - 1]) && Timely(After(s, steps)))
  }

  /** The holder's copy is the row itself, under its own claim. */
  predicate HandOk(s: State, w: string) {
    var h := At(s, w).hand;
    !h.Empty? ==>
      && h.id in s.rows && s.rows[h.id] == h.row
      && h.row.status == Inflight && h.row.claimedBy == Some(w)
      && (h.Tried? && h.ok ==> h.sent)
  }

  /** The attempt at `id` that is in progress, if its claimant is at it. */
  function Attempt(s: State, id: string): Hand
    requires id in s.rows
  {
    var holder := s.rows[id].claimedBy;
    if holder.Some? && !At(s, holder.value).hand.Empty? && At(s, holder.value).hand.id == id
    then At(s, holder.value).hand
    else Empty
  }

  predicate RowOk(s: State, id: string)
    requires id in s.rows && id in s.past
  {
    var r, h, a := s.rows[id], s.past[id], Attempt(s, id);
    && (r.status == Inflight <==> r.claimedBy.Some?) && (r.status == Inflight <==> r.claimedAt.Some?)
    && h.tries == r.attempts && h.failed + (if r.status == Delivered then 1 else 0) == h.tries <= 6
    && (r.status == Dead <==> h.gaveUp || h.failed == 6)
    && (r.status == Failed ==> h.failed >= 1) && (r.status == Delivered ==> h.failed < 6)
    && h.sends + h.unsent == h.tries + h.lost + (if OnTheWire(a) then 1 else 0)
    && (h.dropped == 0 ==> h.late == 0 && (h.accepted <==> r.status == Delivered || (a.Tried? && a.ok)))
  }

  ghost predicate Inv(s: State) {
    && s.rows.Keys == s.past.Keys
    && (forall w :: HandOk(s, w))
    && (forall id :: id in s.rows ==> RowOk(s, id))
  }

  /** `t` differs from `s` only in worker `w`, in row `id` and in that row's history. */
  ghost predicate OnlyAt(s: State, t: State, w: string, id: string) {
    && t.now == s.now && id in s.rows && t.rows.Keys == s.rows.Keys && t.past.Keys == s.past.Keys
    && (forall v :: v != w ==> At(t, v) == At(s, v))
    && (forall j :: j in s.rows && j in s.past && j != id ==> t.rows[j] == s.rows[j] && t.past[j] == s.past[j])
  }

  /** One attempt's own steps disturb no other row and no other worker. */
  lemma {:induction false} OthersStay(s: State, t: State, w: string, id: string)
    requires Inv(s) && OnlyAt(s, t, w, id)
    requires At(s, w).hand.Empty? || At(s, w).hand.id == id
    requires At(t, w).hand.Empty? || At(t, w).hand.id == id
    requires s.rows[id].claimedBy.None? || s.rows[id].claimedBy == Some(w)
    requires HandOk(t, w) && RowOk(t, id)
    ensures Inv(t)
  {
    forall v ensures HandOk(t, v) {
      if v != w { assert HandOk(s, v); }
    }
    forall j | j in t.rows ensures RowOk(t, j) {
      if j != id { assert RowOk(s, j); }
    }
  }

  lemma {:induction false} QueueStep(s: State, step: Step)
    requires Inv(s) && Can(s, step) && (step.EnqueueNew? || step.RequeueOld?)
    ensures Inv(Do(s, step))
  {
    var t := Do(s, step);
    forall v ensures HandOk(t, v) {
      assert HandOk(s, v);
    }
    forall j | j in t.rows ensures RowOk(t, j) {
      if j in s.rows { assert RowOk(s, j); }
    }
  }

  lemma {:induction false} ReadStep(s: State, step: Step)
    requires Inv(s) && Can(s, step) && (step.Tick? || step.ListDue?)
    ensures Inv(Do(s, step))
  {
    var t := Do(s, step);
    forall v ensures HandOk(t, v) {
      assert HandOk(s, v);
    }
    forall j | j in t.rows ensures RowOk(t, j) {
      if j in s.rows { assert RowOk(s, j); }
    }
  }

  /** The reclaim's bound passes no claim that a live worker holds. */
  predicate Spares(s: State, before: int) {
    forall w :: w in s.workers ==>
      var h := s.workers[w].hand;
      h.Empty? || h.row.claimedAt.None? || h.row.claimedAt.value >= before
  }

  /** A reclaim keeps claims exclusive exactly when it spares every live claim. */
  lemma {:induction false} ReclaimStepIff(s: State, w: string, before: int)
    requires Inv(s) && Can(s, ReclaimStale(w, before))
    ensures Inv(Do(s, ReclaimStale(w, before))) <==> Spares(s, before)
  {
    if Spares(s, before) {
      SparingReclaim(s, w, before);
    } else {
      var v :|
        v in s.workers && !(s.workers[v].hand.Empty? || s.workers[v].hand.row.claimedAt.None?
                            || s.workers[v].hand.row.claimedAt.value >= before);
      assert HandOk(s, v);
      assert !HandOk(Do(s, ReclaimStale(w, before)), v);
    }
  }

  lemma {:induction false} SparingReclaim(s: State, w: string, before: int)
    requires Inv(s) && Spares(s, before) && Can(s, ReclaimStale(w, before))
    ensures Inv(Do(s, ReclaimStale(w, before)))
  {
    var t := Do(s, ReclaimStale(w, before));
    forall v ensures HandOk(t, v) {
      assert HandOk(s, v);
      if !At(s, v).hand.Empty? { assert RowOk(s, At(s, v).hand.id); }
    }
    forall j | j in t.rows ensures RowOk(t, j) {
      assert RowOk(s, j);
      assert Attempt(t, j) == Attempt(s, j) by {
        if !Attempt(s, j).Empty? { assert HandOk(s, s.rows[j].claimedBy.value); }
      }
    }
  }

  lemma {:induction false} ClaimStep(s: State, w: string, at: int)
    requires Inv(s) && Can(s, ClaimNext(w, at))
    ensures Inv(Do(s, ClaimNext(w, at)))
  {
    var t, id := Do(s, ClaimNext(w, at)), At(s, w).queue[0];
    assert RowOk(s, id);
    if Claimable(s.rows[id]) {
      OthersStay(s, t, w, id);
    } else {
      forall v ensures HandOk(t, v) { assert HandOk(s, v); }
      forall j | j in t.rows ensures RowOk(t, j) { assert RowOk(s, j); }
    }
  }

  lemma {:induction false} GiveUpStep(s: State, step: Step)
    requires Inv(s) && Can(s, step) && step.GiveUp?
    ensures Inv(Do(s, step))
  {
    var w, t := step.worker, Do(s, step);
    var id := At(s, w).hand.id;
    assert HandOk(s, w) && RowOk(s, id);
    OthersStay(s, t, w, id);
  }

  lemma {:induction false} TryStep(s: State, step: Step)
    requires Inv(s) && Can(s, step) && (step.Refuse? || step.Send?)
    ensures Inv(Do(s, step))
  {
    var w, t := step.worker, Do(s, step);
    var id := At(s, w).hand.id;
    assert HandOk(s, w) && RowOk(s, id);
    OthersStay(s, t, w, id);
  }

  lemma {:induction false} AnswerStep(s: State, step: Step)
    requires Inv(s) && Can(s, step) && step.Answer?
    ensures Inv(Do(s, step))
  {
    var w, t := step.worker, Do(s, step);
    var id := At(s, w).hand.id;
    assert HandOk(s, w) && RowOk(s, id);
    OthersStay(s, t, w, id);
  }

  lemma {:induction false} SettleStep(s: State, step: Step)
    requires Inv(s) && Can(s, step) && step.SettleTry?
    ensures Inv(Do(s, step))
  {
    hide Backoff;
    var w, t := step.worker, Do(s, step);
    var id := At(s, w).hand.id;
    assert HandOk(s, w) && RowOk(s, id);
    OthersStay(s, t, w, id);
  }

  lemma {:induction false} CrashStep(s: State, step: Step)
    requires Inv(s) && Can(s, step) && step.Crash? && !At(s, step.worker).hand.Empty?
    ensures Inv(Do(s, step))
  {
    var w, t := step.worker, Do(s, step);
    var id := At(s, w).hand.id;
    assert HandOk(s, w) && RowOk(s, id);
    OthersStay(s, t, w, id);
  }

  lemma {:induction false} IdleCrash(s: State, w: string)
    requires Inv(s) && At(s, w).hand.Empty?
    ensures Inv(Do(s, Crash(w)))
  {
    var t := Do(s, Crash(w));
    forall v ensures HandOk(t, v) { assert HandOk(s, v); }
    forall j | j in t.rows ensures RowOk(t, j) { assert RowOk(s, j); }
  }

  /** The step is not a reclaim that passes a live claim. */
  predicate Careful(s: State, step: Step) {
    step.ReclaimStale? && Can(s, step) ==> Spares(s, step.before)
  }

  lemma {:induction false} StepKeepsIff(s: State, step: Step)
    requires Inv(s)
    ensures Inv(Next(s, step)) <==> Careful(s, step)
  {
    hide Inv, Spares, Do;
    if Can(s, step) {
      if step.Tick? || step.ListDue? { ReadStep(s, step); }
      else if step.EnqueueNew? || step.RequeueOld? { QueueStep(s, step); }
      else if step.ReclaimStale? { ReclaimStepIff(s, step.worker, step.before); }
      else if step.ClaimNext? { ClaimStep(s, step.worker, step.at); }
      else if step.Crash? && At(s, step.worker).hand.Empty? { IdleCrash(s, step.worker); }
      else if step.Crash? { CrashStep(s, step); }
      else if step.GiveUp? { GiveUpStep(s, step); }
      else if step.Refuse? || step.Send? { TryStep(s, step); }
      else if step.Answer? { AnswerStep(s, step); }
      else { SettleStep(s, step); }
    }
  }

  /** No reclaim of the run passes a claim that was live at the time. */
  predicate CarefulRun(s: State, steps: seq<Step>) {
    steps == [] || (CarefulRun(s, steps[..|steps| - 1]) && Careful(After(s, steps[..|steps| - 1]), steps[|steps| - 1]))
  }

  ghost predicate AlwaysInv(s: State, steps: seq<Step>) {
    Inv(After(s, steps)) && (steps != [] ==> AlwaysInv(s, steps[..|steps| - 1]))
  }

  /** Claims are exclusive in every state of a run exactly when the run is careful. */
  lemma {:induction false} ExclusiveIffCareful(s: State, steps: seq<Step>)
    requires Inv(s)
    ensures AlwaysInv(s, steps) <==> CarefulRun(s, steps)
  {
    if steps != [] {
      var init := steps[..|steps| - 1];
      ExclusiveIffCareful(s, init);
      hide Inv, Next, Careful;
      if AlwaysInv(s, init) {
        assert Inv(After(s, init));
        StepKeepsIff(After(s, init), steps[|steps| - 1]);
      }
    }
  }

  /** Workers that never hold a claim beyond the stale limit are never passed. */
  lemma {:induction false} TimelyIsCareful(s: State, steps: seq<Step>)
    requires TimelyRun(s, steps)
    ensures CarefulRun(s, steps)
  {
    if steps != [] {
      TimelyIsCareful(s, steps[..|steps| - 1]);
      var t := After(s, steps[..|steps| - 1]);
      assert Timely(t);
      hide After, TimelyRun;
      forall w | w in t.workers ensures HandTimely(t, t.workers[w].hand) { }
    }
  }

  function Start(now: int): State {
    State(now, map[], map[], map[])
  }

  /**
   * For every interleaving in which no reclaim passes a live claim: no two workers are
   * ever at the same delivery; its `attempts` is the number of its settled tries; it is
   * sent at most six times, and once more for each send whose worker crashed; it is sent
   * again after a 2xx only if a worker crashed between receiving one and settling it; it is
   * dead exactly when it was given up or six of its tries have failed, and waits for a retry
   * only after one to five; and no worker is at a dead one, so that it is not sent again.
   */
  lemma {:induction false} DeliverySafety(now: int, steps: seq<Step>, id: string, v: string, w: string)
    requires CarefulRun(Start(now), steps) && id in After(Start(now), steps).rows
    ensures
      var t := After(Start(now), steps);
      && (!At(t, v).hand.Empty? && !At(t, w).hand.Empty? && At(t, v).hand.id == At(t, w).hand.id ==> v == w)
      && id in t.past
      && t.rows[id].attempts == t.past[id].tries
      && t.past[id].sends <= 6 + t.past[id].lost
      && (t.past[id].late > 0 ==> t.past[id].dropped > 0)
      && (t.past[id].accepted && Claimable(t.rows[id]) ==> t.past[id].dropped > 0)
      && t.past[id].failed + (if t.rows[id].status == Delivered then 1 else 0) == t.past[id].tries
      && (t.rows[id].status == Dead <==> t.past[id].gaveUp || t.past[id].failed == 6)
      && (t.rows[id].status == Failed ==> 1 <= t.past[id].failed <= 5)
      && (!At(t, v).hand.Empty? && At(t, v).hand.id == id ==> t.rows[id].status == Inflight)
  {
    ExclusiveIffCareful(Start(now), steps);
    hide After, CarefulRun;
    var t := After(Start(now), steps);
    assert HandOk(t, v) && HandOk(t, w) && RowOk(t, id);
  }

  /** The delays before the second to the sixth attempt: 30 s, 2 min, 10 min, 1 h and 6 h. */
  const WAITS: seq<int> := [30000, 120000, 600000, 3600000, 21600000]

  /**
   * A try that fails with `n` failures before it: with fewer than five the row is to be
   * retried, after the delay that belongs to `n` within twenty per cent; with five it is dead.
   */
  lemma {:induction false} FailedTryWaits(now: int, steps: seq<Step>, w: string, delay: int)
    requires CarefulRun(Start(now), steps)
    requires Can(After(Start(now), steps), SettleTry(w, delay)) && !At(After(Start(now), steps), w).hand.ok
    ensures
      var s := After(Start(now), steps);
      var t, id := Next(s, SettleTry(w, delay)), At(s, w).hand.id;
      && id in s.past && id in t.past && id in t.rows
      && var n := s.past[id].failed;
         && n <= 5 && t.past[id].failed == n + 1 == t.rows[id].attempts && t.rows[id].claimedBy == None
         && (n < 5 ==>
           t.rows[id].status == Failed && 8 * WAITS[n] <= 10 * (t.rows[id].nextAttemptAt - t.now) <= 12 * WAITS[n])
         && (n == 5 ==> t.rows[id].status == Dead)
  {
    ExclusiveIffCareful(Start(now), steps);
    var s := After(Start(now), steps);
    hide After, CarefulRun;
    assert HandOk(s, w) && RowOk(s, At(s, w).hand.id);
    hide Inv, Attempt;
  }

  /**
   * Whatever has become of a row, an operator can queue it afresh, unless a worker is at it: with
   * all six attempts before it.
   */
  lemma {:induction false} RequeueStartsOver(now: int, steps: seq<Step>, id: string)
    requires CarefulRun(Start(now), steps) && id in After(Start(now), steps).rows
    ensures
      var s := After(Start(now), steps);
      var t := Next(s, RequeueOld(id));
      && id in s.past && id in t.rows && id in t.past
      && if s.rows[id].status == Inflight then t == s
         else t.rows[id] == Row(Pending, 0, s.now, None, None) && t.past[id].failed == 0 && !t.past[id].gaveUp
  {
    ExclusiveIffCareful(Start(now), steps);
    hide After, CarefulRun;
    assert RowOk(After(Start(now), steps), id);
    hide RowOk;
  }

  // --- when two workers are at one delivery -------------------------------------------------

  predicate IsAt(s: State, w: string, id: string) {
    !At(s, w).hand.Empty? && At(s, w).hand.id == id
  }

  ghost predicate NoTwo(s: State) {
    forall v, w, id :: IsAt(s, v, id) && IsAt(s, w, id) ==> v == w
  }

  /** A worker wins the claim of a row that another is still at. */
  ghost predicate SecondClaim(s: State, step: Step) {
    && step.ClaimNext? && Can(s, step) && Claimable(s.rows[At(s, step.worker).queue[0]])
    && exists v :: v != step.worker && IsAt(s, v, At(s, step.worker).queue[0])
  }

  /** Two workers come to be at one delivery by such a claim and by nothing else. */
  lemma {:induction false} SecondClaimIff(s: State, step: Step)
    requires NoTwo(s)
    ensures NoTwo(Next(s, step)) <==> !SecondClaim(s, step)
  {
    hide Backoff, Settle, Bury, Reclaim, Distinct, DueRead, Jittered, Requeue, Lose;
    var t := Next(s, step);
    if step.ClaimNext? && Can(s, step) && Claimable(s.rows[At(s, step.worker).queue[0]]) {
      var w, id := step.worker, At(s, step.worker).queue[0];
      assert forall v, j :: IsAt(t, v, j) <==> if v == w then j == id else IsAt(s, v, j);
      if SecondClaim(s, step) {
        var v :| v != w && IsAt(s, v, id);
        assert IsAt(t, v, id) && IsAt(t, w, id);
      }
    } else {
      assert forall v, j :: IsAt(t, v, j) ==> IsAt(s, v, j);
    }
  }

  ghost predicate NeverTwo(s: State, steps: seq<Step>) {
    NoTwo(After(s, steps)) && (steps != [] ==> NeverTwo(s, steps[..|steps| - 1]))
  }

  ghost predicate NoSecondClaim(s: State, steps: seq<Step>) {
    steps == [] ||
    (NoSecondClaim(s, steps[..|steps| - 1]) && !SecondClaim(After(s, steps[..|steps| - 1]), steps[|steps| - 1]))
  }

  /**
   * Over any run: no two workers are ever at one delivery exactly when no claim is won of
   * a row that another is at. A reclaim that passes a live claim makes one possible, and
   * is harmless until it is made.
   */
  lemma {:induction false} NeverTwoIff(s: State, steps: seq<Step>)
    requires NoTwo(s)
    ensures NeverTwo(s, steps) <==> NoSecondClaim(s, steps)
  {
    if steps != [] {
      var init := steps[..|steps| - 1];
      NeverTwoIff(s, init);
      hide NoTwo, Next, SecondClaim;
      if NeverTwo(s, init) {
        assert NoTwo(After(s, init));
        SecondClaimIff(After(s, init), steps[|steps| - 1]);
      }
    }
  }

  // --- what fails without the time limit -------------------------------------------------

  /** One step of a concrete run. */
  lemma {:induction false} Take(s: State, steps: seq<Step>, now: State, step: Step, later: State)
    requires After(s, steps) == now && Next(now, step) == later
    ensures After(s, steps + [step]) == later
    ensures TimelyRun(s, steps) && Timely(later) ==> TimelyRun(s, steps + [step])
  {
  }

  const BOTH_READ: seq<Step> := [] + [EnqueueNew("d")] + [ListDue("b", ["d"])] + [ListDue("a", ["d"])]

  function ReadByBoth(): State {
    State(0, map["d" := Row(Pending, 0, 0, None, None)],
      map["a" := Worker(["d"], Empty), "b" := Worker(["d"], Empty)], map["d" := UNTRIED])
  }

  lemma {:induction false} BothRead()
    ensures After(Start(0), BOTH_READ) == ReadByBoth() && TimelyRun(Start(0), BOTH_READ)
  {
    var s0 := Start(0);
    assert After(s0, []) == s0 && TimelyRun(s0, []);
    hide After, TimelyRun;
    var s1 := State(0, map["d" := Row(Pending, 0, 0, None, None)], map[], map["d" := UNTRIED]);
    Take(s0, [], s0, EnqueueNew("d"), s1);
    var s2 := s1.(workers := map["b" := Worker(["d"], Empty)]);
    Take(s0, [] + [EnqueueNew("d")], s1, ListDue("b", ["d"]), s2);
    Take(s0, [] + [EnqueueNew("d")] + [ListDue("b", ["d"])], s2, ListDue("a", ["d"]), ReadByBoth());
  }

  const CLAIM_AND_SEND: seq<Step> := BOTH_READ + [ClaimNext("a", 0)] + [Send("a")]

  const FIRST_CLAIM := Row(Inflight, 0, 0, Some(0), Some("a"))

  /** Two workers have read the row as due; one has claimed and sent it. */
  function FirstSent(): State {
    State(0, map["d" := FIRST_CLAIM], map["a" := Worker([], Sending("d", FIRST_CLAIM)), "b" := Worker(["d"], Empty)],
          map["d" := UNTRIED.(sends := 1)])
  }

  lemma {:induction false} ClaimedAndSent()
    ensures After(Start(0), CLAIM_AND_SEND) == FirstSent() && TimelyRun(Start(0), CLAIM_AND_SEND)
  {
    BothRead();
    hide After, TimelyRun, BOTH_READ;
    var s := ReadByBoth().(rows := map["d" := FIRST_CLAIM],
      workers := map["b" := Worker(["d"], Empty), "a" := Worker([], Holding("d", FIRST_CLAIM))]);
    assert ["d"][1..] == [];
    Take(Start(0), BOTH_READ, ReadByBoth(), ClaimNext("a", 0), s);
    Take(Start(0), BOTH_READ + [ClaimNext("a", 0)], s, Send("a"), FirstSent());
  }

  const LATE := STALE_CLAIM + 1

  const TAKEN_BACK: seq<Step> := CLAIM_AND_SEND + [Tick(LATE)] + [ReclaimStale("c", 1)]

  function RowTakenBack(): State {
    FirstSent().(now := LATE, rows := map["d" := Row(Pending, 0, 0, None, None)])
  }

  lemma {:induction false} SlowSendIsTakenBack()
    ensures After(Start(0), TAKEN_BACK) == RowTakenBack()
  {
    ClaimedAndSent();
    hide After, TimelyRun, CLAIM_AND_SEND;
    var s := FirstSent().(now := LATE);
    Take(Start(0), CLAIM_AND_SEND, FirstSent(), Tick(LATE), s);
    Take(Start(0), CLAIM_AND_SEND + [Tick(LATE)], s, ReclaimStale("c", 1), RowTakenBack());
  }

  /** The reclaim alone, careless as it is, has put nobody else at the row yet. */
  lemma {:induction false} CarelessIsNotYetTwo()
    ensures !CarefulRun(Start(0), TAKEN_BACK) && NoTwo(After(Start(0), TAKEN_BACK))
  {
    ClaimedAndSent();
    SlowSendIsTakenBack();
    hide After, TimelyRun, CLAIM_AND_SEND, Reclaim;
    var s, init := FirstSent().(now := LATE), CLAIM_AND_SEND + [Tick(LATE)];
    Take(Start(0), CLAIM_AND_SEND, FirstSent(), Tick(LATE), s);
    assert TAKEN_BACK[..|TAKEN_BACK| - 1] == init && TAKEN_BACK[|TAKEN_BACK| - 1] == ReclaimStale("c", 1);
    assert "a" in s.workers && !Spares(s, 1);
    assert forall v, id :: IsAt(RowTakenBack(), v, id) ==> v == "a";
  }

  /**
   * The limit is what the claim's exclusiveness rests on. A send that outlasts it,
   * with no crash at all, is sent a second time while the first is still out.
   */
  lemma {:induction false} SlowSendIsSentTwice()
    ensures
      var t := After(Start(0), TAKEN_BACK + [ClaimNext("b", LATE)] + [Send("b")]);
      && At(t, "a").hand.Sending? && At(t, "a").hand.id == "d"
      && At(t, "b").hand.Sending? && At(t, "b").hand.id == "d"
      && "d" in t.past && t.past["d"].sends == 2 && t.past["d"].lost == 0
  {
    SlowSendIsTakenBack();
    hide After, TimelyRun, TAKEN_BACK;
    var again := Row(Inflight, 0, 0, Some(LATE), Some("b"));
    var s := RowTakenBack().(rows := map["d" := again],
      workers := RowTakenBack().workers["b" := Worker([], Holding("d", again))]);
    assert ["d"][1..] == [];
    Take(Start(0), TAKEN_BACK, RowTakenBack(), ClaimNext("b", LATE), s);
    var t := s.(workers := s.workers["b" := Worker([], Sending("d", again))], past := map["d" := UNTRIED.(sends := 2)]);
    Take(Start(0), TAKEN_BACK + [ClaimNext("b", LATE)], s, Send("b"), t);
  }

  // --- when retries are made -------------------------------------------------------------

  predicate ByOne(w: string, step: Step) {
    step.Tick? || step.EnqueueNew? || step.RequeueOld? || step.worker == w
  }

  /** What is still to be claimed is due, and is not the row in hand. */
  predicate QueueDue(s: State, w: string) {
    var q, h := At(s, w).queue, At(s, w).hand;
    && Distinct(q)
    && (forall k :: 0 <= k < |q| ==> q[k] in s.rows && s.rows[q[k]].nextAttemptAt <= s.now)
    && (!h.Empty? ==> h.row.nextAttemptAt <= s.now && h.id !in q && h.id in s.rows)
  }

  /** Every row that any worker has still to claim, or is at, is or was due. */
  ghost predicate AllDue(s: State) {
    s.rows.Keys == s.past.Keys && forall w :: QueueDue(s, w)
  }

  /** A failure that is to be retried is settled while another worker has the row in its queue. */
  ghost predicate Postpones(s: State, step: Step) {
    && step.SettleTry? && Can(s, step)
    && var h := At(s, step.worker).hand;
       !h.ok && !Exhausted(h.row, h.ok) && exists v :: v != step.worker && h.id in At(s, v).queue
  }

  /** A row is claimed before it is due. */
  predicate Early(s: State, step: Step) {
    && step.ClaimNext? && Can(s, step) && Claimable(s.rows[At(s, step.worker).queue[0]])
    && s.rows[At(s, step.worker).queue[0]].nextAttemptAt > s.now
  }

  lemma {:induction false} NoneEarly(s: State, step: Step)
    requires AllDue(s)
    ensures !Early(s, step)
  {
    if step.ClaimNext? { assert QueueDue(s, step.worker); }
  }

  lemma {:induction false} BackoffIsLong(attempts: nat, delay: int)
    requires Jittered(delay, Backoff(attempts))
    ensures delay > 0
  {
  }

  lemma {:induction false} SettleDueIff(s: State, step: Step)
    requires AllDue(s) && step.SettleTry? && Can(s, step)
    ensures AllDue(Next(s, step)) <==> !Postpones(s, step)
  {
    var t, w := Next(s, step), step.worker;
    var h := At(s, w).hand;
    BackoffIsLong(h.row.attempts + 1, step.delay);
    hide Backoff, Jittered, Distinct;
    assert QueueDue(s, w);
    if Postpones(s, step) {
      var v :| v != w && h.id in At(s, v).queue;
      assert At(t, v) == At(s, v) && t.rows[h.id].nextAttemptAt > t.now;
      assert !QueueDue(t, v);
    } else {
      forall v ensures QueueDue(t, v) { assert QueueDue(s, v); }
    }
  }

  lemma {:induction false} TableKeepsDue(s: State, step: Step)
    requires AllDue(s) && (step.Tick? || step.EnqueueNew? || step.RequeueOld? || step.ReclaimStale?)
    ensures AllDue(Next(s, step))
  {
    hide Distinct, DueRead, Stale;
    forall w ensures QueueDue(Next(s, step), w) { assert QueueDue(s, w); }
  }

  lemma {:induction false} ReadingKeepsDue(s: State, step: Step)
    requires AllDue(s) && (step.ListDue? || step.ClaimNext? || step.Crash?)
    ensures AllDue(Next(s, step))
  {
    hide Lose;
    forall w ensures QueueDue(Next(s, step), w) {
      assert QueueDue(s, w);
      if Can(s, step) && step.ClaimNext? && w == step.worker { assert At(s, w).queue[0] !in At(s, w).queue[1..]; }
    }
  }

  lemma {:induction false} TryingKeepsDue(s: State, step: Step)
    requires AllDue(s) && (step.GiveUp? || step.Refuse? || step.Send? || step.Answer?)
    ensures AllDue(Next(s, step))
  {
    hide Distinct, DueRead;
    forall w ensures QueueDue(Next(s, step), w) { assert QueueDue(s, w); }
  }

  /** What is queued or in hand stays due exactly over the steps that postpone no queued row. */
  lemma {:induction false} StepDueIff(s: State, step: Step)
    requires AllDue(s)
    ensures AllDue(Next(s, step)) <==> !Postpones(s, step)
  {
    hide AllDue, Next;
    if step.SettleTry? && Can(s, step) { SettleDueIff(s, step); }
    else if step.SettleTry? { NotTaken(s, step); }
    else if step.ListDue? || step.ClaimNext? || step.Crash? { ReadingKeepsDue(s, step); }
    else if step.GiveUp? || step.Refuse? || step.Send? || step.Answer? { TryingKeepsDue(s, step); }
    else { TableKeepsDue(s, step); }
  }

  lemma {:induction false} NotTaken(s: State, step: Step)
    requires !Can(s, step)
    ensures Next(s, step) == s
  {
  }

  ghost predicate AlwaysDue(s: State, steps: seq<Step>) {
    AllDue(After(s, steps)) && (steps != [] ==> AlwaysDue(s, steps[..|steps| - 1]))
  }

  ghost predicate NeverPostpones(s: State, steps: seq<Step>) {
    steps == [] ||
    (NeverPostpones(s, steps[..|steps| - 1]) && !Postpones(After(s, steps[..|steps| - 1]), steps[|steps| - 1]))
  }

  /**
   * A retry waits for its backoff, whatever the workers: throughout a run every row that
   * is queued or in hand is due exactly when no failure is settled of a row that another
   * worker has in its queue. While that holds no claim is early.
   */
  lemma {:induction false} RetriesWaitIff(s: State, steps: seq<Step>)
    requires AllDue(s)
    ensures AlwaysDue(s, steps) <==> NeverPostpones(s, steps)
    ensures NeverPostpones(s, steps) ==> forall step :: !Early(After(s, steps), step)
  {
    if steps != [] {
      var init := steps[..|steps| - 1];
      RetriesWaitIff(s, init);
      hide AllDue, Next, Postpones, Early;
      if AlwaysDue(s, init) {
        assert AllDue(After(s, init));
        StepDueIff(After(s, init), steps[|steps| - 1]);
      }
    }
    if AlwaysDue(s, steps) {
      assert AllDue(After(s, steps));
      forall step ensures !Early(After(s, steps), step) { NoneEarly(After(s, steps), step); }
    }
  }

  /** Nobody but `w` has anything queued or in hand. */
  ghost predicate Alone(s: State, w: string) {
    forall v :: v != w ==> At(s, v) == Worker([], Empty)
  }

  lemma {:induction false} StaysAlone(s: State, w: string, step: Step)
    requires Alone(s, w) && ByOne(w, step)
    ensures Alone(Next(s, step), w) && !Postpones(s, step)
  {
    hide Backoff, Settle, Lose, Reclaim, Requeue, Distinct, DueRead;
    forall v | v != w ensures At(Next(s, step), v) == Worker([], Empty) {
      assert At(s, v) == Worker([], Empty);
    }
  }

  lemma {:induction false} OneIsAlone(now: int, steps: seq<Step>, w: string)
    requires forall i :: 0 <= i < |steps| ==> ByOne(w, steps[i])
    ensures Alone(After(Start(now), steps), w) && NeverPostpones(Start(now), steps)
  {
    if steps != [] {
      OneIsAlone(now, steps[..|steps| - 1], w);
      hide Alone, Postpones, Next;
      StaysAlone(After(Start(now), steps[..|steps| - 1]), w, steps[|steps| - 1]);
    }
  }

  /** A single worker never begins an attempt before it is due, whenever rows are requeued. */
  lemma {:induction false} OneWorkerWaits(now: int, steps: seq<Step>, w: string)
    requires forall i :: 0 <= i < |steps| ==> ByOne(w, steps[i])
    ensures AlwaysDue(Start(now), steps) && forall step :: !Early(After(Start(now), steps), step)
  {
    OneIsAlone(now, steps, w);
    hide After, NeverPostpones, AlwaysDue, Early;
    RetriesWaitIff(Start(now), steps);
  }

  const FIRST_ANSWERED: seq<Step> := CLAIM_AND_SEND + [Answer("a", false)]

  function Answered(): State {
    FirstSent().(workers := map["a" := Worker([], Tried("d", FIRST_CLAIM, false, true)), "b" := Worker(["d"], Empty)])
  }

  lemma {:induction false} FirstAnswered()
    ensures After(Start(0), FIRST_ANSWERED) == Answered() && TimelyRun(Start(0), FIRST_ANSWERED)
  {
    ClaimedAndSent();
    hide After, TimelyRun, CLAIM_AND_SEND;
    Take(Start(0), CLAIM_AND_SEND, FirstSent(), Answer("a", false), Answered());
  }

  const FIRST_FAILED: seq<Step> := FIRST_ANSWERED + [SettleTry("a", 30000)]

  function RetryLater(): State {
    State(0, map["d" := Row(Failed, 1, 30000, None, None)], map["a" := Worker([], Empty), "b" := Worker(["d"], Empty)],
          map["d" := UNTRIED.(sends := 1, tries := 1, failed := 1)])
  }

  lemma {:induction false} FirstFailed()
    ensures After(Start(0), FIRST_FAILED) == RetryLater() && TimelyRun(Start(0), FIRST_FAILED)
  {
    FirstAnswered();
    hide After, TimelyRun, FIRST_ANSWERED;
    Take(Start(0), FIRST_ANSWERED, Answered(), SettleTry("a", 30000), RetryLater());
  }

  /**
   * Two workers may not wait: the claim does not look at the due time again, so a
   * row that both read as due is retried by the second as soon as the first has
   * settled its failure, in spite of the backoff just written.
   */
  lemma {:induction false} SecondWorkerSkipsTheBackoff()
    ensures
      var steps := FIRST_FAILED + [ClaimNext("b", 0)];
      var t := After(Start(0), steps);
      && TimelyRun(Start(0), steps) && Early(After(Start(0), FIRST_FAILED), ClaimNext("b", 0))
      && At(t, "b").hand.Holding? && At(t, "b").hand.row.attempts == 1
      && t.now == 0 && At(t, "b").hand.row.nextAttemptAt == 30000
  {
    FirstFailed();
    hide After, TimelyRun, FIRST_FAILED;
    var again := Row(Inflight, 1, 30000, Some(0), Some("b"));
    var s := RetryLater().(rows := map["d" := again],
      workers := RetryLater().workers["b" := Worker([], Holding("d", again))]);
    assert ["d"][1..] == [];
    Take(Start(0), FIRST_FAILED, RetryLater(), ClaimNext("b", 0), s);
  }
}
