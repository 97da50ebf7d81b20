/**
 * The register of ledger transactions: submissions are recorded, and any number of
 * confirmer passes resolve them by asking the chain. A run is any interleaving.
 */
module Confirmer {
  import opened Sequences
  import opened Wrappers

  const STALE_CLAIM := 60000
  const BASE_BACKOFF := 5000
  const UNKNOWN_RETRY := 3600000

  datatype TxStatus = Pending | Confirmed | Failed | Unknown

  datatype Row = Row(assetId: Option<string>, status: TxStatus, attempts: nat, nextAttemptAt: int,
    claimedAt: Option<int>, claimedBy: Option<string>)

  /** What a poll brings back: a receipt, whose status may be missing, or nothing (no receipt yet, or an error). */
  datatype Answer = Silence | Receipt(status: Option<int>)

  predicate Open(status: TxStatus) {
    status == Pending || status == Unknown
  }

  function Claim(r: Row, worker: string, at: int): Option<Row> {
    if r.claimedAt.Some? || !Open(r.status) then None else Some(r.(claimedAt := Some(at), claimedBy := Some(worker)))
  }

  function Reclaim(r: Row, before: int): Row {
    if r.claimedAt.Some? && r.claimedAt.value < before then r.(claimedAt := None, claimedBy := None) else r
  }

  /** Unconditional, whatever the row has become in the meantime. */
  function Settle(r: Row, status: TxStatus, next: int): Row {
    r.(status := status, nextAttemptAt := next, claimedAt := None, claimedBy := None)
  }

  function Defer(r: Row, next: int): Row {
    r.(attempts := r.attempts + 1, nextAttemptAt := next, claimedAt := None, claimedBy := None)
  }

  /** What a pass begun at `now` makes of the answer for a row it claimed as `claimed` and that is now `current`. */
  function Conclude(current: Row, claimed: Row, answer: Answer, now: int, maxAttempts: nat): Row {
    match answer
    case Receipt(Some(0)) => Settle(current, Failed, current.nextAttemptAt)
    case Receipt(_) => Settle(current, Confirmed, current.nextAttemptAt)
    case Silence =>
      if claimed.attempts + 1 >= maxAttempts then Settle(current, Unknown, now + UNKNOWN_RETRY)
      else Defer(current, now + BASE_BACKOFF * Pow2(claimed.attempts))
  }

  // --- workers ------------------------------------------------------------------------

  datatype Hand = Empty | Claimed(id: string, row: Row) | Polled(id: string, row: Row, answer: Answer)

  /** A pass: when it began, what it has still to claim, and the row it is at. */
  datatype Worker = Worker(began: int, queue: seq<string>, hand: Hand)

  /**
   * What anyone has ever been told about a transaction: a receipt with status 0, one with
   * another status, one with none, or a submission that was its own proof.
   */
  datatype Evidence = Evidence(reverted: bool, mined: bool, statusless: bool, submitted: bool)

  /** A receipt whose status is missing proves nothing. */
  predicate Proven(e: Evidence) {
    e.mined || e.submitted
  }

  datatype State = State(
    now: int,
    rows: map<string, Row>,
    workers: map<string, Worker>,
    recorders: map<string, string>,   // submissions recorded and about to be settled as confirmed
    evidence: map<string, Evidence>)

  datatype Step =
    | Tick(d: nat)
    | Record(recorder: string, id: string, assetId: Option<string>, final: bool)
    | FinishRecord(recorder: string)
    | Begin(worker: string)
    | ReclaimStale(worker: string)
    | ListDue(worker: string, ids: seq<string>)
    | ClaimNext(worker: string)
    | Poll(worker: string, answer: Answer)
    | ConcludePoll(worker: string)
    | Crash(worker: string)

  function At(s: State, w: string): Worker {
    if w in s.workers then s.workers[w] else Worker(s.now, [], Empty)
  }

  predicate Can(s: State, step: Step) {
    match step
    case Tick(_) => true
    case Record(r, id, _, _) => r !in s.recorders && (id in s.rows <==> id in s.evidence)
    case FinishRecord(r) => r in s.recorders && s.recorders[r] in s.rows
    case Begin(w) => At(s, w).hand.Empty? && At(s, w).queue == []
    case ReclaimStale(w) => w in s.workers && At(s, w).hand.Empty?
    case ListDue(w, ids) => w in s.workers && At(s, w).hand.Empty? && forall i :: 0 <= i < |ids| ==> ids[i] in s.rows
    case ClaimNext(w) => At(s, w).hand.Empty? && At(s, w).queue != [] && At(s, w).queue[0] in s.rows
    case Poll(w, _) => At(s, w).hand.Claimed? && At(s, w).hand.id in s.evidence
    case ConcludePoll(w) => At(s, w).hand.Polled? && At(s, w).hand.id in s.rows
    case Crash(w) => w in s.workers
  }

  function Told(e: Evidence, answer: Answer): Evidence {
    match answer
    case Silence => e
    case Receipt(Some(0)) => e.(reverted := true)
    case Receipt(Some(_)) => e.(mined := true)
    case Receipt(None) => e.(statusless := true)
  }

  function Put(s: State, w: string, worker: Worker): State {
    s.(workers := s.workers[w := worker])
  }

  /**
   * Recording is idempotent on the transaction; `final` says the submission itself is
   * proof, by carrying a block number or coming from a chain that cannot be polled.
   */
  function DoRecord(s: State, r: string, id: string, assetId: Option<string>, final: bool): State
    requires id in s.rows <==> id in s.evidence
  {
    var rows := if id in s.rows then s.rows else s.rows[id := Row(assetId, Pending, 0, s.now, None, None)];
    var e := if id in s.evidence then s.evidence[id] else Evidence(false, false, false, false);
    var t := s.(rows := rows, evidence := s.evidence[id := e.(submitted := e.submitted || final)]);
    if rows[id].status == Pending && final then t.(recorders := s.recorders[r := id]) else t
  }

  function Do(s: State, step: Step, maxAttempts: nat): State
    requires Can(s, step)
  {
    match step
    case Tick(d) => s.(now := s.now + d)
    case Record(r, id, assetId, final) => DoRecord(s, r, id, assetId, final)
    case FinishRecord(r) =>
      var id := s.recorders[r];
      s.(rows := s.rows[id := Settle(s.rows[id], Confirmed, s.rows[id].nextAttemptAt)], recorders := s.recorders - {r})
    case Begin(w) => Put(s, w, Worker(s.now, [], Empty))
    case ReclaimStale(w) => s.(rows := map id | id in s.rows :: Reclaim(s.rows[id], At(s, w).began - STALE_CLAIM))
    case ListDue(w, ids) => Put(s, w, At(s, w).(queue := ids))
    case ClaimNext(w) =>
      var me := At(s, w);
      var claimed := Claim(s.rows[me.queue[0]], w, me.began);
      if claimed.None? then Put(s, w, me.(queue := me.queue[1..]))
      else Put(s, w,
        me.(queue := me.queue[1..], hand := Claimed(me.queue[0], claimed.value))).(rows :=
        s.rows[me.queue[0] := claimed.value])
    case Poll(w, answer) =>
      var me := At(s, w);
      Put(s, w, me.(hand := Polled(me.hand.id, me.hand.row, answer)))
        .(evidence := s.evidence[me.hand.id := Told(s.evidence[me.hand.id], answer)])
    case ConcludePoll(w) =>
      var me := At(s, w);
      var id := me.hand.id;
      Put(s, w, me.(hand := Empty)).(rows := s.rows[id := Conclude(s.rows[id], me.hand.row, me.hand.answer, me.began,
        maxAttempts)])
    case Crash(w) => s.(workers := s.workers - {w})
  }

  function Next(s: State, step: Step, maxAttempts: nat): State {
    if Can(s, step) then Do(s, step, maxAttempts) else s
  }

  function After(s: State, steps: seq<Step>, maxAttempts: nat): State {
    if steps == [] then s else Next(After(s, steps[..|steps| - 1], maxAttempts), steps[|steps| - 1], maxAttempts)
  }

  lemma {:induction false} AfterBoth(s: State, first: seq<Step>, more: seq<Step>, maxAttempts: nat)
    ensures After(s, first + more, maxAttempts) == After(After(s, first, maxAttempts), more, maxAttempts)
  {
    if more == [] {
      assert first + more == first;
    } else {
      var init := more[..|more| - 1];
      assert (first + more)[..|first + more| - 1] == first + init;
      AfterBoth(s, first, init, maxAttempts);
    }
  }

  lemma {:induction false} AfterThree(s: State, a: Step, b: Step, c: Step, maxAttempts: nat)
    ensures After(s, [a, b, c], maxAttempts) == Next(Next(Next(s, a, maxAttempts), b, maxAttempts), c, maxAttempts)
  {
    hide Next;
    assert [a, b, c][..2] == [a, b] && [a, b][..1] == [a] && [a][..0] == [];
    assert After(s, [], maxAttempts) == s;
    assert After(s, [a], maxAttempts) == Next(s, a, maxAttempts);
    assert After(s, [a, b], maxAttempts) == Next(Next(s, a, maxAttempts), b, maxAttempts);
  }

  function Start(now: int): State {
    State(now, map[], map[], map[], map[])
  }

  // --- the register never over-claims, whatever the timing ---------------------------------

  predicate Backed(status: TxStatus, e: Evidence) {
    (status == Failed ==> e.reverted) && (status == Confirmed ==> Proven(e) || e.statusless)
  }

  predicate Heard(e: Evidence, answer: Answer) {
    match answer
    case Silence => true
    case Receipt(Some(0)) => e.reverted
    case Receipt(Some(_)) => e.mined
    case Receipt(None) => e.statusless
  }

  predicate HandBacked(s: State, w: string) {
    var h := At(s, w).hand;
    && (!h.Empty? ==> h.id in s.rows && h.id in s.evidence)
    && (h.Polled? ==> Heard(s.evidence[h.id], h.answer))
  }

  ghost predicate AllBacked(s: State) {
    && s.rows.Keys == s.evidence.Keys
    && (forall id :: id in s.rows ==> Backed(s.rows[id].status, s.evidence[id]))
    && (forall w :: HandBacked(s, w))
    && (forall r :: r in s.recorders ==> s.recorders[r] in s.rows && s.evidence[s.recorders[r]].submitted)
  }

  predicate OfRecorder(step: Step) {
    step.Tick? || step.Record? || step.FinishRecord?
  }

  lemma {:induction false} RecordBacked(s: State, step: Step)
    requires AllBacked(s) && step.Record? && Can(s, step)
    ensures AllBacked(DoRecord(s, step.recorder, step.id, step.assetId, step.final))
  {
    var t := DoRecord(s, step.recorder, step.id, step.assetId, step.final);
    forall w ensures HandBacked(t, w) { assert HandBacked(s, w); }
  }

  lemma {:induction false} RecorderStepBacked(s: State, step: Step, maxAttempts: nat)
    requires AllBacked(s) && OfRecorder(step)
    ensures AllBacked(Next(s, step, maxAttempts))
  {
    if step.Record? {
      if Can(s, step) { RecordBacked(s, step); }
      hide AllBacked, DoRecord, Conclude;
    } else {
      hide Conclude, DoRecord;
      var t := Next(s, step, maxAttempts);
      forall w ensures HandBacked(t, w) { assert HandBacked(s, w); }
    }
  }

  lemma {:induction false} TableStepBacked(s: State, step: Step, maxAttempts: nat)
    requires AllBacked(s) && (step.Begin? || step.ReclaimStale? || step.ListDue? || step.Crash?)
    ensures AllBacked(Next(s, step, maxAttempts))
  {
    hide Conclude, DoRecord, Pow2, Claim;
    var t := Next(s, step, maxAttempts);
    forall w ensures HandBacked(t, w) { assert HandBacked(s, w); }
  }

  lemma {:induction false} ClaimStepBacked(s: State, step: Step, maxAttempts: nat)
    requires AllBacked(s) && step.ClaimNext?
    ensures AllBacked(Next(s, step, maxAttempts))
  {
    hide Conclude, DoRecord, Pow2, Reclaim;
    var t := Next(s, step, maxAttempts);
    forall w ensures HandBacked(t, w) { assert HandBacked(s, w); }
  }

  lemma {:induction false} TellingKeeps(e: Evidence, answer: Answer, other: Answer, status: TxStatus)
    ensures Heard(Told(e, answer), answer)
    ensures Heard(e, other) ==> Heard(Told(e, answer), other)
    ensures Backed(status, e) ==> Backed(status, Told(e, answer))
    ensures e.submitted == Told(e, answer).submitted
  {
  }

  lemma {:induction false} PollStepBacked(s: State, step: Step, maxAttempts: nat)
    requires AllBacked(s) && step.Poll?
    ensures AllBacked(Next(s, step, maxAttempts))
  {
    hide Conclude, DoRecord, Told, Heard, Backed;
    var t := Next(s, step, maxAttempts);
    if Can(s, step) {
      var id := At(s, step.worker).hand.id;
      assert HandBacked(s, step.worker);
      TellingKeeps(s.evidence[id], step.answer, step.answer, s.rows[id].status);
      forall w ensures HandBacked(t, w) {
        assert HandBacked(s, w);
        if At(s, w).hand.Polled? {
          TellingKeeps(s.evidence[id], step.answer, At(s, w).hand.answer, s.rows[id].status);
        }
      }
    }
  }

  lemma {:induction false} ConcludingIsBacked(current: Row, claimed: Row, answer: Answer, now: int, maxAttempts: nat,
      e: Evidence)
    requires Heard(e, answer) && Backed(current.status, e)
    ensures Backed(Conclude(current, claimed, answer, now, maxAttempts).status, e)
  {
    hide Pow2;
  }

  lemma {:induction false} ConcludeStepBacked(s: State, step: Step, maxAttempts: nat)
    requires AllBacked(s) && step.ConcludePoll?
    ensures AllBacked(Next(s, step, maxAttempts))
  {
    hide Conclude, DoRecord, Told, Heard, Backed;
    var t := Next(s, step, maxAttempts);
    if Can(s, step) {
      assert HandBacked(s, step.worker);
      var me := At(s, step.worker);
      ConcludingIsBacked(s.rows[me.hand.id], me.hand.row, me.hand.answer, me.began, maxAttempts,
        s.evidence[me.hand.id]);
    }
    forall w ensures HandBacked(t, w) { assert HandBacked(s, w); }
  }

  lemma {:induction false} RunBacked(now: int, steps: seq<Step>, maxAttempts: nat)
    ensures AllBacked(After(Start(now), steps, maxAttempts))
  {
    if steps != [] {
      RunBacked(now, steps[..|steps| - 1], maxAttempts);
      var s, step := After(Start(now), steps[..|steps| - 1], maxAttempts), steps[|steps| - 1];
      hide AllBacked, Next;
      if OfRecorder(step) { RecorderStepBacked(s, step, maxAttempts); }
      else if step.Poll? { PollStepBacked(s, step, maxAttempts); }
      else if step.ConcludePoll? { ConcludeStepBacked(s, step, maxAttempts); }
      else if step.ClaimNext? { ClaimStepBacked(s, step, maxAttempts); }
      else { TableStepBacked(s, step, maxAttempts); }
    }
  }

  // --- what the register may claim about an asset --------------------------------------------

  datatype AssetStatus = SettlesActive | SettlesPending | SettlesFailed

  function RowsWith(rows: map<string, Row>, assetId: string, status: TxStatus): set<string> {
    set id | id in rows && rows[id].assetId == Some(assetId) && rows[id].status == status
  }

  function SettlementStatus(rows: map<string, Row>, assetId: string, assetFailed: bool): AssetStatus {
    if |RowsWith(rows, assetId, Pending)| + |RowsWith(rows, assetId, Unknown)| > 0 then SettlesPending
    else if |RowsWith(rows, assetId, Failed)| > 0 then SettlesFailed
    else if assetFailed then SettlesFailed else SettlesActive
  }

  lemma {:induction false} ActiveIff(rows: map<string, Row>, assetId: string, assetFailed: bool)
    ensures SettlementStatus(rows, assetId, assetFailed) == SettlesActive <==>
      !assetFailed && forall id :: id in rows && rows[id].assetId == Some(assetId) ==> rows[id].status == Confirmed
    ensures SettlementStatus(rows, assetId, assetFailed) == SettlesPending <==>
      exists id :: id in rows && rows[id].assetId == Some(assetId) && Open(rows[id].status)
  {
    var p, u, f := RowsWith(rows, assetId, Pending), RowsWith(rows, assetId, Unknown), RowsWith(rows, assetId, Failed);
    assert |p| + |u| == 0 <==> p == {} && u == {};
    assert |f| == 0 <==> f == {};
    forall id | id in rows && rows[id].assetId == Some(assetId)
      ensures rows[id].status == Confirmed || id in p || id in u || id in f
    {
    }
    if p != {} { var id :| id in p; }
    if u != {} { var id :| id in u; }
    if f != {} { var id :| id in f; }
  }

  /**
   * What the register claims, under any interleaving and any delays: an asset reads
   * active only if of every transaction recorded for it somebody was told a status that
   * is not a revert, or it was its own proof, or a receipt came without a status; and
   * reads failed only on the asset's own mark or a receipt with status 0. A transaction
   * about which nobody was told anything is still open, and will be polled again.
   */
  lemma {:induction false} RegisterNeverOverClaims(now: int, steps: seq<Step>, maxAttempts: nat, assetId: string,
      assetFailed: bool, id: string)
    ensures
      var t := After(Start(now), steps, maxAttempts);
      var verdict := SettlementStatus(t.rows, assetId, assetFailed);
      && (verdict == SettlesActive && id in t.rows && t.rows[id].assetId == Some(assetId) ==>
            id in t.evidence && (Proven(t.evidence[id]) || t.evidence[id].statusless))
      && (verdict == SettlesFailed && !assetFailed ==>
            exists x :: x in t.rows && t.rows[x].assetId == Some(assetId) && x in t.evidence && t.evidence[x].reverted)
      && (id in t.rows ==>
        id in t.evidence && (t.evidence[id] == Evidence(false, false, false, false) ==> Open(t.rows[id].status)))
  {
    RunBacked(now, steps, maxAttempts);
    hide After;
    var t := After(Start(now), steps, maxAttempts);
    ActiveIff(t.rows, assetId, assetFailed);
    var f := RowsWith(t.rows, assetId, Failed);
    if SettlementStatus(t.rows, assetId, assetFailed) == SettlesFailed && !assetFailed {
      assert f != {};
      var x :| x in f;
      assert t.evidence[x].reverted;
    }
  }

  // --- when an active verdict rests on no proof ------------------------------------------------

  predicate Unproven(s: State, id: string) {
    id in s.rows && id in s.evidence && s.rows[id].status == Confirmed && !Proven(s.evidence[id])
  }

  /** A receipt without a status is written down as a confirmation of what nothing else has proved. */
  predicate ConfirmsUnproven(s: State, step: Step, id: string) {
    && step.ConcludePoll? && Can(s, step)
    && At(s, step.worker).hand.id == id && At(s, step.worker).hand.answer == Receipt(None)
    && id in s.evidence && !Proven(s.evidence[id])
  }

  /** A confirmation comes to rest on no proof by such a step and by nothing else. */
  lemma {:induction false} UnprovenStepIff(s: State, step: Step, maxAttempts: nat, id: string)
    requires AllBacked(s) && !Unproven(s, id)
    ensures Unproven(Next(s, step, maxAttempts), id) <==> ConfirmsUnproven(s, step, id)
  {
    hide Pow2;
    if step.ConcludePoll? || step.Poll? { assert HandBacked(s, step.worker); }
  }

  predicate AlwaysProven(s: State, steps: seq<Step>, maxAttempts: nat, id: string) {
    !Unproven(After(s, steps, maxAttempts), id)
    && (steps != [] ==> AlwaysProven(s, steps[..|steps| - 1], maxAttempts, id))
  }

  predicate NeverUnproven(s: State, steps: seq<Step>, maxAttempts: nat, id: string) {
    steps == [] ||
    (NeverUnproven(s, steps[..|steps| - 1], maxAttempts, id)
     && !ConfirmsUnproven(After(s, steps[..|steps| - 1], maxAttempts), steps[|steps| - 1], id))
  }

  /** Over any run, a transaction is never confirmed without proof exactly when no such step is taken. */
  lemma {:induction false} ProvenIff(now: int, steps: seq<Step>, maxAttempts: nat, id: string)
    ensures AlwaysProven(Start(now), steps, maxAttempts, id) <==> NeverUnproven(Start(now), steps, maxAttempts, id)
  {
    if steps != [] {
      var init := steps[..|steps| - 1];
      ProvenIff(now, init, maxAttempts, id);
      RunBacked(now, init, maxAttempts);
      hide AllBacked, Next, Unproven, ConfirmsUnproven;
      if AlwaysProven(Start(now), init, maxAttempts, id) {
        UnprovenStepIff(After(Start(now), init, maxAttempts), steps[|steps| - 1], maxAttempts, id);
      }
    }
  }

  /** The transactions recorded for an asset. */
  predicate Concerns(s: State, assetId: string, id: string) {
    id in s.rows && s.rows[id].assetId == Some(assetId)
  }

  /**
   * An active verdict rests on no proof exactly for the transactions confirmed without
   * any; and for each of those somebody was told of a receipt without a status, and wrote
   * that down as a confirmation at some step of the run.
   */
  lemma {:induction false} ActiveUnprovenIff(now: int, steps: seq<Step>, maxAttempts: nat, assetId: string,
      assetFailed: bool, id: string)
    ensures
      var t := After(Start(now), steps, maxAttempts);
      SettlementStatus(t.rows, assetId, assetFailed) == SettlesActive && Concerns(t, assetId, id) ==>
        && id in t.evidence && (!Proven(t.evidence[id]) <==> Unproven(t, id))
        && (Unproven(t, id) ==>
              t.evidence[id].statusless && !NeverUnproven(Start(now), steps, maxAttempts, id))
  {
    RunBacked(now, steps, maxAttempts);
    ProvenIff(now, steps, maxAttempts, id);
    assert Unproven(After(Start(now), steps, maxAttempts), id) ==> !AlwaysProven(Start(now), steps, maxAttempts, id);
    hide After, NeverUnproven, AlwaysProven, SettlementStatus;
    ActiveIff(After(Start(now), steps, maxAttempts).rows, assetId, assetFailed);
  }

  const RECORDED_ONLY: seq<Step> := [] + [Record("r", "t", Some("asset"), false)] + [Begin("a")] + [ListDue("a", ["t"])]

  function RecordedOnly(): State {
    State(0, map["t" := Row(Some("asset"), Pending, 0, 0, None, None)], map["a" := Worker(0, ["t"], Empty)], map[],
      map["t" := Evidence(false, false, false, false)])
  }

  lemma {:induction false} RecordsOnly()
    ensures After(Start(0), RECORDED_ONLY, 1) == RecordedOnly()
  {
    var s0 := Start(0);
    assert After(s0, [], 1) == s0;
    hide After;
    var s1 := RecordedOnly().(workers := map[]);
    Take(s0, [], s0, Record("r", "t", Some("asset"), false), s1, 1);
    var s2 := s1.(workers := map["a" := Worker(0, [], Empty)]);
    Take(s0, [] + [Record("r", "t", Some("asset"), false)], s1, Begin("a"), s2, 1);
    Take(s0, [] + [Record("r", "t", Some("asset"), false)] + [Begin("a")], s2, ListDue("a", ["t"]), RecordedOnly(), 1);
  }

  const TAKEN := Row(Some("asset"), Pending, 0, 0, Some(0), Some("a"))

  /** One transaction recorded, claimed and polled, of which the receipt has no status. */
  const TOLD_NO_STATUS: seq<Step> := RECORDED_ONLY + [ClaimNext("a")] + [Poll("a", Receipt(None))]

  function ToldNoStatus(): State {
    State(0, map["t" := TAKEN], map["a" := Worker(0, [], Polled("t", TAKEN, Receipt(None)))], map[],
      map["t" := Evidence(false, false, true, false)])
  }

  lemma {:induction false} PollsNoStatus()
    ensures After(Start(0), TOLD_NO_STATUS, 1) == ToldNoStatus()
  {
    RecordsOnly();
    hide After, RECORDED_ONLY, DoRecord;
    assert ["t"][1..] == [];
    var s := RecordedOnly().(rows := map["t" := TAKEN], workers := map["a" := Worker(0, [], Claimed("t", TAKEN))]);
    Take(Start(0), RECORDED_ONLY, RecordedOnly(), ClaimNext("a"), s, 1);
    Take(Start(0), RECORDED_ONLY + [ClaimNext("a")], s, Poll("a", Receipt(None)), ToldNoStatus(), 1);
  }

  /** The case in point: the asset's one transaction has a receipt without a status, and the asset reads active. */
  lemma {:induction false} StatuslessReadsActive()
    ensures
      var t := After(Start(0), TOLD_NO_STATUS + [ConcludePoll("a")], 1);
      && Concerns(t, "asset", "t") && Unproven(t, "t")
      && SettlementStatus(t.rows, "asset", false) == SettlesActive
  {
    PollsNoStatus();
    hide After, TOLD_NO_STATUS, DoRecord;
    var row := Row(Some("asset"), Confirmed, 0, 0, None, None);
    var t := ToldNoStatus().(rows := map["t" := row], workers := map["a" := Worker(0, [], Empty)]);
    Take(Start(0), TOLD_NO_STATUS, ToldNoStatus(), ConcludePoll("a"), t, 1);
    hide SettlementStatus;
    ActiveIff(t.rows, "asset", false);
  }

  // --- when a closed row changes -----------------------------------------------------------------

  /**
   * The step is about to write something else over a closed row: a recorder's
   * confirmation over a failure, or what a pass was told, when that is silence at its
   * last attempt or the opposite of what the row says.
   */
  predicate Overwrites(s: State, step: Step, maxAttempts: nat, id: string)
    requires id in s.rows
  {
    Can(s, step) &&
    match step
    case FinishRecord(r) => s.recorders[r] == id && s.rows[id].status == Failed
    case ConcludePoll(w) =>
      var hand := At(s, w).hand;
      hand.id == id &&
      (match hand.answer
       case Silence => hand.row.attempts + 1 >= maxAttempts
       case Receipt(status) => s.rows[id].status == if status == Some(0) then Confirmed else Failed)
    case _ => false
  }

  /** A step changes a closed row's status exactly when it is one of these. */
  lemma {:induction false} ClosedChangesIff(s: State, step: Step, maxAttempts: nat, id: string)
    requires id in s.rows && !Open(s.rows[id].status)
    ensures id in Next(s, step, maxAttempts).rows
    ensures Next(s, step, maxAttempts).rows[id].status != s.rows[id].status <==> Overwrites(s, step, maxAttempts, id)
  {
    hide Pow2;
  }

  ghost predicate KeepsStatus(s: State, steps: seq<Step>, maxAttempts: nat, id: string)
    requires id in s.rows
  {
    forall k :: 0 <= k <= |steps| ==>
      id in After(s, steps[..k], maxAttempts).rows
        && After(s, steps[..k], maxAttempts).rows[id].status == s.rows[id].status
  }

  ghost predicate NeverOverwrites(s: State, steps: seq<Step>, maxAttempts: nat, id: string) {
    forall k :: 0 <= k < |steps| ==>
      id in After(s, steps[..k], maxAttempts).rows
        && !Overwrites(After(s, steps[..k], maxAttempts), steps[k], maxAttempts, id)
  }

  /**
   * Over any run, from any state: a closed row keeps its status throughout exactly when no step of
   * the run overwrites it.
   */
  lemma {:induction false} ClosedForGoodIff(s: State, steps: seq<Step>, maxAttempts: nat, id: string)
    requires id in s.rows && !Open(s.rows[id].status)
    ensures KeepsStatus(s, steps, maxAttempts, id) <==> NeverOverwrites(s, steps, maxAttempts, id)
  {
    if steps == [] {
      assert After(s, [], maxAttempts) == s;
    } else {
      var n := |steps| - 1;
      var init := steps[..n];
      forall k | 0 <= k <= n ensures init[..k] == steps[..k] { }
      assert steps[..n + 1] == steps;
      ClosedForGoodIff(s, init, maxAttempts, id);
      var t := After(s, init, maxAttempts);
      if id in t.rows && t.rows[id].status == s.rows[id].status { ClosedChangesIff(t, steps[n], maxAttempts, id); }
      hide Overwrites, Next, Open;
      LastStep(s, steps, maxAttempts, id);
    }
  }

  /** Both conditions, of a run and of all of it but its last step. */
  lemma {:induction false} LastStep(s: State, steps: seq<Step>, maxAttempts: nat, id: string)
    requires id in s.rows && steps != []
    ensures
      var n := |steps| - 1;
      var t, end := After(s, steps[..n], maxAttempts), After(s, steps, maxAttempts);
      && (KeepsStatus(s, steps, maxAttempts, id) <==>
            KeepsStatus(s, steps[..n], maxAttempts, id) && id in end.rows && end.rows[id].status == s.rows[id].status)
      && (NeverOverwrites(s, steps, maxAttempts, id) <==>
            NeverOverwrites(s, steps[..n], maxAttempts, id) && id in t.rows
              && !Overwrites(t, steps[n], maxAttempts, id))
      && (KeepsStatus(s, steps[..n], maxAttempts, id) ==> id in t.rows && t.rows[id].status == s.rows[id].status)
  {
    hide After, Overwrites;
    var n := |steps| - 1;
    forall k | 0 <= k <= n ensures steps[..n][..k] == steps[..k] { }
    assert steps[..n + 1] == steps && steps[..n][..n] == steps[..n];
  }

  // --- and when it cannot ---------------------------------------------------------------------------

  /** No pass that is still alive began longer ago than the stale limit, while it has a row in hand. */
  predicate Timely(s: State) {
    forall w :: w in s.workers && !s.workers[w].hand.Empty? ==> s.now - s.workers[w].began <= STALE_CLAIM
  }

  /** No row is in a pass's hand while its recorder has still to settle it. */
  predicate Apart(s: State) {
    forall w, r :: w in s.workers && r in s.recorders && !s.workers[w].hand.Empty? ==>
      s.workers[w].hand.id != s.recorders[r]
  }

  predicate QuietRun(s: State, steps: seq<Step>, maxAttempts: nat) {
    Timely(After(s, steps, maxAttempts)) && Apart(After(s, steps, maxAttempts))
      && (steps != [] ==> QuietRun(s, steps[..|steps| - 1], maxAttempts))
  }

  predicate HeldOpen(s: State, w: string) {
    w in s.workers ==>
      && s.workers[w].began <= s.now
      && (!s.workers[w].hand.Empty? ==>
            && s.workers[w].hand.id in s.rows
            && s.rows[s.workers[w].hand.id].claimedBy == Some(w)
            && s.rows[s.workers[w].hand.id].claimedAt == Some(s.workers[w].began)
            && Open(s.rows[s.workers[w].hand.id].status))
  }

  ghost predicate Orderly(s: State) {
    && (forall w :: HeldOpen(s, w))
    && (forall r :: r in s.recorders ==>
      s.recorders[r] in s.rows && s.rows[s.recorders[r]].status in {Pending, Unknown, Confirmed})
  }

  /** Rows closed in `s` are closed the same way in `t`. */
  ghost predicate ClosedKept(s: State, t: State) {
    forall id :: id in s.rows ==> id in t.rows && (!Open(s.rows[id].status) ==> t.rows[id].status == s.rows[id].status)
  }

  lemma {:induction false} RecordQuiet(s: State, step: Step)
    requires Orderly(s) && step.Record? && Can(s, step)
    ensures
      var t := DoRecord(s, step.recorder, step.id, step.assetId, step.final);
      Orderly(t) && ClosedKept(s, t)
  {
    var t := DoRecord(s, step.recorder, step.id, step.assetId, step.final);
    forall w ensures HeldOpen(t, w) { assert HeldOpen(s, w); }
  }

  lemma {:induction false} RecorderStepQuiet(s: State, step: Step, maxAttempts: nat)
    requires Orderly(s) && Timely(s) && Apart(s) && OfRecorder(step)
    ensures Orderly(Next(s, step, maxAttempts)) && ClosedKept(s, Next(s, step, maxAttempts))
  {
    hide Conclude, DoRecord;
    if step.Record? {
      if Can(s, step) { RecordQuiet(s, step); }
      hide Orderly;
    } else {
      var t := Next(s, step, maxAttempts);
      forall w ensures HeldOpen(t, w) { assert HeldOpen(s, w); }
    }
  }

  lemma {:induction false} TableStepQuiet(s: State, step: Step, maxAttempts: nat)
    requires Orderly(s) && Timely(s) && Apart(s)
    requires step.Begin? || step.ListDue? || step.ClaimNext? || step.Crash? || step.Poll?
    ensures Orderly(Next(s, step, maxAttempts)) && ClosedKept(s, Next(s, step, maxAttempts))
  {
    hide Conclude, DoRecord, Told;
    var t := Next(s, step, maxAttempts);
    forall w ensures HeldOpen(t, w) { assert HeldOpen(s, w); }
  }

  lemma {:induction false} ReclaimStepQuiet(s: State, step: Step, maxAttempts: nat)
    requires Orderly(s) && Timely(s) && step.ReclaimStale?
    ensures Orderly(Next(s, step, maxAttempts)) && ClosedKept(s, Next(s, step, maxAttempts))
  {
    hide Conclude, DoRecord;
    var t := Next(s, step, maxAttempts);
    assert HeldOpen(s, step.worker);
    forall w ensures HeldOpen(t, w) { assert HeldOpen(s, w); }
  }

  lemma {:induction false} ConcludeStepQuiet(s: State, step: Step, maxAttempts: nat)
    requires Orderly(s) && Apart(s) && step.ConcludePoll?
    ensures Orderly(Next(s, step, maxAttempts)) && ClosedKept(s, Next(s, step, maxAttempts))
  {
    hide Pow2, DoRecord;
    var t := Next(s, step, maxAttempts);
    assert HeldOpen(s, step.worker);
    forall w ensures HeldOpen(t, w) { assert HeldOpen(s, w); }
  }

  lemma {:induction false} StepQuiet(s: State, step: Step, maxAttempts: nat)
    requires Orderly(s) && Timely(s) && Apart(s)
    ensures Orderly(Next(s, step, maxAttempts)) && ClosedKept(s, Next(s, step, maxAttempts))
  {
    hide *;
    if step.Tick? || step.Record? || step.FinishRecord? { IsOfRecorder(step); RecorderStepQuiet(s, step, maxAttempts); }
    else if step.ReclaimStale? { ReclaimStepQuiet(s, step, maxAttempts); }
    else if step.ConcludePoll? { ConcludeStepQuiet(s, step, maxAttempts); }
    else { TableStepQuiet(s, step, maxAttempts); }
  }

  lemma {:induction false} IsOfRecorder(step: Step)
    requires step.Tick? || step.Record? || step.FinishRecord?
    ensures OfRecorder(step)
  {
  }

  lemma {:induction false} QuietOrderly(now: int, steps: seq<Step>, maxAttempts: nat)
    requires QuietRun(Start(now), steps, maxAttempts)
    ensures Orderly(After(Start(now), steps, maxAttempts))
  {
    if steps != [] {
      QuietOrderly(now, steps[..|steps| - 1], maxAttempts);
      hide Orderly, Timely, Apart, Next;
      StepQuiet(After(Start(now), steps[..|steps| - 1], maxAttempts), steps[|steps| - 1], maxAttempts);
    }
  }

  /**
   * Over a run in which passes are timely and keep apart from recorders, confirmed and failed rows
   * never change again.
   */
  lemma {:induction false} ClosedForGood(now: int, first: seq<Step>, more: seq<Step>, maxAttempts: nat, id: string)
    requires QuietRun(Start(now), first + more, maxAttempts)
    requires id in After(Start(now), first, maxAttempts).rows
      && !Open(After(Start(now), first, maxAttempts).rows[id].status)
    ensures
      var t := After(Start(now), first + more, maxAttempts);
      id in t.rows && t.rows[id].status == After(Start(now), first, maxAttempts).rows[id].status
  {
    if more == [] {
      assert first + more == first;
    } else {
      var init := first + more[..|more| - 1];
      assert (first + more)[..|first + more| - 1] == init;
      ClosedForGood(now, first, more[..|more| - 1], maxAttempts, id);
      QuietOrderly(now, init, maxAttempts);
      StepQuiet(After(Start(now), init, maxAttempts), more[|more| - 1], maxAttempts);
      hide Next, Orderly, Timely, Apart, Open;
      assert ClosedKept(After(Start(now), init, maxAttempts), After(Start(now), first + more, maxAttempts));
    }
  }

  /**
   * What closes an open row: a receipt and nothing else, as failed exactly when its
   * status is 0. A receipt whose status is missing closes it as confirmed.
   */
  lemma {:induction false} ConcludeIff(current: Row, claimed: Row, answer: Answer, now: int, maxAttempts: nat)
    requires Open(current.status)
    ensures
      var r := Conclude(current, claimed, answer, now, maxAttempts);
      && (r.status == Failed <==> answer == Receipt(Some(0)))
      && (r.status == Confirmed <==> answer.Receipt? && answer.status != Some(0))
      && (answer.Silence? ==> r.nextAttemptAt > now && (r.status == current.status || r.status == Unknown))
      && (answer.Receipt? ==> r.attempts == current.attempts && r.nextAttemptAt == current.nextAttemptAt)
      && r.claimedAt.None? && r.claimedBy.None? && r.assetId == current.assetId
  {
    hide Pow2;
  }

  // --- what fails when a pass is slow ------------------------------------------------------------

  lemma {:induction false} Take(s: State, steps: seq<Step>, now: State, step: Step, later: State, maxAttempts: nat)
    requires After(s, steps, maxAttempts) == now && Next(now, step, maxAttempts) == later
    ensures After(s, steps + [step], maxAttempts) == later
  {
  }

  const LATE := STALE_CLAIM + 1

  const FIRST_CLAIM := Row(None, Pending, 0, 0, Some(0), Some("a"))
  const TOLD_NOTHING := Evidence(false, false, false, false)

  const LISTED: seq<Step> := [] + [Record("r", "t", None, false)] + [Begin("a")] + [ListDue("a", ["t"])]

  function ListedOnce(): State {
    State(0, map["t" := Row(None, Pending, 0, 0, None, None)], map["a" := Worker(0, ["t"], Empty)], map[],
      map["t" := TOLD_NOTHING])
  }

  lemma {:induction false} ListsOnce()
    ensures After(Start(0), LISTED, 1) == ListedOnce()
  {
    var s0 := Start(0);
    assert After(s0, [], 1) == s0;
    hide After;
    var s1 := State(0, map["t" := Row(None, Pending, 0, 0, None, None)], map[], map[], map["t" := TOLD_NOTHING]);
    Take(s0, [], s0, Record("r", "t", None, false), s1, 1);
    var s2 := s1.(workers := map["a" := Worker(0, [], Empty)]);
    Take(s0, [] + [Record("r", "t", None, false)], s1, Begin("a"), s2, 1);
    Take(s0, [] + [Record("r", "t", None, false)] + [Begin("a")], s2, ListDue("a", ["t"]), ListedOnce(), 1);
  }

  /** One pass has polled, and was told nothing yet; it has not written that down. */
  const POLLED: seq<Step> := LISTED + [ClaimNext("a")] + [Poll("a", Silence)]

  function PolledSilence(): State {
    State(0, map["t" := FIRST_CLAIM], map["a" := Worker(0, [], Polled("t", FIRST_CLAIM, Silence))], map[],
      map["t" := TOLD_NOTHING])
  }

  lemma {:induction false} PollsSilence()
    ensures After(Start(0), POLLED, 1) == PolledSilence()
  {
    ListsOnce();
    hide After, LISTED, DoRecord;
    var s := ListedOnce().(rows := map["t" := FIRST_CLAIM],
      workers := map["a" := Worker(0, [], Claimed("t", FIRST_CLAIM))]);
    assert ["t"][1..] == [];
    Take(Start(0), LISTED, ListedOnce(), ClaimNext("a"), s, 1);
    Take(Start(0), LISTED + [ClaimNext("a")], s, Poll("a", Silence), PolledSilence(), 1);
  }

  const RECLAIMED: seq<Step> := POLLED + [Tick(LATE)] + [Begin("b")] + [ReclaimStale("b")]

  function TakenBack(): State {
    State(LATE, map["t" := Row(None, Pending, 0, 0, None, None)],
          map["a" := Worker(0, [], Polled("t", FIRST_CLAIM, Silence)), "b" := Worker(LATE, [], Empty)], map[],
            map["t" := TOLD_NOTHING])
  }

  lemma {:induction false} TakesBack()
    ensures After(Start(0), RECLAIMED, 1) == TakenBack()
  {
    var s0, p := Start(0), POLLED;
    PollsSilence();
    hide After, POLLED, DoRecord, Conclude;
    var s1 := PolledSilence().(now := LATE);
    Take(s0, p, PolledSilence(), Tick(LATE), s1, 1);
    var s2 := s1.(workers := s1.workers["b" := Worker(LATE, [], Empty)]);
    Take(s0, p + [Tick(LATE)], s1, Begin("b"), s2, 1);
    Take(s0, p + [Tick(LATE)] + [Begin("b")], s2, ReclaimStale("b"), TakenBack(), 1);
  }

  const RETAKEN: seq<Step> := RECLAIMED + [ListDue("b", ["t"])] + [ClaimNext("b")]

  const SECOND_CLAIM := Row(None, Pending, 0, 0, Some(LATE), Some("b"))

  function TakenAgain(): State {
    TakenBack().(rows := map["t" := SECOND_CLAIM],
      workers := map["a" := Worker(0, [], Polled("t", FIRST_CLAIM, Silence)),
        "b" := Worker(LATE, [], Claimed("t", SECOND_CLAIM))])
  }

  lemma {:induction false} TakesAgain()
    ensures After(Start(0), RETAKEN, 1) == TakenAgain()
  {
    TakesBack();
    hide After, RECLAIMED, DoRecord, Conclude;
    var s := TakenBack().(workers := TakenBack().workers["b" := Worker(LATE, ["t"], Empty)]);
    Take(Start(0), RECLAIMED, TakenBack(), ListDue("b", ["t"]), s, 1);
    assert ["t"][1..] == [];
    Take(Start(0), RECLAIMED + [ListDue("b", ["t"])], s, ClaimNext("b"), TakenAgain(), 1);
  }

  const CONFIRMED: seq<Step> := RETAKEN + [Poll("b", Receipt(Some(1)))] + [ConcludePoll("b")]

  function NowConfirmed(): State {
    TakenAgain().(rows := map["t" := Row(None, Confirmed, 0, 0, None, None)],
      workers := map["a" := Worker(0, [], Polled("t", FIRST_CLAIM, Silence)), "b" := Worker(LATE, [], Empty)],
      evidence := map["t" := TOLD_NOTHING.(mined := true)])
  }

  lemma {:induction false} OtherPassConfirms()
    ensures After(Start(0), CONFIRMED, 1) == NowConfirmed()
  {
    TakesAgain();
    hide After, RETAKEN, DoRecord;
    var s := TakenAgain().(
      workers := TakenAgain().workers["b" := Worker(LATE, [], Polled("t", SECOND_CLAIM, Receipt(Some(1))))],
                           evidence := map["t" := TOLD_NOTHING.(mined := true)]);
    Take(Start(0), RETAKEN, TakenAgain(), Poll("b", Receipt(Some(1))), s, 1);
    Take(Start(0), RETAKEN + [Poll("b", Receipt(Some(1)))], s, ConcludePoll("b"), NowConfirmed(), 1);
  }

  /**
   * A pass stamps its claims with the time it began. Held up for longer than the limit
   * after a poll that found nothing, it overwrites the confirmation that another pass has
   * written meanwhile: settling does not look at what the row has become.
   */
  lemma {:induction false} SlowPassUnconfirms()
    ensures
      var before, after := After(Start(0), CONFIRMED, 1), After(Start(0), CONFIRMED + [ConcludePoll("a")], 1);
      && "t" in before.rows && before.rows["t"].status == Confirmed
      && "t" in after.rows && after.rows["t"].status == Unknown
  {
    OtherPassConfirms();
    hide After, CONFIRMED, DoRecord;
    var s := NowConfirmed().(rows := map["t" := Row(None, Unknown, 0, UNKNOWN_RETRY, None, None)],
                             workers := NowConfirmed().workers["a" := Worker(0, [], Empty)]);
    Take(Start(0), CONFIRMED, NowConfirmed(), ConcludePoll("a"), s, 1);
  }

  // --- what fails when a recorder is overtaken ---------------------------------------------------

  /** A recorder has its confirmation still to write, and a pass has polled in the meantime and was told nothing. */
  const OVERTAKEN: seq<Step> := [] + [Record("r", "t", None, true)] + [Begin("a")] + [ListDue("a", ["t"])]

  const SUBMITTED := Evidence(false, false, false, true)

  function BothAtIt(): State {
    State(0, map["t" := Row(None, Pending, 0, 0, None, None)], map["a" := Worker(0, ["t"], Empty)], map["r" := "t"],
      map["t" := SUBMITTED])
  }

  lemma {:induction false} Overtakes()
    ensures After(Start(0), OVERTAKEN, 1) == BothAtIt() && TimelyRun(Start(0), OVERTAKEN, 1)
  {
    var s0 := Start(0);
    assert After(s0, [], 1) == s0 && TimelyRun(s0, [], 1);
    hide After, TimelyRun;
    var s1 := State(0, map["t" := Row(None, Pending, 0, 0, None, None)], map[], map["r" := "t"], map["t" := SUBMITTED]);
    TakeTimely(s0, [], s0, Record("r", "t", None, true), s1, 1);
    var s2 := s1.(workers := map["a" := Worker(0, [], Empty)]);
    TakeTimely(s0, [] + [Record("r", "t", None, true)], s1, Begin("a"), s2, 1);
    TakeTimely(s0, [] + [Record("r", "t", None, true)] + [Begin("a")], s2, ListDue("a", ["t"]), BothAtIt(), 1);
  }

  const TOLD: seq<Step> := OVERTAKEN + [ClaimNext("a")] + [Poll("a", Silence)]

  function ToldNothing(): State {
    BothAtIt().(rows := map["t" := FIRST_CLAIM],
      workers := map["a" := Worker(0, [], Polled("t", FIRST_CLAIM, Silence))])
  }

  lemma {:induction false} PassIsToldNothing()
    ensures After(Start(0), TOLD, 1) == ToldNothing() && TimelyRun(Start(0), TOLD, 1)
  {
    Overtakes();
    hide After, TimelyRun, OVERTAKEN, DoRecord;
    var s := BothAtIt().(rows := map["t" := FIRST_CLAIM],
      workers := map["a" := Worker(0, [], Claimed("t", FIRST_CLAIM))]);
    assert ["t"][1..] == [];
    TakeTimely(Start(0), OVERTAKEN, BothAtIt(), ClaimNext("a"), s, 1);
    TakeTimely(Start(0), OVERTAKEN + [ClaimNext("a")], s, Poll("a", Silence), ToldNothing(), 1);
  }

  /**
   * Timeliness alone is not enough. Without any delay at all, a pass that polled before
   * the recorder wrote takes the recorder's confirmation back.
   */
  lemma {:induction false} OvertakenRecorderIsUndone()
    ensures
      var first, all := TOLD + [FinishRecord("r")], TOLD + [FinishRecord("r")] + [ConcludePoll("a")];
      var before, after := After(Start(0), first, 1), After(Start(0), all, 1);
      && TimelyRun(Start(0), all, 1) && !Apart(After(Start(0), TOLD, 1))
      && "t" in before.rows && before.rows["t"].status == Confirmed
      && "t" in after.rows && after.rows["t"].status == Unknown
  {
    PassIsToldNothing();
    hide After, TimelyRun, TOLD, DoRecord;
    var s := ToldNothing().(rows := map["t" := Row(None, Confirmed, 0, 0, None, None)], recorders := map[]);
    TakeTimely(Start(0), TOLD, ToldNothing(), FinishRecord("r"), s, 1);
    var t := s.(rows := map["t" := Row(None, Unknown, 0, UNKNOWN_RETRY, None, None)],
      workers := map["a" := Worker(0, [], Empty)]);
    TakeTimely(Start(0), TOLD + [FinishRecord("r")], s, ConcludePoll("a"), t, 1);
  }

  predicate TimelyRun(s: State, steps: seq<Step>, maxAttempts: nat) {
    Timely(After(s, steps, maxAttempts)) && (steps != [] ==> TimelyRun(s, steps[..|steps| - 1], maxAttempts))
  }

  lemma {:induction false} TakeTimely(s: State, steps: seq<Step>, now: State, step: Step, later: State,
      maxAttempts: nat)
    requires After(s, steps, maxAttempts) == now && Next(now, step, maxAttempts) == later
    requires TimelyRun(s, steps, maxAttempts) && Timely(later)
    ensures After(s, steps + [step], maxAttempts) == later && TimelyRun(s, steps + [step], maxAttempts)
  {
    assert (steps + [step])[..|steps|] == steps;
  }
}
