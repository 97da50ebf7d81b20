/**
 * One confirmer pass and the recording of one submission, as written.
 */
module ConfirmerPass {
  import opened Wrappers
  import opened Confirmer
  import opened Sequences

  /** One row of a pass that began at `now`. */
  function Handle(rows: map<string, Row>, id: string, worker: string, now: int, answer: Answer,
      maxAttempts: nat): map<string, Row> {
    if id !in rows || Claim(rows[id], worker, now).None? then rows else
      var claimed := Claim(rows[id], worker, now).value;
      rows[id := Conclude(claimed, claimed, answer, now, maxAttempts)]
  }

  function Pass(rows: map<string, Row>, due: seq<string>, answers: seq<Answer>, worker: string, now: int,
      maxAttempts: nat): map<string, Row>
    requires |due| == |answers|
  {
    if due == [] then rows else
      var n := |due| - 1;
      Handle(Pass(rows, due[..n], answers[..n], worker, now, maxAttempts), due[n], worker, now, answers[n], maxAttempts)
  }

  /** The row after a submission has been recorded and, if it is its own proof, settled. */
  function Recorded(rows: map<string, Row>, id: string, assetId: Option<string>, at: int, mined: bool,
      pollable: bool): map<string, Row> {
    var row := if id in rows then rows[id] else Row(assetId, Pending, 0, at, None, None);
    rows[id := if row.status == Pending && (mined || !pollable) then Settle(row, Confirmed, row.nextAttemptAt) else row]
  }

  class Register {
    var rows: map<string, Row>

    constructor ()
      ensures rows == map[]
    {
      rows := map[];
    }

    /**
     * `pollable` is the chain's answer to whether it can be asked later; a chain that is not
     * configured counts as pollable.
     */
    method RecordSubmission(id: string, assetId: Option<string>, at: int, mined: bool, pollable: bool)
      modifies this
      ensures rows == Recorded(old(rows), id, assetId, at, mined, pollable)
      ensures rows.Keys == old(rows).Keys + {id} && forall x :: x in old(rows) && x != id ==> rows[x] == old(rows)[x]
      ensures rows[id].status == Confirmed <==>
        if id in old(rows) && old(rows)[id].status != Pending then old(rows)[id].status == Confirmed
          else mined || !pollable
      ensures id in old(rows) && rows[id] != old(rows)[id] ==>
        old(rows)[id].status == Pending && rows[id].status == Confirmed
      ensures id !in old(rows) ==>
        rows[id].assetId == assetId && rows[id].nextAttemptAt == at && Open(rows[id].status) == (!mined && pollable)
    {
      if id !in rows { rows := rows[id := Row(assetId, Pending, 0, at, None, None)]; }
      if rows[id].status != Pending {
        assert rows == rows[id := rows[id]];
        return;
      }
      if !mined && pollable {
        assert rows == rows[id := rows[id]];
        return;
      }
      rows := rows[id := rows[id].(status := Confirmed, claimedAt := None, claimedBy := None)];
    }

    /** `due` is what the due read returned; `answers` is what each poll would bring. */
    method RunOnce(due: seq<string>, answers: seq<Answer>, worker: string, now: int, maxAttempts: nat)
      requires |due| == |answers|
      modifies this
      ensures rows == Pass(map id | id in old(rows) ::
        Reclaim(old(rows)[id], now - STALE_CLAIM), due, answers, worker, now, maxAttempts)
    {
      rows := map id | id in rows :: Reclaim(rows[id], now - STALE_CLAIM);
      ghost var start := rows;
      for i := 0 to |due|
        invariant rows == Pass(start, due[..i], answers[..i], worker, now, maxAttempts)
      {
        assert due[..i + 1][..i] == due[..i] && answers[..i + 1][..i] == answers[..i];
        var id := due[i];
        if id !in rows || rows[id].claimedAt.Some? || !Open(rows[id].status) { continue; }
        var claimed := rows[id].(claimedAt := Some(now), claimedBy := Some(worker));
        rows := rows[id := claimed];
        match answers[i] {
          case Receipt(Some(0)) =>
            rows := rows[id := Settle(rows[id], Failed, rows[id].nextAttemptAt)];
          case Receipt(_) =>
            rows := rows[id := Settle(rows[id], Confirmed, rows[id].nextAttemptAt)];
          case Silence =>
            if claimed.attempts + 1 >= maxAttempts {
              rows := rows[id := Settle(rows[id], Unknown, now + UNKNOWN_RETRY)];
            } else {
              rows := rows[id := Defer(rows[id], now + BASE_BACKOFF * Pow2(claimed.attempts))];
            }
        }
      }
      assert due[..|due|] == due && answers[..|answers|] == answers;
    }
  }

  /**
   * A pass alone closes exactly the open rows of which one poll brings a
   * receipt, and leaves no claim behind; a row closed before it stays as it was.
   */
  lemma {:induction false} PassCloses(rows: map<string, Row>, due: seq<string>, answers: seq<Answer>,
      worker: string, now: int, maxAttempts: nat, id: string)
    requires |due| == |answers| && id in rows && rows[id].claimedAt.None?
    ensures
      var after := Pass(rows, due, answers, worker, now, maxAttempts);
      && id in after && after[id].claimedAt.None?
      && (!Open(rows[id].status) ==> after[id] == rows[id])
      && (Open(after[id].status) <==> Open(rows[id].status) && forall i :: 0 <= i < |due| && due[i] == id ==>
        answers[i].Silence?)
  {
    if due != [] {
      var n := |due| - 1;
      PassCloses(rows, due[..n], answers[..n], worker, now, maxAttempts, id);
      var before := Pass(rows, due[..n], answers[..n], worker, now, maxAttempts);
      forall i | 0 <= i < n ensures due[..n][i] == due[i] && answers[..n][i] == answers[i] { }
      if due[n] == id && Open(before[id].status) {
        ConcludeIff(before[id].(claimedAt := Some(now), claimedBy := Some(worker)), before[id], answers[n], now,
          maxAttempts);
      }
      hide Conclude;
    }
  }

  /** Polls of one transaction at these times, none of which brings a receipt. */
  function Silences(rows: map<string, Row>, id: string, worker: string, times: seq<int>, maxAttempts: nat)
      : map<string, Row>
  {
    if times == [] then rows else
      Handle(Silences(rows, id, worker, times[..|times| - 1], maxAttempts), id, worker, times[|times| - 1], Silence,
        maxAttempts)
  }

  /** The wait after the first silent poll is five seconds, and each is twice the one before it. */
  function Wait(polls: nat): int {
    if polls <= 1 then 5000 else Wait(polls - 1) + Wait(polls - 1)
  }

  lemma {:induction false} WaitIsPower(polls: nat)
    ensures Wait(polls + 1) == 5000 * Pow2(polls)
  {
    if polls > 0 { WaitIsPower(polls - 1); }
  }

  /**
   * A transaction of which polling brings nothing stays pending, with waits that double,
   * until its polls are `maxAttempts`; from then on it is unknown, and polled once an hour.
   */
  lemma {:induction false} SilenceEndsInUnknown(rows: map<string, Row>, id: string, worker: string, times: seq<int>,
      maxAttempts: nat)
    requires id in rows && rows[id].status == Pending && rows[id].attempts == 0
    requires rows[id].claimedAt.None? && rows[id].claimedBy.None?
    requires times != []
    ensures
      var after, n, last := Silences(rows, id, worker, times, maxAttempts), |times|, times[|times| - 1];
      && id in after && after[id].claimedAt.None? && after[id].claimedBy.None? && after[id].assetId == rows[id].assetId
      && (n < maxAttempts ==>
        after[id].status == Pending && after[id].attempts == n && after[id].nextAttemptAt == last + Wait(n))
      && (n >= maxAttempts ==>
        after[id].status == Unknown && after[id].attempts + 1 >= maxAttempts
        && after[id].nextAttemptAt == last + 3600000)
  {
    var init, n := times[..|times| - 1], |times|;
    WaitIsPower(n - 1);
    if init == [] {
      assert Silences(rows, id, worker, init, maxAttempts) == rows;
    } else {
      SilenceEndsInUnknown(rows, id, worker, init, maxAttempts);
    }
    hide Wait, Pow2;
  }

  /** A pass takes back the rows claimed more than a minute before it, and changes nothing else of them. */
  lemma {:induction false} TakesBackAfterAMinute(r: Row, now: int)
    requires r.claimedAt.Some?
    ensures Reclaim(r, now - STALE_CLAIM)
      == if now - r.claimedAt.value > 60000 then Row(r.assetId, r.status, r.attempts, r.nextAttemptAt, None, None)
        else r
  {
  }

  // --- the methods as runs of the state machine ---------------------------------------------------

  /**
   * Recording a submission is the recorder's two steps with nothing in between, so what
   * holds of every run holds of it.
   */
  lemma {:induction false} RecordingIsTwoSteps(s: State, r: string, id: string, assetId: Option<string>, mined: bool,
      pollable: bool, maxAttempts: nat)
    requires s.rows.Keys == s.evidence.Keys && r !in s.recorders
    ensures
      var t := Next(Next(s, Record(r, id, assetId, mined || !pollable), maxAttempts), FinishRecord(r), maxAttempts);
      t.rows == Recorded(s.rows, id, assetId, s.now, mined, pollable) && t.recorders == s.recorders
  {
    hide Conclude, Pow2, Told, Claim, Reclaim, Defer, Put, At;
    assert id in s.rows ==> s.rows[id := s.rows[id]] == s.rows;
    assert s.recorders[r := id] - {r} == s.recorders;
  }

  /** Recording the same submission again changes nothing. */
  lemma {:induction false} RecordingTwice(rows: map<string, Row>, id: string, assetId: Option<string>, at: int,
      later: int, mined: bool, pollable: bool)
    ensures
      var once := Recorded(rows, id, assetId, at, mined, pollable);
      Recorded(once, id, assetId, later, mined, pollable) == once
  {
    var once := Recorded(rows, id, assetId, at, mined, pollable);
    assert once[id := once[id]] == once;
  }

  /** The steps of a pass over these rows; those that a lost claim leaves no room for change nothing. */
  function PassSteps(worker: string, answers: seq<Answer>): seq<Step> {
    if answers == [] then [] else
      PassSteps(worker, answers[..|answers| - 1])
        + [ClaimNext(worker), Poll(worker, answers[|answers| - 1]), ConcludePoll(worker)]
  }

  /** The pass `w` is about to claim the first of `queue`. */
  predicate Ready(s: State, w: string, began: int, queue: seq<string>) {
    && s.rows.Keys == s.evidence.Keys && w in s.workers && s.workers[w] == Worker(began, queue, Empty)
    && forall i :: 0 <= i < |queue| ==> queue[i] in s.rows
  }

  lemma {:induction false} RowIsThreeSteps(s: State, w: string, began: int, queue: seq<string>, answer: Answer,
      maxAttempts: nat)
    requires Ready(s, w, began, queue) && queue != []
    ensures
      var t := Next(Next(Next(s, ClaimNext(w), maxAttempts), Poll(w, answer), maxAttempts), ConcludePoll(w),
        maxAttempts);
      t.rows == Handle(s.rows, queue[0], w, began, answer, maxAttempts) && Ready(t, w, began, queue[1..])
  {
    hide Conclude, DoRecord;
    var id := queue[0];
    if Claim(s.rows[id], w, began).Some? {
      var claimed := Claim(s.rows[id], w, began).value;
      var x := Conclude(claimed, claimed, answer, began, maxAttempts);
      assert s.rows[id := claimed][id := x] == s.rows[id := x];
    }
  }

  /**
   * A pass as written is a run of the state machine, from the moment the due rows have
   * been read, however long ago that was: so what holds of every interleaving holds of
   * passes and recordings in any order.
   */
  lemma {:induction false} PassIsRun(s: State, w: string, began: int, due: seq<string>, answers: seq<Answer>,
      maxAttempts: nat)
    requires |due| == |answers| && Ready(s, w, began, due)
    ensures
      var t := After(s, PassSteps(w, answers), maxAttempts);
      t.rows == Pass(s.rows, due, answers, w, began, maxAttempts) && Ready(t, w, began, [])
  {
    PassIsRunTo(s, w, began, due, answers, maxAttempts, |due|);
    assert due[..|due|] == due && answers[..|due|] == answers && due[|due|..] == [];
  }

  lemma {:induction false} PassIsRunTo(s: State, w: string, began: int, due: seq<string>, answers: seq<Answer>,
      maxAttempts: nat, n: nat)
    requires n <= |due| == |answers| && Ready(s, w, began, due)
    ensures
      var t := After(s, PassSteps(w, answers[..n]), maxAttempts);
      t.rows == Pass(s.rows, due[..n], answers[..n], w, began, maxAttempts) && Ready(t, w, began, due[n..])
  {
    hide Next, Handle, Ready;
    if n == 0 {
      assert After(s, [], maxAttempts) == s && due[0..] == due;
    } else {
      PassIsRunTo(s, w, began, due, answers, maxAttempts, n - 1);
      var t := After(s, PassSteps(w, answers[..n - 1]), maxAttempts);
      var a, b, c := ClaimNext(w), Poll(w, answers[n - 1]), ConcludePoll(w);
      RowIsThreeSteps(t, w, began, due[n - 1..], answers[n - 1], maxAttempts);
      AfterThree(t, a, b, c, maxAttempts);
      AfterBoth(s, PassSteps(w, answers[..n - 1]), [a, b, c], maxAttempts);
      assert answers[..n][..n - 1] == answers[..n - 1] && due[..n][..n - 1] == due[..n - 1];
      assert due[n - 1..][1..] == due[n..];
      hide After;
    }
  }
}
