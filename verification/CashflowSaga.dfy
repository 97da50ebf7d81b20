/**
 * Many executions of many cashflows over one cash table, in any interleaving, with
 * failures and crashes at any point and other cash movements in between.
 */
module CashflowSaga {
  import opened Sums
  import opened Faults
  import opened Cashflow

  datatype Phase =
    | Paying(paid: nat)
    | Undoing(made: nat, back: nat, lost: seq<Payment>)
    | Done
    | Undone(lost: seq<Payment>)
    | Crashed(left: seq<Payment>)

  /** `marked` once marking the cashflow executed has taken effect. */
  datatype Execution = Execution(cashflow: string, payer: string, plan: seq<Payment>, phase: Phase, marked: bool)

  /** `base` is what the cash table would be if no cashflow had ever been executed. */
  datatype State = State(cash: Table, base: Table, status: map<string, Status>, execs: map<string, Execution>)

  /**
   * A payment or a mark may throw before or after it takes effect. A refund or a
   * release that throws after taking effect is no different from one that works, since
   * nobody looks at its answer; one that `fails` has no effect.
   */
  datatype Step =
    | Credit(to: string, amount: int)
    | Outside(from: string, to: string, amount: int)
    | ClaimIt(exec: string, cashflow: string, payer: string, plan: seq<Payment>)
    | Pay(exec: string, fault: Fault)
    | Break(exec: string)
    | Mark(exec: string, fault: Fault)
    | Refund(exec: string, fails: bool)
    | Release(exec: string, fails: bool)
    | Crash(exec: string)

  predicate Formed(e: Execution) {
    match e.phase
    case Paying(n) => n <= |e.plan|
    case Undoing(n, b, _) => b <= n <= |e.plan|
    case _ => true
  }

  /** The payments made and not paid back. */
  function Outstanding(e: Execution): seq<Payment>
    requires Formed(e)
  {
    match e.phase
    case Paying(n) => e.plan[..n]
    case Undoing(n, b, lost) => lost + e.plan[b..n]
    case Done => e.plan
    case Undone(lost) => lost
    case Crashed(left) => left
  }

  predicate Live(e: Execution) {
    e.phase.Paying? || e.phase.Undoing?
  }

  predicate Can(s: State, step: Step) {
    match step
    case Credit(_, _) => true
    case Outside(from, _, amount) => Get(s.cash, from) >= amount
    case ClaimIt(e, c, _, _) => e !in s.execs && c in s.status && s.status[c] == Scheduled
    case Pay(e, _) => e in s.execs && s.execs[e].phase.Paying? && s.execs[e].phase.paid < |s.execs[e].plan|
    case Break(e) => e in s.execs && s.execs[e].phase.Paying?
    case Mark(e, _) =>
      && e in s.execs && s.execs[e].phase == Paying(|s.execs[e].plan|)
      && s.execs[e].cashflow in s.status && s.status[s.execs[e].cashflow] == Executing
    case Refund(e, _) =>
      && e in s.execs && s.execs[e].phase.Undoing?
      && s.execs[e].phase.back < s.execs[e].phase.made <= |s.execs[e].plan|
    case Release(e, _) => e in s.execs && s.execs[e].phase.Undoing? && s.execs[e].phase.back == s.execs[e].phase.made
    case Crash(e) => e in s.execs && Live(s.execs[e]) && Formed(s.execs[e])
  }

  function PutPhase(s: State, e: string, phase: Phase): State
    requires e in s.execs
  {
    s.(execs := s.execs[e := s.execs[e].(phase := phase)])
  }

  function Do(s: State, step: Step): State
    requires Can(s, step)
  {
    match step
    case Credit(to, amount) => s.(cash := Add(s.cash, to, amount), base := Add(s.base, to, amount))
    case Outside(from, to, amount) => s.(cash := Move(s.cash, from, to, amount), base := Move(s.base, from, to, amount))
    case ClaimIt(e, c, payer, plan) => s.(status := s.status[c := Executing],
        execs := s.execs[e := Execution(c, payer, plan, Paying(0), false)])
    case Pay(e, fault) =>
      var ex := s.execs[e];
      var n, p := ex.phase.paid, ex.plan[ex.phase.paid];
      if fault.Before? || Get(s.cash, ex.payer) < p.amount then PutPhase(s, e, Undoing(n, 0, []))
      else
        var next := if fault.Works? then Paying(n + 1) else Undoing(n, 0, [p]);
        PutPhase(s, e, next).(cash := Move(s.cash, ex.payer, p.to, p.amount))
    case Break(e) => PutPhase(s, e, Undoing(s.execs[e].phase.paid, 0, []))
    case Mark(e, fault) =>
      var ex := s.execs[e];
      var next := if fault.Works? then Done else Undoing(|ex.plan|, 0, []);
      if fault.Before? then PutPhase(s, e, next) else
        s.(status := s.status[ex.cashflow := Executed], execs := s.execs[e := ex.(phase := next, marked := true)])
    case Refund(e, fails) =>
      var ex := s.execs[e];
      var Undoing(made, back, lost) := ex.phase;
      var p := ex.plan[back];
      if fails || Get(s.cash, p.to) < p.amount then PutPhase(s, e, Undoing(made, back + 1, lost + [p]))
      else PutPhase(s, e, Undoing(made, back + 1, lost)).(cash := Move(s.cash, p.to, ex.payer, p.amount))
    case Release(e, fails) =>
      var c := s.execs[e].cashflow;
      var t := PutPhase(s, e, Undone(s.execs[e].phase.lost));
      if !fails && c in s.status && s.status[c] == Executing then t.(status := s.status[c := Scheduled]) else t
    case Crash(e) => PutPhase(s, e, Crashed(Outstanding(s.execs[e])))
  }

  function Next(s: State, step: Step): State {
    if Can(s, step) then Do(s, step) else s
  }

  function After(s: State, steps: seq<Step>): State {
    if steps == [] then s else Next(After(s, steps[..|steps| - 1]), steps[|steps| - 1])
  }

  // --- cash is accounted for ------------------------------------------------------------

  ghost predicate AllFormed(execs: map<string, Execution>) {
    forall e :: e in execs ==> Formed(execs[e])
  }

  /** What each execution has added to an account and not taken back. */
  ghost function Nets(execs: map<string, Execution>, x: string): map<string, int>
    requires AllFormed(execs)
  {
    map e | e in execs :: Net(execs[e].payer, Outstanding(execs[e]), x)
  }

  ghost predicate Accounted(s: State, x: string) {
    AllFormed(s.execs) && Get(s.cash, x) == Get(s.base, x) + Total(Nets(s.execs, x))
  }

  /** Changing one execution changes the sum by the change of its net. */
  lemma {:induction false} OneExecution(execs: map<string, Execution>, e: string, ex: Execution, x: string)
    requires AllFormed(execs) && Formed(ex)
    ensures AllFormed(execs[e := ex])
    ensures Total(Nets(execs[e := ex], x)) == Total(Nets(execs, x))
      + Net(ex.payer, Outstanding(ex), x) - (if e in execs then Net(execs[e].payer, Outstanding(execs[e]), x) else 0)
  {
    var d := Net(ex.payer, Outstanding(ex), x);
    assert Nets(execs[e := ex], x) == Nets(execs, x)[e := d];
    TotalSet(Nets(execs, x), e, d);
  }

  /** What paying, or failing to pay, the next payment does to the net, acknowledged or not. */
  lemma {:induction false} PaidNet(ex: Execution, x: string)
    requires Formed(ex) && ex.phase.Paying? && ex.phase.paid < |ex.plan|
    ensures
      var n := ex.phase.paid;
      var p, more, stopped := ex.plan[n], ex.(phase := Paying(n + 1)), ex.(phase := Undoing(n, 0, []));
      var stray := ex.(phase := Undoing(n, 0, [p]));
      var net := Net(ex.payer, Outstanding(ex), x)
        + (if p.to == x then p.amount else 0) - (if ex.payer == x then p.amount else 0);
      && Formed(more) && Formed(stopped) && Formed(stray) && Outstanding(stopped) == Outstanding(ex)
      && Net(ex.payer, Outstanding(more), x) == net && Net(ex.payer, Outstanding(stray), x) == net
  {
    var n := ex.phase.paid;
    var p, before := ex.plan[n], ex.plan[..n];
    NetOne(ex.payer, before, p, x);
    assert ex.plan[..n + 1] == before + [p];
    assert ex.plan[0..n] == before && [] + before == before;
    NetSplit(ex.payer, before, [p], x);
    NetSplit(ex.payer, [p], before, x);
  }

  /** What refunding, or failing to refund, the next payment does to it. */
  lemma {:induction false} RefundedNet(ex: Execution, x: string)
    requires Formed(ex) && ex.phase.Undoing? && ex.phase.back < ex.phase.made
    ensures
      var Undoing(made, back, lost) := ex.phase;
      var p := ex.plan[back];
      var done, failed :=
        ex.(phase := Undoing(made, back + 1, lost)), ex.(phase := Undoing(made, back + 1, lost + [p]));
      && Formed(done) && Formed(failed) && Outstanding(failed) == Outstanding(ex)
      && Net(ex.payer, Outstanding(done), x)
           == Net(ex.payer, Outstanding(ex), x) - (if p.to == x then p.amount else 0)
             + (if ex.payer == x then p.amount else 0)
  {
    var Undoing(made, back, lost) := ex.phase;
    var p, rest := ex.plan[back], ex.plan[back + 1..made];
    assert ex.plan[back..made] == [p] + rest;
    assert (lost + [p]) + rest == lost + ([p] + rest);
    NetSplit(ex.payer, lost, [p] + rest, x);
    NetSplit(ex.payer, [p], rest, x);
    NetSplit(ex.payer, lost, rest, x);
    NetOne(ex.payer, [], p, x);
    assert [] + [p] == [p];
  }

  lemma {:induction false} PayAccounted(s: State, e: string, fault: Fault, x: string)
    requires Accounted(s, x) && Can(s, Pay(e, fault))
    ensures Accounted(Do(s, Pay(e, fault)), x)
  {
    hide Net, Total, Move, Nets, Outstanding;
    var ex, t := s.execs[e], Do(s, Pay(e, fault));
    PaidNet(ex, x);
    OneExecution(s.execs, e, t.execs[e], x);
    GetMove(s.cash, ex.payer, ex.plan[ex.phase.paid].to, ex.plan[ex.phase.paid].amount, x);
  }

  lemma {:induction false} RefundAccounted(s: State, e: string, fails: bool, x: string)
    requires Accounted(s, x) && Can(s, Refund(e, fails))
    ensures Accounted(Do(s, Refund(e, fails)), x)
  {
    hide Net, Total, Move, Nets, Outstanding;
    var ex, t := s.execs[e], Do(s, Refund(e, fails));
    RefundedNet(ex, x);
    OneExecution(s.execs, e, t.execs[e], x);
    GetMove(s.cash, ex.plan[ex.phase.back].to, ex.payer, ex.plan[ex.phase.back].amount, x);
  }

  lemma {:induction false} OutsideAccounted(s: State, step: Step, x: string)
    requires Accounted(s, x) && Can(s, step) && (step.Credit? || step.Outside?)
    ensures Accounted(Do(s, step), x)
  {
    hide Net, Total, Nets;
    if step.Outside? {
      GetMove(s.cash, step.from, step.to, step.amount, x);
      GetMove(s.base, step.from, step.to, step.amount, x);
    }
  }

  /** Claiming, stopping, completing, releasing and crashing move no cash and leave what is outstanding as it is. */
  lemma {:induction false} StillAccounted(s: State, step: Step, x: string)
    requires Accounted(s, x) && Can(s, step)
    requires step.ClaimIt? || step.Break? || step.Mark? || step.Release? || step.Crash?
    ensures Accounted(Do(s, step), x)
  {
    hide Total, Nets, Net;
    var t := Do(s, step);
    var ex := t.execs[step.exec];
    OneExecution(s.execs, step.exec, ex, x);
    if step.ClaimIt? {
      assert Outstanding(ex) == [];
      assert Net(ex.payer, [], x) == 0 by { NothingPaid(ex.payer, x); }
    } else {
      OutstandingStays(s.execs[step.exec], ex);
    }
  }

  lemma {:induction false} NothingPaid(payer: string, x: string)
    ensures Net(payer, [], x) == 0
  {
  }

  lemma {:induction false} OutstandingStays(was: Execution, now: Execution)
    requires Formed(was) && now == was.(phase := now.phase, marked := now.marked)
    requires
      match now.phase
      case Undoing(n, b, lost) => was.phase == Paying(n) && b == 0 && lost == []
      case Done => was.phase == Paying(|was.plan|)
      case Undone(lost) => was.phase.Undoing? && was.phase.back == was.phase.made && lost == was.phase.lost
      case Crashed(left) => left == Outstanding(was)
      case Paying(_) => false
    ensures Formed(now) && Outstanding(now) == Outstanding(was)
  {
  }

  /**
   * In every reachable state, each account holds what it would have held, and what executions paid
   * it and have not taken back.
   */
  lemma {:induction false} CashAccounted(s: State, steps: seq<Step>, x: string)
    requires s.cash == s.base && s.execs == map[]
    ensures Accounted(After(s, steps), x)
  {
    if steps == [] {
      assert Nets(s.execs, x) == map[];
    } else {
      CashAccounted(s, steps[..|steps| - 1], x);
      var t, step := After(s, steps[..|steps| - 1]), steps[|steps| - 1];
      hide Accounted, Do;
      if Can(t, step) {
        if step.Pay? { PayAccounted(t, step.exec, step.fault, x); }
        else if step.Refund? { RefundAccounted(t, step.exec, step.fails, x); }
        else if step.Credit? || step.Outside? { OutsideAccounted(t, step, x); }
        else { StillAccounted(t, step, x); }
      }
    }
  }

  // --- no account is overdrawn --------------------------------------------------------------

  predicate NothingOwed(plan: seq<Payment>) {
    forall i :: 0 <= i < |plan| ==> plan[i].amount >= 0
  }

  predicate Sensible(step: Step) {
    match step
    case Credit(_, amount) => amount >= 0
    case Outside(_, _, amount) => amount >= 0
    case ClaimIt(_, _, _, plan) => NothingOwed(plan)
    case _ => true
  }

  ghost predicate Covered(s: State) {
    NoneNegative(s.cash) && forall e :: e in s.execs ==> NothingOwed(s.execs[e].plan)
  }

  lemma {:induction false} StepCovered(s: State, step: Step)
    requires Covered(s) && Sensible(step)
    ensures Covered(Next(s, step))
  {
    hide Outstanding, Formed, Live;
    if Can(s, step) {
      match step
      case Pay(e, fault) => PayCovered(s, e, fault);
      case Refund(e, fails) => RefundCovered(s, e, fails);
      case _ =>
    }
  }

  lemma {:induction false} PayCovered(s: State, e: string, fault: Fault)
    requires Covered(s) && Can(s, Pay(e, fault))
    ensures Covered(Do(s, Pay(e, fault)))
  {
    hide Outstanding, Formed, Live;
    assert NothingOwed(s.execs[e].plan);
  }

  lemma {:induction false} RefundCovered(s: State, e: string, fails: bool)
    requires Covered(s) && Can(s, Refund(e, fails))
    ensures Covered(Do(s, Refund(e, fails)))
  {
    hide Outstanding, Formed, Live;
    assert NothingOwed(s.execs[e].plan);
  }

  /** Whatever is interleaved and whatever fails, payments, refunds and other movements overdraw nobody. */
  lemma {:induction false} NeverOverdrawn(s: State, steps: seq<Step>)
    requires NoneNegative(s.cash) && s.execs == map[] && forall i :: 0 <= i < |steps| ==> Sensible(steps[i])
    ensures forall x :: x in After(s, steps).cash ==> After(s, steps).cash[x] >= 0
    ensures Covered(After(s, steps))
  {
    if steps != [] {
      var init := steps[..|steps| - 1];
      assert forall i :: 0 <= i < |init| ==> init[i] == steps[i];
      NeverOverdrawn(s, init);
      hide Next, Sensible;
      StepCovered(After(s, init), steps[|steps| - 1]);
    }
  }

  // --- at most once -----------------------------------------------------------------------

  /** At work on its cashflow, or done with it. */
  predicate Active(e: Execution) {
    Live(e) || e.phase.Done?
  }

  /** Of all executions of a cashflow at most one is live or completed, and its status shows it. */
  ghost predicate Exclusive(s: State) {
    && (forall e :: e in s.execs ==> s.execs[e].cashflow in s.status)
    && (forall e :: e in s.execs && Live(s.execs[e]) ==> s.status[s.execs[e].cashflow] != Scheduled)
    && (forall e :: e in s.execs && s.execs[e].phase.Paying? ==> s.status[s.execs[e].cashflow] == Executing)
    && (forall e :: e in s.execs && s.execs[e].phase.Done? ==> s.status[s.execs[e].cashflow] == Executed)
    && (forall e, f :: e in s.execs && f in s.execs && Active(s.execs[e]) && Active(s.execs[f]) ==>
          s.execs[e].cashflow == s.execs[f].cashflow ==> e == f)
  }

  lemma {:induction false} ClaimExclusive(s: State, step: Step)
    requires Exclusive(s) && step.ClaimIt? && Can(s, step)
    ensures Exclusive(Do(s, step))
  {
    hide Move, Add, Outstanding, Formed;
  }

  lemma {:induction false} MarkExclusive(s: State, step: Step)
    requires Exclusive(s) && step.Mark? && Can(s, step)
    ensures Exclusive(Do(s, step))
  {
    hide Move, Add, Outstanding, Formed;
  }

  lemma {:induction false} ReleaseExclusive(s: State, step: Step)
    requires Exclusive(s) && step.Release? && Can(s, step)
    ensures Exclusive(Do(s, step))
  {
    hide Move, Add, Outstanding, Formed;
  }

  lemma {:induction false} PhaseExclusive(s: State, t: State, e: string, phase: Phase)
    requires Exclusive(s) && e in s.execs && t.status == s.status
    requires t.execs == s.execs[e := s.execs[e].(phase := phase)]
    requires !phase.Done? && (phase.Undoing? ==> Live(s.execs[e])) && (phase.Paying? ==> s.execs[e].phase.Paying?)
    ensures Exclusive(t)
  {
  }

  lemma {:induction false} OtherExclusive(s: State, step: Step)
    requires Exclusive(s) && !step.ClaimIt? && !step.Mark? && !step.Release? && Can(s, step)
    ensures Exclusive(Do(s, step))
  {
    var t := Do(s, step);
    if step.Credit? || step.Outside? {
      hide Move, Add;
    } else {
      hide Exclusive, Move, Add, Outstanding, Formed;
      PhaseExclusive(s, t, step.exec, t.execs[step.exec].phase);
    }
  }

  ghost predicate Ended(s: State) {
    forall e :: e in s.execs ==> s.execs[e].phase.Done? || s.execs[e].phase == Undone([])
  }

  ghost function Payouts(execs: map<string, Execution>, x: string): map<string, int> {
    map e | e in execs && execs[e].phase.Done? :: Net(execs[e].payer, execs[e].plan, x)
  }

  lemma {:induction false} RunExclusive(s: State, steps: seq<Step>)
    requires s.execs == map[]
    ensures Exclusive(After(s, steps))
  {
    if steps != [] {
      RunExclusive(s, steps[..|steps| - 1]);
      var t, step := After(s, steps[..|steps| - 1]), steps[|steps| - 1];
      hide Exclusive, Can, Do;
      if Can(t, step) {
        if step.ClaimIt? { ClaimExclusive(t, step); }
        else if step.Mark? { MarkExclusive(t, step); }
        else if step.Release? { ReleaseExclusive(t, step); }
        else { OtherExclusive(t, step); }
      }
    }
  }

  /**
   * An execution whose refunds are over gives its cashflow back, to be claimed again, exactly if
   * it was not marked executed and the release has its effect; it touches no cash.
   */
  lemma {:induction false} ReleaseFrees(s: State, steps: seq<Step>, e: string, fails: bool)
    requires s.execs == map[] && Can(After(s, steps), Release(e, fails))
    ensures
      var was, now := After(s, steps), Next(After(s, steps), Release(e, fails));
      && e in was.execs && was.execs[e].cashflow in now.status && was.execs[e].cashflow in was.status
      && var c := was.execs[e].cashflow;
         (now.status[c] == Scheduled <==> was.status[c] == Executing && !fails)
         && now.cash == was.cash && !Live(now.execs[e])
  {
    RunExclusive(s, steps);
    hide After;
  }

  /**
   * All or nothing, at most once. However executions were interleaved with each
   * other, with failures and with other movements of cash: no cashflow is completed
   * twice; and once every execution has either completed or been refunded in full,
   * cash is where it would have been without them but for the full payouts of those
   * that completed.
   */
  lemma {:induction false} AllOrNothing(s: State, steps: seq<Step>, x: string, e: string, f: string)
    requires s.cash == s.base && s.execs == map[]
    ensures
      var t := After(s, steps);
      && (e in t.execs && f in t.execs && t.execs[e].phase.Done? && t.execs[f].phase.Done? ==>
            t.execs[e].cashflow == t.execs[f].cashflow ==> e == f)
      && (Ended(t) ==> Get(t.cash, x) == Get(t.base, x) + Total(Payouts(t.execs, x)))
  {
    CashAccounted(s, steps, x);
    RunExclusive(s, steps);
    hide After;
    var t := After(s, steps);
    if Ended(t) { OnlyPayoutsCount(t.execs, x); }
  }

  lemma {:induction false} OnlyPayoutsCount(execs: map<string, Execution>, x: string)
    requires AllFormed(execs) && forall e :: e in execs ==> execs[e].phase.Done? || execs[e].phase == Undone([])
    ensures Total(Nets(execs, x)) == Total(Payouts(execs, x))
  {
    assert Nets(execs, x)
      == map e | e in execs :: if execs[e].phase.Done? then Net(execs[e].payer, execs[e].plan, x) else 0;
    SameReadsSameTotal(Nets(execs, x), Payouts(execs, x));
  }

  // --- what it means to be executed -----------------------------------------------------------

  predicate MarkedFor(execs: map<string, Execution>, c: string) {
    exists e :: e in execs && execs[e].cashflow == c && execs[e].marked
  }

  ghost predicate MarksShow(s: State) {
    && (forall c :: c in s.status ==> (s.status[c] == Executed <==> MarkedFor(s.execs, c)))
    && (forall e :: e in s.execs ==> s.execs[e].cashflow in s.status)
    && (forall e :: e in s.execs && s.execs[e].phase.Done? ==> s.execs[e].marked)
  }

  /** A step on one execution changes what is marked for a cashflow only through that execution. */
  lemma {:induction false} MarksOf(s: State, t: State, e: string, c: string)
    requires e in t.execs && t.execs == s.execs[e := t.execs[e]]
    requires e in s.execs && s.execs[e].marked ==> t.execs[e].marked && t.execs[e].cashflow == s.execs[e].cashflow
    ensures MarkedFor(t.execs, c) <==> MarkedFor(s.execs, c) || (t.execs[e].marked && t.execs[e].cashflow == c)
  {
    if MarkedFor(s.execs, c) {
      var f :| f in s.execs && s.execs[f].cashflow == c && s.execs[f].marked;
      assert f in t.execs && t.execs[f].cashflow == c && t.execs[f].marked;
    }
  }

  /** What a step on one execution does to it and to its cashflow's status. */
  predicate Touches(s: State, t: State, e: string) {
    && e in t.execs && t.execs == s.execs[e := t.execs[e]] && t.execs[e].cashflow in s.status
    && (e in s.execs ==> s.execs[e].cashflow == t.execs[e].cashflow && (s.execs[e].marked ==> t.execs[e].marked))
    && t.status.Keys == s.status.Keys
    && (forall c :: c in s.status && c != t.execs[e].cashflow ==> t.status[c] == s.status[c])
    && (t.status[t.execs[e].cashflow] == Executed
        <==> s.status[t.execs[e].cashflow] == Executed || t.execs[e].marked)
    && (t.execs[e].phase.Done? ==> t.execs[e].marked)
  }

  lemma {:induction false} MarkedIsExecuted(s: State, e: string)
    requires MarksShow(s) && e in s.execs && s.execs[e].marked
    ensures s.status[s.execs[e].cashflow] == Executed
  {
    assert MarkedFor(s.execs, s.execs[e].cashflow);
  }

  lemma {:induction false} StepTouches(s: State, step: Step)
    requires MarksShow(s) && Can(s, step) && !step.Credit? && !step.Outside?
    ensures Touches(s, Do(s, step), step.exec)
    ensures
      var u := Do(s, step).execs[step.exec];
      Astray(u) && !(step.Mark? && step.fault.After?) ==> step.exec in s.execs && Astray(s.execs[step.exec])
  {
    hide Move, Add, Outstanding, Formed, Get, MarkedFor;
    if step.exec in s.execs && s.execs[step.exec].marked { MarkedIsExecuted(s, step.exec); }
  }

  lemma {:induction false} TouchedMarks(s: State, t: State, e: string)
    requires MarksShow(s) && Touches(s, t, e)
    ensures MarksShow(t) && t.status.Keys == s.status.Keys
  {
    hide MarkedFor;
    forall c | c in t.status ensures t.status[c] == Executed <==> MarkedFor(t.execs, c) {
      MarksOf(s, t, e, c);
    }
  }

  /** Marked though not completed. */
  predicate Astray(e: Execution) {
    e.marked && !e.phase.Done?
  }

  lemma {:induction false} StepMarks(s: State, step: Step)
    requires MarksShow(s) && Can(s, step)
    ensures MarksShow(Do(s, step)) && Do(s, step).status.Keys == s.status.Keys
    ensures !(step.Mark? && step.fault.After?) ==>
      forall e :: e in Do(s, step).execs && Astray(Do(s, step).execs[e]) ==> e in s.execs && Astray(s.execs[e])
  {
    var t := Do(s, step);
    if step.Credit? || step.Outside? {
      hide Move, Add, Get, MarkedFor, Astray;
    } else {
      hide MarksShow, Do, Can, Astray;
      StepTouches(s, step);
      TouchedMarks(s, t, step.exec);
    }
  }

  /**
   * A cashflow is executed exactly when some execution marked it so; and that execution
   * completed, unless its mark threw after taking effect.
   */
  lemma {:induction false} ExecutedIffMarked(s: State, steps: seq<Step>)
    requires s.execs == map[] && forall c :: c in s.status ==> s.status[c] != Executed
    ensures
      var t := After(s, steps);
      && MarksShow(t) && t.status.Keys == s.status.Keys
      && ((forall i :: 0 <= i < |steps| && steps[i].Mark? ==> !steps[i].fault.After?) ==>
            forall e :: e in t.execs ==> !Astray(t.execs[e]))
  {
    if steps != [] {
      var init, step := steps[..|steps| - 1], steps[|steps| - 1];
      ExecutedIffMarked(s, init);
      hide MarksShow, Can, Do, Astray;
      assert forall i :: 0 <= i < |init| ==> init[i] == steps[i];
      if Can(After(s, init), step) { StepMarks(After(s, init), step); }
    }
  }

  lemma {:induction false} AfterStep(s: State, steps: seq<Step>, step: Step)
    ensures After(s, steps + [step]) == Next(After(s, steps), step)
  {
    hide Next;
    assert (steps + [step])[..|steps|] == steps;
  }

  lemma {:induction false} AfterFive(s: State, a: Step, b: Step, c: Step, d: Step, e: Step)
    ensures After(s, [a, b, c, d, e]) == Next(Next(Next(Next(Next(s, a), b), c), d), e)
  {
    hide Next;
    AfterStep(s, [a, b, c, d], e);
    AfterStep(s, [a, b, c], d);
    AfterStep(s, [a, b], c);
    AfterStep(s, [a], b);
    AfterStep(s, [], a);
    assert [a, b, c, d] + [e] == [a, b, c, d, e] && [a, b, c] + [d] == [a, b, c, d];
    assert [a, b] + [c] == [a, b, c] && [a] + [b] == [a, b] && [] + [a] == [a];
  }

  /** Claimed, paid and marked, though the mark threw. */
  lemma {:induction false} ClaimPayMark(payer: string, plan: seq<Payment>, cash: Table)
    requires |plan| == 1 && 0 <= plan[0].amount <= Get(cash, payer)
    ensures
      var s := State(cash, cash, map["c" := Scheduled], map[]);
      Next(Next(Next(s, ClaimIt("e", "c", payer, plan)), Pay("e", Works)), Mark("e", Fault.After))
        == State(Move(cash, payer, plan[0].to, plan[0].amount), cash, map["c" := Executed],
             map["e" := Execution("c", payer, plan, Undoing(1, 0, []), true)])
  {
    hide Get, Move, Add;
    var s := State(cash, cash, map["c" := Scheduled], map[]);
    var one := Next(s, ClaimIt("e", "c", payer, plan));
    assert one == State(cash, cash, map["c" := Executing], map["e" := Execution("c", payer, plan, Paying(0), false)]);
    var two := Next(one, Pay("e", Works));
    assert two.execs == map["e" := Execution("c", payer, plan, Paying(1), false)] && two.status == one.status;
    var three := Next(two, Mark("e", Fault.After));
    assert three.status == map["c" := Executed] && three.execs == map["e" := three.execs["e"]];
  }

  /** Refunded, and not released, since it is not executing any more. */
  lemma {:induction false} RefundRelease(s: State, payer: string, plan: seq<Payment>)
    requires |plan| == 1 && plan[0].amount <= Get(s.cash, plan[0].to) && s.status == map["c" := Executed]
    requires s.execs == map["e" := Execution("c", payer, plan, Undoing(1, 0, []), true)]
    ensures
      var t := Next(Next(s, Refund("e", false)), Release("e", false));
      && t.status == s.status && t.execs == map["e" := Execution("c", payer, plan, Undone([]), true)]
      && t.cash == Move(s.cash, plan[0].to, payer, plan[0].amount)
  {
    hide Get, Move, Add;
    var one := Next(s, Refund("e", false));
    assert one.execs == map["e" := Execution("c", payer, plan, Undoing(1, 1, []), true)] && one.status == s.status;
  }

  /** And then it is executed for good, with everybody refunded: nobody will ever be paid. */
  lemma {:induction false} MarkedButRefunded(payer: string, holder: string, amount: nat)
    requires payer != holder && amount > 0
    ensures
      var cash: Table := map[payer := amount];
      var s, plan := State(cash, cash, map["c" := Scheduled], map[]), [Payment(holder, amount)];
      var t := After(s, [ClaimIt("e", "c", payer, plan), Pay("e", Works), Mark("e", Fault.After),
                         Refund("e", false), Release("e", false)]);
      && t.status == map["c" := Executed]
      && t.execs == map["e" := Execution("c", payer, plan, Undone([]), true)]
      && Get(t.cash, payer) == amount && Get(t.cash, holder) == 0
  {
    hide Next, After;
    var cash: Table := map[payer := amount];
    var s, plan := State(cash, cash, map["c" := Scheduled], map[]), [Payment(holder, amount)];
    AfterFive(s, ClaimIt("e", "c", payer, plan), Pay("e", Works), Mark("e", Fault.After), Refund("e", false),
      Release("e", false));
    ClaimPayMark(payer, plan, cash);
    var paid := Move(cash, payer, holder, amount);
    RefundRelease(State(paid, cash, map["c" := Executed],
        map["e" := Execution("c", payer, plan, Undoing(1, 0, []), true)]), payer, plan);
  }
}
