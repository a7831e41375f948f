/** What the kernel guarantees over its runs, on top of the invariant. */
module Guarantees {
  import opened Types
  import opened Rings
  import opened KernelState
  import opened KernelOps
  import opened Frames
  import opened WaitEnd
  import opened Timer
  import opened TimerRuns
  import opened TimerLate
  import opened Scheduling
  import opened TaskCalls
  import opened Runs
  import opened EventFlags
  import opened MbxCalls
  import opened StepEffects
  import opened WaitEndings

  /** The step is one the current task makes itself. */
  predicate Acts(step: Step) {
    NeedsTask(step) || step == ResumeCall
  }

  /** The step takes the current task off its place: it yields, blocks or exits. */
  predicate Loses(step: Step, reply: Reply) {
    step == YieldCpu || step == ExitTask || step == ExitAndDeleteTask || (NeedsTask(step) && (step.Delay? || reply == Blocks))
  }

  lemma TaskStepEffect(s: KState, step: Step)
    requires Inv(s) && Enabled(s, step) && PartOf(step) == TaskPart
    ensures Effect(s, TaskExec(s, step).0, Acts(step), Loses(step, TaskExec(s, step).1))
  {
    hide Inv, TaskContext, Effect, CreTsk, StaTsk, Yield, ExtTsk, ExdTsk, RelWai, WupTsk;
    match step
    case CreateTask(pri) => CreTskEffect(s, pri);
    case StartTask(id) => StaTskEffect(s, id);
    case ReleaseWait(id) => RelWaiEffect(s, id);
    case WakeUp(id, inIsr) => WupTskEffect(s, id, inIsr);
    case _ => OwnStepsEffect(s);
  }

  lemma OwnStepsEffect(s: KState)
    requires Inv(s) && TaskContext(s)
    ensures Effect(s, Yield(s), true, true) && Effect(s, ExtTsk(s), true, true) && Effect(s, ExdTsk(s), true, true)
  {
    hide Inv, LinksOk, Effect, Yield, ExtTsk, ExdTsk;
    InvGives(s);
    YieldEffect(s);
    ExtTskEffect(s);
    ExdTskEffect(s);
  }

  lemma SwitchEffect(s: KState)
    requires Inv(s) && s.msip
    ensures Effect(s, Schedule(s), false, false)
  {
    ScheduleInv(s);
    HighestExists(s);
    ScheduleEffect(s);
  }

  lemma HandledEffect(s: KState)
    requires Inv(s)
    ensures Effect(s, Handled(s), false, false)
  {
    TimerEffect(s);
  }

  lemma TimeStepEffect(s: KState, step: Step)
    requires Inv(s) && Enabled(s, step) && PartOf(step) == TimePart
    ensures Effect(s, TimeExec(s, step).0, Acts(step), Loses(step, TimeExec(s, step).1))
  {
    hide Inv, Effect, TaskContext, DlyTsk, SlpTsk, Resume, Handled, Schedule, At;
    match step
    case Delay(ms, c) => DlyTskEffect(s, ms, c);
    case Sleep(tmo, c) => SlpTskEffect(s, tmo, c);
    case ResumeCall => ResumeEffect(s);
    case TimerInterrupt => HandledEffect(s);
    case SwitchTask => SwitchEffect(s);
    case ClockTick(d) => AtEffect(s, s.now + d);
  }

  lemma SemStepEffect(s: KState, step: Step)
    requires Inv(s) && Enabled(s, step) && PartOf(step) == SemPart
    ensures Effect(s, SemExec(s, step).0, Acts(step), Loses(step, SemExec(s, step).1))
  {
    hide Inv, Effect, CreSem, WaiSem, SigSem, DelSem;
    match step
    case CreateSem(tpri, cntOrder, isemcnt, maxsem) => CreSemEffect(s, tpri, cntOrder, isemcnt, maxsem);
    case WaitSem(id, cnt, tmo, c) => WaiSemEffect(s, id, cnt, tmo, c);
    case SignalSem(id, cnt) => SigSemEffect(s, id, cnt);
    case DeleteSem(id) => DelSemEffect(s, id);
  }

  lemma FlgStepEffect(s: KState, step: Step)
    requires Inv(s) && Enabled(s, step) && PartOf(step) == FlgPart
    ensures Effect(s, FlgExec(s, step).0, Acts(step), Loses(step, FlgExec(s, step).1))
  {
    hide Inv, Effect, CreFlg, WaiFlg, SetFlg, ClrFlg;
    match step
    case CreateFlg(tpri, wmul, p) => CreFlgEffect(s, tpri, wmul, p);
    case WaitFlg(id, p, m, tmo, c) => WaiFlgEffect(s, id, p, m, tmo, c);
    case SetFlag(id, p) => SetFlgEffect(s, id, p);
    case ClearFlag(id, p) => ClrFlgEffect(s, id, p);
  }

  lemma MbxStepEffect(s: KState, step: Step)
    requires Inv(s) && Enabled(s, step) && PartOf(step) == MbxPart
    ensures Effect(s, MbxExec(s, step).0, Acts(step), Loses(step, MbxExec(s, step).1))
  {
    hide Inv, Effect, CreMbx, SndMbx, RcvMbx, DelMbx;
    match step
    case CreateMbx(tpri, mpri) => CreMbxEffect(s, tpri, mpri);
    case SendMsg(id, msg) => SndMbxEffect(s, id, msg);
    case ReceiveMsg(id, tmo, c) => RcvMbxEffect(s, id, tmo, c);
    case DeleteMbx(id) => DelMbxEffect(s, id);
  }

  /** What any step does to any task. */
  lemma StepHasEffect(s: KState, step: Step)
    requires Inv(s) && Enabled(s, step)
    ensures Effect(s, Exec(s, step).0, Acts(step), Loses(step, Exec(s, step).1))
  {
    hide Inv, Enabled, Effect, Acts, Loses, TaskExec, TimeExec, SemExec, FlgExec, MbxExec;
    match PartOf(step)
    case TaskPart => TaskStepEffect(s, step);
    case TimePart => TimeStepEffect(s, step);
    case SemPart => SemStepEffect(s, step);
    case FlgPart => FlgStepEffect(s, step);
    case MbxPart => MbxStepEffect(s, step);
  }

  /* ---- where every task is ---- */

  predicate WaitsOn(s: KState, t: TaskId, w: WQ) {
    && Waiting(s, t)
    && match w
       case SemQ(q) => s.tcb[t].tskwait == SEM && s.tcb[t].winfo.SemInfo? && s.tcb[t].winfo.semcb == q
       case FlgQ(f) => s.tcb[t].tskwait == FLG && s.waits.at[t] == On(w)
       case MbxQ(m) => s.tcb[t].tskwait == MBX && s.waits.at[t] == On(w)
  }

  /** The global queue invariant, told per task: a ready or running task is on the ready queue of its own priority
      and on no other queue; a waiting one is on no ready queue, on the timer queue exactly when it has ticks left,
      and on the wait queue of an object, which is live, exactly when it waits for that one; any other task is on no
      queue; and no queue holds a task twice. */
  lemma EveryTaskInItsPlace(s: KState, t: TaskId)
    requires Inv(s)
    ensures forall p: Pri :: t in ReadyAt(s, p) <==> Runnable(s, t) && p == s.tcb[t].itskpri
    ensures t in Timed(s) <==> Waiting(s, t) && s.tcb[t].delay > 0
    ensures forall w :: t in Waiters(s, w) <==> WaitsOn(s, t, w)
    ensures forall w :: t in Waiters(s, w) ==> Exists(s, w)
    ensures Waiting(s, t) && s.tcb[t].tskwait in {SEM, FLG, MBX} ==> exists w :: t in Waiters(s, w)
    ensures Runnable(s, t) ==> s.tcb[t].tskwait == NoWait && s.tcb[t].delay == 0
    ensures forall p: Pri :: NoDup(ReadyAt(s, p))
    ensures NoDup(Timed(s)) && forall w :: NoDup(Waiters(s, w))
  {
    assert TaskOk(s, t) && TimedOk(s, t);
    forall p: Pri ensures t in ReadyAt(s, p) <==> Runnable(s, t) && p == s.tcb[t].itskpri {
      assert t in s.heads.Get(ReadyQ(p)) <==> s.heads.at[t] == On(ReadyQ(p));
    }
    assert t in s.heads.Get(TimerQ) <==> s.heads.at[t] == On(TimerQ);
    forall w ensures (t in Waiters(s, w) <==> WaitsOn(s, t, w)) && (t in Waiters(s, w) ==> Exists(s, w)) {
      assert t in s.waits.Get(w) <==> s.waits.at[t] == On(w);
    }
    if Waiting(s, t) && s.tcb[t].tskwait in {SEM, FLG, MBX} {
      assert t in Waiters(s, s.waits.at[t].q);
    }
    forall p: Pri ensures NoDup(ReadyAt(s, p)) { assert NoDup(s.heads.Get(ReadyQ(p))); }
    forall w ensures NoDup(Waiters(s, w)) { assert NoDup(s.waits.Get(w)); }
    assert NoDup(s.heads.Get(TimerQ));
  }

  /* ---- every wait ends exactly once ---- */

  /** Still in the same wait: for the same thing, on the same queue, with the same deadline. */
  predicate SameWait(s: KState, r: KState, t: TaskId) {
    && Waiting(r, t) && r.tcb[t].pc == s.tcb[t].pc && r.tcb[t].tskwait == s.tcb[t].tskwait
    && r.tcb[t].winfo == s.tcb[t].winfo && r.waits.at[t] == s.waits.at[t] && SameStory(s, r, t)
  }

  /** What a wait that is over has to report. */
  predicate SameReport(s: KState, r: KState, t: TaskId) {
    && !Waiting(r, t) && r.tcb[t].pc == s.tcb[t].pc
    && r.tcb[t].wupcause == s.tcb[t].wupcause && r.tcb[t].winfo == s.tcb[t].winfo
  }

  /** A task in a wait call stays in the same wait until a step ends it with the cause the step stands for; from then on
      no step changes its cause or what was delivered, until the task itself goes on in its call. */
  lemma WaitEndsOnce(s: KState, step: Step, t: TaskId)
    requires Inv(s) && Enabled(s, step) && s.tcb[t].pc.InWait?
    ensures var r := Exec(s, step).0;
            if Waiting(s, t) then SameWait(s, r, t) || (Ended(s, r, t) && EndedBy(s, step, r, t))
            else SameReport(s, r, t) || (step == ResumeCall && t == s.current)
  {
    StepHasEffect(s, step);
    if Waiting(s, t) && !Waiting(Exec(s, step).0, t) { WaitEndsByItsEvent(s, step, t); }
    hide Inv, Exec, EndedBy;
    assert TaskOk(s, t) && TaskStep(s, Exec(s, step).0, t, Acts(step));
    OnceEnded(s, Exec(s, step).0, t, Acts(step));
  }

  lemma OnceEnded(s: KState, r: KState, t: TaskId, acts: bool)
    requires TaskOk(s, t) && s.tcb[t].pc.InWait? && TaskStep(s, r, t, acts)
    ensures if Waiting(s, t) then SameWait(s, r, t) || Ended(s, r, t) else SameReport(s, r, t) || (acts && t == s.current)
  {
  }

  /** What the rest of a wait call returns for a task record. */
  function Report(c: Tcb): Reply
    requires c.pc.InWait?
  {
    match c.pc.kind
    case DLY => Er(if c.wupcause == E_TMOUT then E_OK else c.wupcause)
    case FLG => if c.wupcause == E_OK && c.winfo.FlgInfo? then Pattern(c.winfo.flgptn) else Er(c.wupcause)
    case MBX => if c.wupcause == E_OK && c.winfo.MbxInfo? && c.winfo.msg.Some? then Received(c.winfo.msg.value) else Er(c.wupcause)
    case _ => Er(c.wupcause)
  }

  /** What a wait call returns, by the event that ended its wait. */
  predicate Answers(s: KState, step: Step, t: TaskId, y: Reply) {
    match step
    case SetFlag(id, p) => y.Pattern? && InRange(id, CFN_MAX_FLGID) && GivenPattern(s, id - 1, p, t, y.ptn)
    case SendMsg(_, msg) => y == Received(msg)
    case SignalSem(_, _) | WakeUp(_, _) => y == Er(E_OK)
    case ReleaseWait(id) => y == Er(if t == id - 1 then E_RLWAI else E_OK)
    case DeleteSem(_) | DeleteMbx(_) => y == Er(E_DLT)
    case TimerInterrupt =>
      || (OnTimer(s, t) && s.hist.task[t].deadline <= s.now && y == Er(if s.tcb[t].tskwait == DLY then E_OK else E_TMOUT))
      || (s.tcb[t].tskwait == SEM && y == Er(E_OK))
    case _ => false
  }

  lemma AnsweredBy(s: KState, step: Step, r: KState, t: TaskId)
    requires LinksOk(s) && Ended(s, r, t) && EndedBy(s, step, r, t)
    ensures r.tcb[t].pc.InWait? && Answers(s, step, t, Report(r.tcb[t]))
  {
    InCall(s, t);
    hide LinksOk, SameStory, MadeWay, GivenPattern;
    match step
    case SignalSem(id, _) => SemWaiter(s, id - 1, t);
    case DeleteSem(id) => SemWaiter(s, id - 1, t);
    case SetFlag(id, _) => FlgWaiter(s, id - 1, t);
    case SendMsg(id, _) => HeadReceives(s, id - 1);
    case _ =>
  }

  /** In every run, from the step that ends a task's wait, whatever happens before the task goes on, the call returns
      what answers to that step. */
  lemma ReportStands(states: seq<KState>, steps: seq<Step>, i: nat, k: nat, t: TaskId)
    requires IsRun(states, steps) && i < k < |states| && Waiting(states[i], t) && !Waiting(states[i + 1], t)
    requires forall j :: i < j < k ==> !(steps[j] == ResumeCall && states[j].current == t)
    ensures EndedBy(states[i], steps[i], states[i + 1], t)
    ensures states[k].tcb[t].pc.InWait? && Answers(states[i], steps[i], t, Report(states[k].tcb[t]))
    ensures k < |steps| && steps[k] == ResumeCall && states[k].current == t ==>
              Answers(states[i], steps[i], t, Exec(states[k], ResumeCall).1)
  {
    EndAnswered(states, steps, i, t);
    hide Inv, Exec, EndedBy, Answers, Enabled, Report;
    ReportKeeps(states, steps, i + 1, k, t);
  }

  lemma EndAnswered(states: seq<KState>, steps: seq<Step>, i: nat, t: TaskId)
    requires IsRun(states, steps) && i + 1 < |states| && Waiting(states[i], t) && !Waiting(states[i + 1], t)
    ensures var r := states[i + 1];
            && EndedBy(states[i], steps[i], r, t) && r.tcb[t].pc.InWait?
            && Answers(states[i], steps[i], t, Report(r.tcb[t]))
  {
    RunsKeepInv(states, steps, i);
    hide Inv, Exec, EndedBy, Answers, Enabled, Report;
    var s, r := states[i], states[i + 1];
    InvGives(s);
    InCall(s, t);
    WaitEndsOnce(s, steps[i], t);
    AnsweredBy(s, steps[i], r, t);
  }

  lemma InCall(s: KState, t: TaskId)
    requires LinksOk(s) && Waiting(s, t)
    ensures s.tcb[t].pc == InWait(s.tcb[t].tskwait) && s.tcb[t].tskwait != NoWait
  {
    assert TaskOk(s, t);
  }

  /** Every wait that is over at some point of a run, its task still in the call, ended at exactly one step before: up to
      there the task waited, from there on it does not, and the step is one that stands for the end. */
  lemma {:induction false} EndedOnceInRun(states: seq<KState>, steps: seq<Step>, a: nat, k: nat, t: TaskId) returns (i: nat)
    requires IsRun(states, steps) && a < k < |states| && Waiting(states[a], t) && !Waiting(states[k], t)
    requires forall j :: a <= j < k ==> !(steps[j] == ResumeCall && states[j].current == t)
    ensures a <= i < k && (forall j :: a <= j <= i ==> Waiting(states[j], t)) && (forall j :: i < j <= k ==> !Waiting(states[j], t))
    ensures EndedBy(states[i], steps[i], states[i + 1], t)
    decreases k - a
  {
    hide Inv, Exec, EndedBy, Answers, Enabled, Report;
    var n := a + 1;
    if Waiting(states[n], t) {
      i := EndedOnceInRun(states, steps, n, k, t);
    } else {
      i := a;
      EndAnswered(states, steps, a, t);
      forall j | n <= j <= k ensures !Waiting(states[j], t) { ReportKeeps(states, steps, n, j, t); }
    }
  }

  /** Whatever happens between the end of a wait and the step in which the task goes on, its report stays. */
  lemma {:induction false} ReportKeeps(states: seq<KState>, steps: seq<Step>, i: nat, k: nat, t: TaskId)
    requires IsRun(states, steps) && i <= k < |states|
    requires states[i].tcb[t].pc.InWait? && !Waiting(states[i], t)
    requires forall j :: i <= j < k ==> !(steps[j] == ResumeCall && states[j].current == t)
    ensures states[k].tcb[t].pc.InWait? && Report(states[k].tcb[t]) == Report(states[i].tcb[t]) && !Waiting(states[k], t)
    ensures k < |steps| && steps[k] == ResumeCall && states[k].current == t ==>
              Exec(states[k], ResumeCall).1 == Report(states[i].tcb[t])
    decreases k - i
  {
    hide Inv, Exec, Report;
    if i < k {
      RunsKeepInv(states, steps, i);
      var n := i + 1;
      ReportKept(states[i], steps[i], states[n], t);
      ReportKeeps(states, steps, n, k, t);
    } else if states[k].current == t {
      ResumeReports(states[k]);
    }
  }

  lemma ReportKept(s: KState, step: Step, r: KState, t: TaskId)
    requires Inv(s) && Enabled(s, step) && r == Exec(s, step).0 && s.tcb[t].pc.InWait? && !Waiting(s, t)
    requires !(step == ResumeCall && s.current == t)
    ensures r.tcb[t].pc.InWait? && Report(r.tcb[t]) == Report(s.tcb[t]) && !Waiting(r, t)
  {
    WaitEndsOnce(s, step, t);
    SameReportReads(s, r, t);
  }

  lemma SameReportReads(s: KState, r: KState, t: TaskId)
    requires s.tcb[t].pc.InWait? && SameReport(s, r, t)
    ensures Report(r.tcb[t]) == Report(s.tcb[t])
  {
  }

  /** The rest of the call returns the report of its record. */
  lemma ResumeReports(s: KState)
    requires s.tcb[s.current].pc.InWait?
    ensures Exec(s, ResumeCall).1 == Report(s.tcb[s.current])
  {
  }

  /* ---- time ---- */

  /** The deadline of a timed wait never moves, and the compare value and the ticks left always lead to it. */
  lemma DeadlineFixed(s: KState, step: Step, t: TaskId)
    requires Inv(s) && Enabled(s, step) && OnTimer(s, t)
    ensures var r := Exec(s, step).0;
            OnTimer(r, t) ==> Deadline(r, t) == Deadline(s, t) == s.hist.task[t].deadline && r.hist.task[t].since == s.hist.task[t].since
                              && r.hist.task[t].ms == s.hist.task[t].ms
  {
    var r := Exec(s, step).0;
    StepHasEffect(s, step);
    assert TaskStep(s, r, t, Acts(step));
    StepKeepsInv(s, step);
    hide Inv, Exec, Effect;
    InvGivesTask(s, t);
    InvGivesTask(r, t);
  }

  /** A wait of ms that began at `since` times out only in a handler run and only after ms have passed; and a handler run
      at or after ms rounded up to ticks, plus one tick, ends it if nothing did before. */
  predicate WithinBounds(s: KState, step: Step, r: KState, t: TaskId) {
    var h := s.hist.task[t];
    && (EndsWith(r, t, E_TMOUT) ==> step == TimerInterrupt && OnTimer(s, t) && s.now > h.since + h.ms * (TICK_COUNTS / TICK_MS))
    && (step == TimerInterrupt && OnTimer(s, t) && s.now >= h.since + (CeilTicks(h.ms) + 1) * TICK_COUNTS ==>
          EndsWith(r, t, E_TMOUT) || EndsWith(r, t, E_OK))
  }

  /** The real-time bound, whatever the step. */
  lemma TimedWaitBounds(s: KState, step: Step, t: TaskId)
    requires Inv(s) && Enabled(s, step) && Waiting(s, t)
    ensures WithinBounds(s, step, Exec(s, step).0, t)
  {
    hide Inv, Exec, Enabled, EndedBy, TimesOut;
    if OnTimer(s, t) { TimedWindow(s, t); }
    if step == TimerInterrupt { HandledTimes(s, step, t); }
    if !Waiting(Exec(s, step).0, t) { WaitEndsByItsEvent(s, step, t); }
    BoundsFit(s, step, Exec(s, step).0, t);
  }

  lemma TimedWindow(s: KState, t: TaskId)
    requires Inv(s) && OnTimer(s, t)
    ensures InWindow(s.hist.task[t])
  {
    hide Inv;
    InvGivesTask(s, t);
  }

  lemma BoundsFit(s: KState, step: Step, r: KState, t: TaskId)
    requires OnTimer(s, t) ==> InWindow(s.hist.task[t])
    requires step == TimerInterrupt ==> TimesOut(s, r, t)
    requires Waiting(s, t) && (!Waiting(r, t) ==> EndedBy(s, step, r, t))
    ensures WithinBounds(s, step, r, t)
  {
  }

  lemma HandledTimes(s: KState, step: Step, t: TaskId)
    requires Inv(s) && step == TimerInterrupt
    ensures TimesOut(s, Exec(s, step).0, t)
  {
    hide Inv, Core, TimerHandler, Exec, TimesOut;
    InvGives(s);
    HandledIs(s);
    TimerHandlerTimes(s);
  }

  lemma HandledIs(s: KState)
    requires Core(s)
    ensures Exec(s, TimerInterrupt).0 == TimerHandler(s)
  {
    hide Core, TimerHandler;
  }

  /* ---- scheduling ---- */

  /** With no switch pending the current task runs and nobody ready has a higher priority; with one pending, that
      is so of the task chosen next; and only the current task ever runs. */
  lemma SchedulerSafety(s: KState)
    requires Inv(s)
    ensures forall t: TaskId :: s.tcb[t].tskstat == RUN ==> t == s.current
    ensures s.msip ==> s.next.Some?
    ensures var c := if s.msip then s.next.value else s.current;
            && (!s.msip ==> s.tcb[c].tskstat == RUN)
            && Runnable(s, c) && ReadyAt(s, s.tcb[c].itskpri) != [] && ReadyAt(s, s.tcb[c].itskpri)[0] == c
            && forall t: TaskId :: Runnable(s, t) ==> s.tcb[c].itskpri <= s.tcb[t].itskpri
  {
    HighestExists(s);
  }

  /** A switch makes the task chosen the running one; the one it preempts is ready at the same place as before. */
  lemma SwitchKeepsPlaces(s: KState)
    requires Inv(s) && s.msip
    ensures var r := Schedule(s);
            && !r.msip && Some(r.current) == s.next && r.tcb[r.current].tskstat == RUN
            && (s.tcb[s.current].tskstat == RUN && s.current != r.current ==> r.tcb[s.current].tskstat == RDY)
            && forall p: Pri :: ReadyAt(r, p) == ReadyAt(s, p)
  {
    HighestExists(s);
    assert TaskOk(s, s.current);
  }

  /** A ready task loses its place ahead of its peers only by its own yielding, blocking or exiting: any other step
      leaves each ready queue as it was, with newcomers at its tail. */
  lemma PlaceLostOnlyByOwnStep(s: KState, step: Step, p: Pri)
    requires Inv(s) && Enabled(s, step)
    ensures var (r, reply) := Exec(s, step);
            if Loses(step, reply) then Without(ReadyAt(s, p), s.current) <= ReadyAt(r, p) else ReadyAt(s, p) <= ReadyAt(r, p)
  {
    StepHasEffect(s, step);
    assert PlacesKept(s, Exec(s, step).0, Loses(step, Exec(s, step).1));
  }

  /** tkmc_idle_can_halt: the idle task is the choice and the two ends of its queue are one. */
  predicate IdleCanHalt(s: KState) {
    Highest(s) == Some(s.current) && |ReadyAt(s, CFN_MAX_PRI)| <= 1
  }

  lemma PeerReady(s: KState)
    requires LinksOk(s) && |ReadyAt(s, CFN_MAX_PRI)| > 1
    ensures exists t: TaskId :: Runnable(s, t) && t != IDLE
  {
    var q := ReadyAt(s, CFN_MAX_PRI);
    assert NoDup(s.heads.Get(ReadyQ(CFN_MAX_PRI)));
    var t := if q[0] == IDLE then q[1] else q[0];
    assert t in s.heads.Get(ReadyQ(CFN_MAX_PRI)) && TaskOk(s, t);
    assert Runnable(s, t) && t != IDLE;
  }

  /** The first entry of a ring is its last one exactly if there is no other. */
  lemma OneLink(s: KState)
    requires Inv(s)
    ensures var q := ReadyAt(s, CFN_MAX_PRI); q == [] || q[0] == q[|q| - 1] <==> |q| <= 1
  {
    assert NoDup(s.heads.Get(ReadyQ(CFN_MAX_PRI)));
  }

  /** Asked by the idle task, it is true exactly when no other task is ready. */
  lemma IdleHaltsAlone(s: KState)
    requires Inv(s) && s.current == IDLE
    ensures IdleCanHalt(s) <==> forall t: TaskId :: Runnable(s, t) ==> t == IDLE
  {
    HighestExists(s);
    var q := ReadyAt(s, CFN_MAX_PRI);
    assert TaskOk(s, IDLE) && IDLE in q;
    if IdleCanHalt(s) {
      forall t: TaskId | Runnable(s, t) ensures t == IDLE {
        assert TaskOk(s, t) && t in ReadyAt(s, s.tcb[t].itskpri);
      }
    }
    if forall t: TaskId :: Runnable(s, t) ==> t == IDLE {
      if |q| > 1 { PeerReady(s); }
      assert IdleCanHalt(s);
    }
  }

  /* ---- wake-ups ---- */

  /** Since a task was started, the wake-ups accepted for it are queued or were used by a sleep; no more than 4095
      are queued, and none while the task sleeps. */
  lemma WakeupsAccounted(s: KState, t: TaskId)
    requires Inv(s)
    ensures s.hist.task[t].accepted == s.tcb[t].wupcnt + s.hist.task[t].used && s.tcb[t].wupcnt <= TK_WAKEUP_MAXCNT
    ensures Waiting(s, t) && s.tcb[t].tskwait == SLP ==> s.tcb[t].wupcnt == 0
  {
    assert HistOk(s, t) && TaskOk(s, t);
  }

  /** A forced release loses no wake-up, of the task released or any other. */
  lemma ReleaseLosesNoWakeup(s: KState, id: int, t: TaskId)
    requires Inv(s)
    ensures var r := RelWai(s, id).0;
            r.tcb[t].wupcnt == s.tcb[t].wupcnt && r.hist.task[t] == s.hist.task[t]
  {
    hide Inv, Core, CompleteWait, Resched;
    InvGives(s);
    if RelWai(s, id).1 == Er(E_OK) {
      CompleteWaitKeeps(s, id - 1, E_RLWAI);
      assert SameOrEnded(s, CompleteWait(s, id - 1, E_RLWAI), t);
      OnlyChosen(CompleteWait(s, id - 1, E_RLWAI));
    }
  }

  lemma OnlyChosen(s: KState)
    ensures Resched(s).tcb == s.tcb && Resched(s).hist == s.hist
  {
  }
}
