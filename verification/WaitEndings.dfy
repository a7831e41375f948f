/** Which event ends a wait, and with which cause: one theorem for all steps, and what the resumed call makes of it. */
module WaitEndings {
  import opened Types
  import opened Rings
  import opened KernelState
  import opened KernelOps
  import opened Frames
  import opened WaitEnd
  import opened WaitStart
  import opened Timer
  import opened TimerRuns
  import opened TimerLate
  import opened TimerOrder
  import opened EventFlags
  import opened Scheduling
  import opened TaskCalls
  import opened SemCalls
  import opened MbxCalls
  import opened Objects
  import opened CallResults
  import opened Runs

  predicate EndsWith(r: KState, t: TaskId, cause: ER) {
    r.tcb[t].tskstat == RDY && r.tcb[t].wupcause == cause
  }

  /** The pattern a flag wait is given: it satisfies the wait, and it is of the bits the flag had with those set. */
  predicate GivenPattern(s: KState, f: FlgId, setptn: Ptn, t: TaskId, p: Ptn) {
    var i := s.tcb[t].winfo;
    i.FlgInfo? && Match(p, i.waiptn, i.wfmode) && p <= s.flg[f].flgptn + setptn
  }

  /** In a handler run, f timed out and made way for t: both wait for one semaphore, and the deadline of t, if it has
      one, is not earlier. */
  predicate MadeWay(s: KState, r: KState, f: TaskId, t: TaskId) {
    && OnTimer(s, f) && SameSem(s, f, t) && EndsWith(r, f, E_TMOUT) && s.hist.task[f].deadline <= s.now
    && (OnTimer(s, t) ==> s.hist.task[f].deadline <= s.hist.task[t].deadline)
  }

  /** The wait of t, over after the step, was ended by it, with the cause the step stands for. A handler run times out
      tasks whose deadline the clock has reached; a wait it ends otherwise is for units a timed-out task left. */
  ghost predicate EndedBy(s: KState, step: Step, r: KState, t: TaskId) {
    match step
    case SignalSem(id, _) => InRange(id, CFN_MAX_SEMID) && t in Waiters(s, SemQ(id - 1)) && EndsWith(r, t, E_OK)
    case SetFlag(id, p) =>
      && InRange(id, CFN_MAX_FLGID) && t in Waiters(s, FlgQ(id - 1)) && EndsWith(r, t, E_OK)
      && r.tcb[t].winfo.FlgInfo? && GivenPattern(s, id - 1, p, t, r.tcb[t].winfo.flgptn)
    case SendMsg(id, msg) =>
      && InRange(id, CFN_MAX_MBXID) && Waiters(s, MbxQ(id - 1)) != [] && t == Waiters(s, MbxQ(id - 1))[0]
      && EndsWith(r, t, E_OK) && r.tcb[t].winfo == MbxInfo(Some(msg))
    case WakeUp(id, _) => t == id - 1 && s.tcb[t].tskwait == SLP && EndsWith(r, t, E_OK)
    case ReleaseWait(id) =>
      if t == id - 1 then EndsWith(r, t, E_RLWAI)
      else InRange(id, CFN_MAX_TSKID) && SameSem(s, id - 1, t) && EndsWith(r, t, E_OK)
    case DeleteSem(id) => InRange(id, CFN_MAX_SEMID) && t in Waiters(s, SemQ(id - 1)) && EndsWith(r, t, E_DLT)
    case DeleteMbx(id) => InRange(id, CFN_MAX_MBXID) && t in Waiters(s, MbxQ(id - 1)) && EndsWith(r, t, E_DLT)
    case TimerInterrupt =>
      || (OnTimer(s, t) && s.hist.task[t].deadline <= s.now && EndsWith(r, t, E_TMOUT))
      || (EndsWith(r, t, E_OK) && exists f: TaskId :: MadeWay(s, r, f, t))
    case _ => false
  }

  /* ---- tasks ---- */

  lemma ForcedEnds(s: KState, id: int, t: TaskId)
    requires Inv(s) && Waiting(s, t) && !Waiting(RelWai(s, id).0, t)
    ensures EndedBy(s, ReleaseWait(id), RelWai(s, id).0, t)
  {
    hide Inv, Core, LinksOk, CompleteWait, Ends, RelWai;
    InvGives(s);
    ForcedIs(s, id);
    if RelWai(s, id).1 == Er(E_OK) {
      var c := CompleteWait(s, id - 1, E_RLWAI);
      CompleteWaitKeeps(s, id - 1, E_RLWAI);
      if t != id - 1 { OthersServed(s, id - 1, E_RLWAI, c, t); }
    }
  }

  lemma ForcedIs(s: KState, id: int)
    ensures var (r, y) := RelWai(s, id);
            if y == Er(E_OK) then
              InRange(id, CFN_MAX_TSKID) && Waiting(s, id - 1) && r.tcb == CompleteWait(s, id - 1, E_RLWAI).tcb
            else r == s
  {
  }

  lemma WokenEnds(s: KState, id: int, inIsr: bool, t: TaskId)
    requires Waiting(s, t) && !Waiting(WupTsk(s, id, inIsr).0, t)
    ensures EndedBy(s, WakeUp(id, inIsr), WupTsk(s, id, inIsr).0, t)
  {
  }

  /** A control block that is taken was free, so nobody waits in it. */
  lemma CreationEndsNone(s: KState, pri: int, t: TaskId)
    requires Inv(s) && Waiting(s, t)
    ensures Waiting(CreTsk(s, pri).0, t)
  {
    hide Inv;
    var q := s.heads.Get(FreeQ);
    if q != [] { FreeTask(s, q[0]); }
  }

  /** The calls of a task on itself, and a start, which is of a dormant task, end no wait. */
  lemma OwnCallsEndNone(s: KState, id: int, t: TaskId)
    requires Waiting(s, t)
    ensures Waiting(StaTsk(s, id).0, t)
    ensures TaskContext(s) ==> Waiting(Yield(s), t) && Waiting(ExtTsk(s), t) && Waiting(ExdTsk(s), t)
  {
  }

  lemma TaskPartEnds(s: KState, step: Step, t: TaskId)
    requires Inv(s) && Enabled(s, step) && PartOf(step) == TaskPart && Waiting(s, t) && !Waiting(TaskExec(s, step).0, t)
    ensures EndedBy(s, step, TaskExec(s, step).0, t)
  {
    hide Inv, EndedBy, CreTsk, StaTsk, Yield, ExtTsk, ExdTsk, RelWai, WupTsk;
    match step
    case ReleaseWait(id) => ForcedEnds(s, id, t);
    case WakeUp(id, inIsr) => WokenEnds(s, id, inIsr, t);
    case CreateTask(pri) => CreationEndsNone(s, pri, t);
    case StartTask(id) => OwnCallsEndNone(s, id, t);
    case _ => OwnCallsEndNone(s, 0, t);
  }

  /* ---- time ---- */

  lemma SwitchEndsNone(s: KState, t: TaskId)
    requires Inv(s) && s.msip && Waiting(s, t)
    ensures Waiting(Schedule(s), t)
  {
    HighestExists(s);
  }

  lemma DelaysEndNone(s: KState, step: Step, t: TaskId)
    requires Enabled(s, step) && Waiting(s, t) && (step.Delay? || step.Sleep? || step == ResumeCall || step.ClockTick?)
    ensures Waiting(TimeExec(s, step).0, t)
  {
    hide Handled, Schedule;
  }

  /** One task of a handler run: a is where the loop starts, e where it ends, l the log of the run. */
  lemma LoggedEnds(s: KState, a: KState, e: KState, p: nat, l: seq<Expiry>, t: TaskId)
    requires Inv(s) && a == Advanced(s) && Core(a) && Core(e) && p == Pending(s.mtimecmp, s.now) > 0 && AfterTicks(a, e, p)
    requires LogOk(a, l, p) && LogComplete(a, l, e) && Waiting(s, t) && !Waiting(e, t)
    ensures EndedBy(s, TimerInterrupt, e, t)
  {
    hide Inv, Core, Pending, TimedOk, EndedBy, TaskOk, HistOk, AfterTicks;
    InvGivesTask(s, t);
    EndsReady(a, e, p, t);
    if TimedOut(l, t) {
      var k :| 0 <= k < |l| && l[k].task == t;
      LimitReached(s, a, p, t);
      TimeOutEnds(s, e, t);
    } else {
      var k :| 0 <= k < |l| && t in l[k].handed;
      var f := l[k].task;
      assert TimedOut(l, f) && MayReceive(a, f, t);
      DepartureMakesWay(s, a, e, p, l, f, t);
      MadeWayEnds(s, e, f, t);
    }
  }

  lemma TimeOutEnds(s: KState, e: KState, t: TaskId)
    requires EndsWith(e, t, E_TMOUT) && OnTimer(s, t) && s.hist.task[t].deadline <= s.now
    ensures EndedBy(s, TimerInterrupt, e, t)
  {
  }

  lemma MadeWayEnds(s: KState, e: KState, f: TaskId, t: TaskId)
    requires EndsWith(e, t, E_OK) && MadeWay(s, e, f, t)
    ensures EndedBy(s, TimerInterrupt, e, t)
  {
    hide MadeWay;
  }

  lemma EndsReady(a: KState, e: KState, p: nat, t: TaskId)
    requires Core(a) && Core(e) && AfterTicks(a, e, p) && Waiting(a, t) && !Waiting(e, t)
    ensures e.tcb[t].tskstat == RDY
  {
    CoreGives(e);
    assert TaskAfter(a, e, t, p) && TaskOk(e, t);
    hide Core, LinksOk, ObjectsOk, FreeOk, Coherent;
  }

  /** A limit the ticks of a run reach is one whose deadline the clock has reached. */
  lemma LimitReached(s: KState, a: KState, p: nat, t: TaskId)
    requires Inv(s) && a == Advanced(s) && Core(a) && p == Pending(s.mtimecmp, s.now) > 0
    requires t in Timed(a) && a.tcb[t].delay <= p
    ensures Waiting(s, t) && OnTimer(s, t) && s.hist.task[t].deadline <= s.now
  {
    hide Inv, Core, Pending, LinksOk, ObjectsOk, FreeOk, HistOk, AllSettled;
    CoreGives(a);
    InvGives(s);
    InvGivesTask(s, t);
    assert t in a.heads.Get(TimerQ);
    PendingIs(s.mtimecmp, s.now);
    ReachedIs(s.mtimecmp, s.now, s.tcb[t].delay);
  }

  lemma DepartureMakesWay(s: KState, a: KState, e: KState, p: nat, l: seq<Expiry>, f: TaskId, t: TaskId)
    requires Inv(s) && a == Advanced(s) && Core(a) && Core(e) && p == Pending(s.mtimecmp, s.now) > 0 && AfterTicks(a, e, p)
    requires LogComplete(a, l, e) && TimedOut(l, f) && MayReceive(a, f, t) && a.tcb[f].delay <= p
    ensures MadeWay(s, e, f, t)
  {
    LimitReached(s, a, p, f);
    CoreGives(a);
    InvGivesTask(s, f);
    InvGivesTask(s, t);
    LeavesTimer(a, e, p, f);
    EndsReady(a, e, p, f);
    hide Inv, Core, Pending, LinksOk, ObjectsOk, FreeOk, TaskOk, HistOk, AfterTicks;
    assert t in a.heads.Get(TimerQ) <==> a.heads.at[t] == On(TimerQ);
  }

  lemma LeavesTimer(a: KState, e: KState, p: nat, f: TaskId)
    requires Core(a) && Core(e) && AfterTicks(a, e, p) && Waiting(a, f) && OnTimer(a, f) && a.tcb[f].delay <= p
    ensures !Waiting(e, f)
  {
    hide Core;
    assert TaskAfter(a, e, f, p);
  }

  lemma HandlerEnds(s: KState, t: TaskId)
    requires Inv(s) && Waiting(s, t) && !Waiting(Handled(s), t)
    ensures EndedBy(s, TimerInterrupt, Handled(s), t)
  {
    var p := Pending(s.mtimecmp, s.now);
    var a := Advanced(s);
    AdvancedSettled(s);
    var e := Expire(a, p).0;
    ExpireAfter(a, p);
    ExpiriesInOrder(a, p);
    ExpiriesComplete(a, p);
    LoggedEnds(s, a, e, p, Expiries(a, p), t);
    SameEnd(s, e, Handled(s), t);
  }

  lemma SameEnd(s: KState, e: KState, r: KState, t: TaskId)
    requires EndedBy(s, TimerInterrupt, e, t) && r.tcb == e.tcb
    ensures EndedBy(s, TimerInterrupt, r, t)
  {
    if f: TaskId :| MadeWay(s, e, f, t) { assert MadeWay(s, r, f, t); }
  }

  lemma TimePartEnds(s: KState, step: Step, t: TaskId)
    requires Inv(s) && Enabled(s, step) && PartOf(step) == TimePart && Waiting(s, t) && !Waiting(TimeExec(s, step).0, t)
    ensures EndedBy(s, step, TimeExec(s, step).0, t)
  {
    if step != TimerInterrupt && step != SwitchTask { DelaysEndNone(s, step, t); }
    hide Inv, EndedBy, DlyTsk, SlpTsk, Resume, Handled, Schedule, At;
    if step == TimerInterrupt { HandlerEnds(s, t); }
    if step == SwitchTask { SwitchEndsNone(s, t); }
  }

  /* ---- semaphores ---- */

  lemma SignalEnds(s: KState, id: int, cnt: int, t: TaskId)
    requires Inv(s) && Waiting(s, t) && !Waiting(SigSem(s, id, cnt).0, t)
    ensures EndedBy(s, SignalSem(id, cnt), SigSem(s, id, cnt).0, t)
  {
    hide SigSem, Inv, Core, Serve;
    SignalIs(s, id, cnt);
    var q: SemId := id - 1;
    var a := AddUnits(s, q, cnt);
    AddUnitsCore(s, q, cnt);
    ServedChange(a, q, t);
    assert Waiters(a, SemQ(q)) == Waiters(s, SemQ(q));
  }

  /** What an accepted signal does to tasks is the serving of its semaphore; a refused one does nothing. */
  lemma SignalIs(s: KState, id: int, cnt: int)
    requires Inv(s)
    ensures var (r, y) := SigSem(s, id, cnt);
            if y == Er(E_OK) then
              && InRange(id, CFN_MAX_SEMID) && Core(s) && s.sem[id - 1].live && 0 < cnt <= s.sem[id - 1].maxsem - s.sem[id - 1].semcnt
              && r.tcb == Serve(AddUnits(s, id - 1, cnt), id - 1).tcb
            else r == s
  {
  }

  lemma DelSemEnds(s: KState, id: int, t: TaskId)
    requires Inv(s) && Waiting(s, t) && !Waiting(DelSem(s, id).0, t)
    ensures EndedBy(s, DeleteSem(id), DelSem(s, id).0, t)
  {
    hide DelSem, Inv;
    DelSemRefused(s, id);
    if DelSem(s, id).1 == Er(E_OK) { DeleteReleasesAll(s, id); }
  }

  lemma DelSemRefused(s: KState, id: int)
    ensures DelSem(s, id).1 == Er(E_OK) ==> InRange(id, CFN_MAX_SEMID)
    ensures DelSem(s, id).1 != Er(E_OK) ==> DelSem(s, id).0 == s
  {
  }

  lemma SemCallsEndNone(s: KState, step: Step, t: TaskId)
    requires Enabled(s, step) && Waiting(s, t) && (step.CreateSem? || step.WaitSem?)
    ensures Waiting(SemExec(s, step).0, t)
  {
    hide SigSem, DelSem;
  }

  lemma SemPartEnds(s: KState, step: Step, t: TaskId)
    requires Inv(s) && Enabled(s, step) && PartOf(step) == SemPart && Waiting(s, t) && !Waiting(SemExec(s, step).0, t)
    ensures EndedBy(s, step, SemExec(s, step).0, t)
  {
    hide Inv, Enabled, EndedBy, CreSem, WaiSem, SigSem, DelSem;
    match step
    case SignalSem(id, cnt) => SignalEnds(s, id, cnt, t);
    case DeleteSem(id) => DelSemEnds(s, id, t);
    case _ => SemCallsEndNone(s, step, t);
  }

  /* ---- event flags ---- */

  /** Who is given a pattern by the fold is given one that satisfies it, of the bits there were. */
  lemma {:induction false} FoldGives(p: Ptn, ws: seq<(Ptn, Mode)>, i: nat)
    requires i < |ws| && Fold(p, ws).1[i].Some?
    ensures var g := Fold(p, ws).1[i].value; g <= p && Match(g, ws[i].0, ws[i].1)
  {
    if i > 0 {
      var h := if Match(p, ws[0].0, ws[0].1) then Consume(p, ws[0].0, ws[0].1) else p;
      FoldGives(h, ws[1..], i - 1);
      assert h <= p;
    }
  }

  lemma {:induction false} SetOthers(s: KState, f: FlgId, rest: seq<TaskId>, t: TaskId)
    requires Core(s) && Unvisited(s, f, rest) && t !in rest
    ensures SetFrom(s, f, rest).tcb[t] == s.tcb[t]
    decreases rest
  {
    if rest != [] {
      VisitOne(s, f, rest, rest[0]);
      if Satisfied(s, s.flg[f].flgptn, rest[0]) {
        DeliverOthers(s, f, rest[0]);
        SetOthers(Deliver(s, f, rest[0]), f, rest[1..], t);
      } else {
        SetOthers(s, f, rest[1..], t);
      }
    }
  }

  lemma SetFlgOthers(s: KState, id: int, setptn: Ptn, t: TaskId)
    requires Inv(s) && InRange(id, CFN_MAX_FLGID) && s.flg[id - 1].live && t !in Waiters(s, FlgQ(id - 1))
    ensures SetFlg(s, id, setptn).0.tcb[t] == s.tcb[t]
  {
    var f: FlgId := id - 1;
    var c := s.flg[f].(flgptn := s.flg[f].flgptn + setptn);
    SetUnvisited(s, f, c, WithFlg(s, f, c));
    SetOthers(WithFlg(s, f, c), f, Waiters(s, FlgQ(f)), t);
  }

  lemma SetFlgEnds(s: KState, id: int, setptn: Ptn, t: TaskId)
    requires Inv(s) && Waiting(s, t) && !Waiting(SetFlg(s, id, setptn).0, t)
    ensures EndedBy(s, SetFlag(id, setptn), SetFlg(s, id, setptn).0, t)
  {
    var f: FlgId := id - 1;
    var w := Waiters(s, FlgQ(f));
    if t !in w { SetFlgOthers(s, id, setptn, t); }
    SetFlgIsFold(s, id, setptn);
    FlgWaiter(s, f, t);
    var i := Index(w, t);
    var p := s.flg[f].flgptn + setptn;
    assert Fold(p, WantsOf(s, w)).1[i].Some?;
    FoldGives(p, WantsOf(s, w), i);
  }

  lemma FlgCallsEndNone(s: KState, step: Step, t: TaskId)
    requires Enabled(s, step) && Waiting(s, t) && (step.CreateFlg? || step.WaitFlg? || step.ClearFlag?)
    ensures Waiting(FlgExec(s, step).0, t)
  {
    hide SetFlg;
  }

  lemma FlgPartEnds(s: KState, step: Step, t: TaskId)
    requires Inv(s) && Enabled(s, step) && PartOf(step) == FlgPart && Waiting(s, t) && !Waiting(FlgExec(s, step).0, t)
    ensures EndedBy(s, step, FlgExec(s, step).0, t)
  {
    hide Inv, Enabled, EndedBy, CreFlg, WaiFlg, SetFlg, ClrFlg;
    match step
    case SetFlag(id, p) => SetFlgEnds(s, id, p, t);
    case _ => FlgCallsEndNone(s, step, t);
  }

  /* ---- mailboxes ---- */

  lemma SendEnds(s: KState, id: int, msg: Msg, t: TaskId)
    requires Inv(s) && Waiting(s, t) && !Waiting(SndMbx(s, id, msg).0, t)
    ensures EndedBy(s, SendMsg(id, msg), SndMbx(s, id, msg).0, t)
  {
    hide SndMbx, Inv;
    SendIs(s, id, msg, t);
  }

  /** A message that is handed over changes its receiver only; one that is queued or refused changes no task. */
  lemma SendIs(s: KState, id: int, msg: Msg, t: TaskId)
    requires Inv(s)
    ensures var (r, y) := SndMbx(s, id, msg);
            if y == Er(E_OK) && InRange(id, CFN_MAX_MBXID) && Waiters(s, MbxQ(id - 1)) != []
               && t == Waiters(s, MbxQ(id - 1))[0] then
              EndsWith(r, t, E_OK) && r.tcb[t].winfo == MbxInfo(Some(msg))
            else r.tcb[t] == s.tcb[t]
  {
    hide Inv, LinksOk, PopFrom, MakeReady;
    InvGives(s);
    if SndMbx(s, id, msg).1 == Er(E_OK) {
      var m: MbxId := id - 1;
      var w := Waiters(s, MbxQ(m));
      PopTakesFirst(s, m);
      if w != [] {
        HeadReceives(s, m);
        MakeReadyIs(s, w[0], E_OK, Some(msg));
      }
    }
  }

  lemma DelMbxEnds(s: KState, id: int, t: TaskId)
    requires Inv(s) && Waiting(s, t) && !Waiting(DelMbx(s, id).0, t)
    ensures EndedBy(s, DeleteMbx(id), DelMbx(s, id).0, t)
  {
    hide DelMbx, Inv;
    DelMbxRefused(s, id);
    if DelMbx(s, id).1 == Er(E_OK) { DeleteMbxReleasesAll(s, id); }
  }

  lemma DelMbxRefused(s: KState, id: int)
    ensures DelMbx(s, id).1 == Er(E_OK) ==> InRange(id, CFN_MAX_MBXID)
    ensures DelMbx(s, id).1 != Er(E_OK) ==> DelMbx(s, id).0 == s
  {
  }

  lemma MbxCallsEndNone(s: KState, step: Step, t: TaskId)
    requires Enabled(s, step) && Waiting(s, t) && (step.CreateMbx? || step.ReceiveMsg?)
    ensures Waiting(MbxExec(s, step).0, t)
  {
    hide SndMbx, DelMbx;
  }

  lemma MbxPartEnds(s: KState, step: Step, t: TaskId)
    requires Inv(s) && Enabled(s, step) && PartOf(step) == MbxPart && Waiting(s, t) && !Waiting(MbxExec(s, step).0, t)
    ensures EndedBy(s, step, MbxExec(s, step).0, t)
  {
    hide Inv, Enabled, EndedBy, CreMbx, SndMbx, RcvMbx, DelMbx;
    match step
    case SendMsg(id, msg) => SendEnds(s, id, msg, t);
    case DeleteMbx(id) => DelMbxEnds(s, id, t);
    case _ => MbxCallsEndNone(s, step, t);
  }

  /* ---- all steps ---- */

  /** Whatever step ends a wait, it is one that stands for the cause the wait ends with. */
  lemma WaitEndsByItsEvent(s: KState, step: Step, t: TaskId)
    requires Inv(s) && Enabled(s, step) && Waiting(s, t) && !Waiting(Exec(s, step).0, t)
    ensures EndedBy(s, step, Exec(s, step).0, t)
  {
    hide Inv, Enabled, EndedBy, TaskExec, TimeExec, SemExec, FlgExec, MbxExec;
    match PartOf(step)
    case TaskPart => TaskPartEnds(s, step, t);
    case TimePart => TimePartEnds(s, step, t);
    case SemPart => SemPartEnds(s, step, t);
    case FlgPart => FlgPartEnds(s, step, t);
    case MbxPart => MbxPartEnds(s, step, t);
  }
}
