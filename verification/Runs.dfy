/** Whole runs: every state the kernel reaches from its launch satisfies the invariant. */
module Runs {
  import opened Types
  import opened Rings
  import opened KernelState
  import opened KernelOps
  import opened Timer
  import opened TimerRuns
  import opened TimerLate
  import opened TaskCalls
  import opened SemCalls
  import opened FlgCalls
  import opened MbxCalls

  /** One atomic step. canBlock is the context a wait call finds: a task, interrupts on, not in an ISR. */
  datatype Step =
    | CreateTask(pri: int) | StartTask(id: int) | YieldCpu | ExitTask | ExitAndDeleteTask
    | ReleaseWait(id: int) | WakeUp(id: int, inIsr: bool)
    | Delay(ms: nat, canBlock: bool) | Sleep(tmo: int, canBlock: bool)
    | CreateSem(tpri: bool, cntOrder: bool, isemcnt: int, maxsem: int)
    | WaitSem(id: int, cnt: int, tmo: int, canBlock: bool) | SignalSem(id: int, cnt: int) | DeleteSem(id: int)
    | CreateFlg(tpri: bool, wmul: bool, iflgptn: Ptn)
    | WaitFlg(id: int, waiptn: Ptn, wfmode: Mode, tmo: int, canBlock: bool)
    | SetFlag(id: int, setptn: Ptn) | ClearFlag(id: int, clrptn: Ptn)
    | CreateMbx(tpri: bool, mpri: bool) | SendMsg(id: int, msg: Msg)
    | ReceiveMsg(id: int, tmo: int, canBlock: bool) | DeleteMbx(id: int)
    | ResumeCall        // the running task goes on in the wait call it was switched out in
    | TimerInterrupt | SwitchTask | ClockTick(counts: nat)

  /** Whether the step is a call in which the caller itself may stop running. */
  predicate NeedsTask(step: Step) {
    match step
    case YieldCpu | ExitTask | ExitAndDeleteTask => true
    case Delay(_, c) => c
    case Sleep(_, c) => c
    case WaitSem(_, _, _, c) => c
    case WaitFlg(_, _, _, _, c) => c
    case ReceiveMsg(_, _, c) => c
    case _ => false
  }

  /** When a step can happen. The idle task only yields; a switch needs a switch request. */
  predicate Enabled(s: KState, step: Step) {
    && (NeedsTask(step) ==> TaskContext(s) && (s.current == IDLE ==> step == YieldCpu))
    && (step == ResumeCall ==> s.tcb[s.current].tskstat == RUN && s.tcb[s.current].pc.InWait?)
    && (step == SwitchTask ==> s.msip)
  }

  /** A timer interrupt. (Its function is defined on the states runs reach; others stay as they are.) */
  ghost function Handled(s: KState): KState {
    if Core(s) then TimerHandler(s) else s
  }

  /** The part of the kernel a step belongs to. */
  datatype Part = TaskPart | TimePart | SemPart | FlgPart | MbxPart

  function PartOf(step: Step): Part {
    match step
    case CreateTask(_) | StartTask(_) | YieldCpu | ExitTask | ExitAndDeleteTask | ReleaseWait(_) | WakeUp(_, _) => TaskPart
    case Delay(_, _) | Sleep(_, _) | ResumeCall | TimerInterrupt | SwitchTask | ClockTick(_) => TimePart
    case CreateSem(_, _, _, _) | WaitSem(_, _, _, _) | SignalSem(_, _) | DeleteSem(_) => SemPart
    case CreateFlg(_, _, _) | WaitFlg(_, _, _, _, _) | SetFlag(_, _) | ClearFlag(_, _) => FlgPart
    case CreateMbx(_, _) | SendMsg(_, _) | ReceiveMsg(_, _, _) | DeleteMbx(_) => MbxPart
  }

  function TaskExec(s: KState, step: Step): (KState, Reply) {
    match step
    case CreateTask(pri) => CreTsk(s, pri)
    case StartTask(id) => StaTsk(s, id)
    case YieldCpu => (Yield(s), Er(E_OK))
    case ExitTask => (ExtTsk(s), Blocks)
    case ExitAndDeleteTask => (ExdTsk(s), Blocks)
    case ReleaseWait(id) => RelWai(s, id)
    case WakeUp(id, inIsr) => WupTsk(s, id, inIsr)
    case _ => (s, Er(E_OK))
  }

  ghost function TimeExec(s: KState, step: Step): (KState, Reply) {
    match step
    case Delay(ms, c) => DlyTsk(s, ms, c)
    case Sleep(tmo, c) => SlpTsk(s, tmo, c)
    case ResumeCall => if s.tcb[s.current].pc.InWait? then Resume(s) else (s, Er(E_OK))
    case TimerInterrupt => (Handled(s), Er(E_OK))
    case SwitchTask => (Schedule(s), Er(E_OK))
    case ClockTick(d) => (At(s, s.now + d), Er(E_OK))
    case _ => (s, Er(E_OK))
  }

  function SemExec(s: KState, step: Step): (KState, Reply) {
    match step
    case CreateSem(tpri, cntOrder, isemcnt, maxsem) => CreSem(s, tpri, cntOrder, isemcnt, maxsem)
    case WaitSem(id, cnt, tmo, c) => WaiSem(s, id, cnt, tmo, c)
    case SignalSem(id, cnt) => SigSem(s, id, cnt)
    case DeleteSem(id) => DelSem(s, id)
    case _ => (s, Er(E_OK))
  }

  function FlgExec(s: KState, step: Step): (KState, Reply) {
    match step
    case CreateFlg(tpri, wmul, p) => CreFlg(s, tpri, wmul, p)
    case WaitFlg(id, p, m, tmo, c) => WaiFlg(s, id, p, m, tmo, c)
    case SetFlag(id, p) => SetFlg(s, id, p)
    case ClearFlag(id, p) => ClrFlg(s, id, p)
    case _ => (s, Er(E_OK))
  }

  function MbxExec(s: KState, step: Step): (KState, Reply) {
    match step
    case CreateMbx(tpri, mpri) => CreMbx(s, tpri, mpri)
    case SendMsg(id, msg) => SndMbx(s, id, msg)
    case ReceiveMsg(id, tmo, c) => RcvMbx(s, id, tmo, c)
    case DeleteMbx(id) => DelMbx(s, id)
    case _ => (s, Er(E_OK))
  }

  ghost function Exec(s: KState, step: Step): (KState, Reply) {
    match PartOf(step)
    case TaskPart => TaskExec(s, step)
    case TimePart => TimeExec(s, step)
    case SemPart => SemExec(s, step)
    case FlgPart => FlgExec(s, step)
    case MbxPart => MbxExec(s, step)
  }

  lemma TaskStepKeepsInv(s: KState, step: Step)
    requires Inv(s) && Enabled(s, step)
    ensures Inv(TaskExec(s, step).0)
  {
    hide Inv, CreTsk, StaTsk, Yield, ExtTsk, ExdTsk, RelWai, WupTsk;
    match step
    case CreateTask(pri) => CreTskInv(s, pri);
    case StartTask(id) => StaTskInv(s, id);
    case YieldCpu => YieldInv(s);
    case ExitTask => ExtTskInv(s);
    case ExitAndDeleteTask => ExdTskInv(s);
    case ReleaseWait(id) => RelWaiInv(s, id);
    case WakeUp(id, inIsr) => WupTskInv(s, id, inIsr);
    case _ =>
  }

  lemma HandledKeepsInv(s: KState)
    requires Inv(s)
    ensures Inv(Handled(s))
  {
    TimerHandlerInv(s);
  }

  lemma TimeStepKeepsInv(s: KState, step: Step)
    requires Inv(s) && Enabled(s, step)
    ensures Inv(TimeExec(s, step).0)
  {
    hide Inv, TaskContext, DlyTsk, SlpTsk, Resume, Handled, Schedule, At;
    match step
    case Delay(ms, c) => DlyTskInv(s, ms, c);
    case Sleep(tmo, c) => SlpTskInv(s, tmo, c);
    case ResumeCall => ResumeInv(s);
    case TimerInterrupt => HandledKeepsInv(s);
    case SwitchTask => ScheduleInv(s);
    case ClockTick(d) => AtInv(s, s.now + d);
    case _ =>
  }

  lemma SemStepKeepsInv(s: KState, step: Step)
    requires Inv(s) && Enabled(s, step)
    ensures Inv(SemExec(s, step).0)
  {
    hide Inv, CreSem, WaiSem, SigSem, DelSem;
    match step
    case CreateSem(tpri, cntOrder, isemcnt, maxsem) => CreSemInv(s, tpri, cntOrder, isemcnt, maxsem);
    case WaitSem(id, cnt, tmo, c) => WaiSemInv(s, id, cnt, tmo, c);
    case SignalSem(id, cnt) => SigSemInv(s, id, cnt);
    case DeleteSem(id) => DelSemInv(s, id);
    case _ =>
  }

  lemma FlgStepKeepsInv(s: KState, step: Step)
    requires Inv(s) && Enabled(s, step)
    ensures Inv(FlgExec(s, step).0)
  {
    hide Inv, CreFlg, WaiFlg, SetFlg, ClrFlg;
    match step
    case CreateFlg(tpri, wmul, p) => CreFlgInv(s, tpri, wmul, p);
    case WaitFlg(id, p, m, tmo, c) => WaiFlgInv(s, id, p, m, tmo, c);
    case SetFlag(id, p) => SetFlgInv(s, id, p);
    case ClearFlag(id, p) => ClrFlgInv(s, id, p);
    case _ =>
  }

  lemma MbxStepKeepsInv(s: KState, step: Step)
    requires Inv(s) && Enabled(s, step)
    ensures Inv(MbxExec(s, step).0)
  {
    hide Inv, CreMbx, SndMbx, RcvMbx, DelMbx;
    match step
    case CreateMbx(tpri, mpri) => CreMbxInv(s, tpri, mpri);
    case SendMsg(id, msg) => SndMbxInv(s, id, msg);
    case ReceiveMsg(id, tmo, c) => RcvMbxInv(s, id, tmo, c);
    case DeleteMbx(id) => DelMbxInv(s, id);
    case _ =>
  }

  /** Every step keeps the invariant. */
  lemma StepKeepsInv(s: KState, step: Step)
    requires Inv(s) && Enabled(s, step)
    ensures Inv(Exec(s, step).0)
  {
    hide Inv, Enabled, TaskExec, TimeExec, SemExec, FlgExec, MbxExec;
    match PartOf(step)
    case TaskPart => TaskStepKeepsInv(s, step);
    case TimePart => TimeStepKeepsInv(s, step);
    case SemPart => SemStepKeepsInv(s, step);
    case FlgPart => FlgStepKeepsInv(s, step);
    case MbxPart => MbxStepKeepsInv(s, step);
  }

  /* ---- the launch ---- */

  function LaunchTcb(t: TaskId): Tcb {
    if t == INI then FRESH_TCB.(tskstat := RUN)
    else if t == IDLE then FRESH_TCB.(itskpri := CFN_MAX_PRI, tskstat := RDY)
    else FRESH_TCB
  }

  function LaunchLink(t: TaskId): Link<HQ> {
    if t == INI then On(ReadyQ(1)) else if t == IDLE then On(ReadyQ(CFN_MAX_PRI)) else On(FreeQ)
  }

  function FreeTasks(): seq<TaskId> {
    seq(CFN_MAX_TSKID - 2, i requires 0 <= i < CFN_MAX_TSKID - 2 => i + 2)
  }

  function LaunchRings(): Rings<HQ> {
    Rings(map[FreeQ := FreeTasks(), ReadyQ(1) := [INI], ReadyQ(CFN_MAX_PRI) := [IDLE]],
          seq(CFN_MAX_TSKID, t requires 0 <= t < CFN_MAX_TSKID => LaunchLink(t)))
  }

  function NoHistory(): Hist {
    Hist(0, seq(CFN_MAX_TSKID, _ => TaskHist(0, 0, 0, 0, 0, 0)), seq(CFN_MAX_SEMID, _ => SemHist(0, 0)),
         seq(CFN_MAX_MBXID, _ => MbxHist([], [])))
  }

  /** The state tkmc_start launches the initial task in: it runs, the idle task is ready, nothing else exists, and
      the first edge is a tick ahead. */
  function Launch(now: nat): KState {
    K(seq(CFN_MAX_TSKID, t requires 0 <= t < CFN_MAX_TSKID => LaunchTcb(t)),
      LaunchRings(),
      Rings(map[], seq(CFN_MAX_TSKID, _ => Detached)),
      seq(CFN_MAX_SEMID, _ => NO_SEM), seq(CFN_MAX_FLGID, _ => NO_FLG), seq(CFN_MAX_MBXID, _ => NO_MBX),
      seq(CFN_MAX_SEMID, q requires 0 <= q < CFN_MAX_SEMID => q),
      seq(CFN_MAX_FLGID, f requires 0 <= f < CFN_MAX_FLGID => f),
      seq(CFN_MAX_MBXID, m requires 0 <= m < CFN_MAX_MBXID => m),
      INI, None, false, now + TICK_COUNTS, now, NoHistory())
  }

  lemma LaunchHeads(now: nat)
    ensures Coherent(Launch(now).heads)
  {
    var h := Launch(now).heads;
    forall t: TaskId ensures h.at[t].On? ==> t in h.Get(h.at[t].q) {
      if t >= 2 { assert FreeTasks()[t - 2] == t; }
    }
    forall q ensures NoDup(h.Get(q)) { }
  }

  lemma LaunchInv(now: nat)
    ensures Inv(Launch(now))
  {
    var s := Launch(now);
    LaunchHeads(now);
    forall w ensures NoDup(s.waits.Get(w)) { }
    forall t: TaskId ensures TaskOk(s, t) && HistOk(s, t) && TimedOk(s, t) { }
    forall m: MbxId ensures MbxOk(s, m) { }
    forall q: SemId ensures q in s.freeSem { assert s.freeSem[q] == q; }
    forall f: FlgId ensures f in s.freeFlg { assert s.freeFlg[f] == f; }
    forall m: MbxId ensures m in s.freeMbx { assert s.freeMbx[m] == m; }
    assert s.heads.Get(ReadyQ(1)) == [INI];
  }

  /** Before tkmc_start creates a task: every control block is free. */
  function Cold(now: nat): KState {
    Launch(now).(tcb := seq(CFN_MAX_TSKID, _ => FRESH_TCB),
      heads := Rings(map[FreeQ := seq(CFN_MAX_TSKID, t requires 0 <= t < CFN_MAX_TSKID => t)], seq(CFN_MAX_TSKID, _ => On(FreeQ))))
  }

  /** The task t moves from the head of the free list to its own ready queue. */
  function Moved(h: Rings<HQ>, t: TaskId, rest: seq<TaskId>, p: Pri): Rings<HQ> {
    Rings(h.ring[FreeQ := rest][ReadyQ(p) := [t]], h.at[t := On(ReadyQ(p))])
  }

  lemma Moves(h: Rings<HQ>, t: TaskId, rest: seq<TaskId>, p: Pri)
    requires h.Get(FreeQ) == [t] + rest && t !in rest && h.at[t] == On(FreeQ) && h.Get(ReadyQ(p)) == []
    ensures h.Del(t).Init(t).Init(t).AddTail(t, ReadyQ(p)) == Moved(h, t, rest, p)
  {
    var free := h.Get(FreeQ);
    assert free[1..] == rest;
    WithoutAbsent(rest, t);
    var d := h.Del(t).Init(t);
    assert d.Init(t).AddTail(t, ReadyQ(p)).at == h.at[t := On(ReadyQ(p))];
    assert d.Get(ReadyQ(p)) + [t] == [t];
  }

  /** Creating and starting a task that was never used before. */
  lemma Boots(s: KState, t: TaskId, rest: seq<TaskId>, p: Pri)
    requires s.heads.Get(FreeQ) == [t] + rest && t !in rest && s.heads.at[t] == On(FreeQ) && s.heads.Get(ReadyQ(p)) == []
    requires s.waits.at[t].Detached? && s.hist.task[t].accepted == 0 == s.hist.task[t].used
    ensures CreTsk(s, p).1 == NewId((t as int) + 1)
    ensures Started(CreTsk(s, p).0, t) == s.(tcb := s.tcb[t := FRESH_TCB.(itskpri := p, tskstat := RDY)], heads := Moved(s.heads, t, rest, p))
  {
    Moves(s.heads, t, rest, p);
    var c := CreTsk(s, p).0;
    var r := Started(c, t);
    assert r.tcb == s.tcb[t := FRESH_TCB.(itskpri := p, tskstat := RDY)];
    assert r.waits.at == s.waits.at && r.hist.task == s.hist.task;
  }

  /** The launch state is what creating and starting the initial task and then the idle task make of it. */
  lemma LaunchIsBooted(now: nat)
    ensures var r := Started(CreTsk(Cold(now), 1).0, INI);
            var (s, id) := CreTsk(r, CFN_MAX_PRI);
            var d := Started(s, IDLE);
            id == NewId(2) && Highest(d) == Some(INI) && Launch(now) == d.(tcb := d.tcb[INI := d.tcb[INI].(tskstat := RUN)])
  {
    var c := Cold(now);
    ColdReady(now, c);
    hide CreTsk, Started, Launch, Cold, Moved;
    Boots(c, INI, [IDLE] + FreeTasks(), 1);
    var r := Started(CreTsk(c, 1).0, INI);
    var h := Moved(c.heads, INI, [IDLE] + FreeTasks(), 1);
    HalfReady(now, c, r, h);
    Boots(r, IDLE, FreeTasks(), CFN_MAX_PRI);
    LaunchIs(now, c, r, h, Started(CreTsk(r, CFN_MAX_PRI).0, IDLE));
  }

  lemma ColdReady(now: nat, c: KState)
    requires c == Cold(now)
    ensures c.heads.Get(FreeQ) == [INI] + ([IDLE] + FreeTasks()) && c.heads.at[INI] == On(FreeQ) && c.heads.Get(ReadyQ(1)) == []
    ensures c.waits.at[INI].Detached? && c.hist.task[INI].accepted == 0 == c.hist.task[INI].used
    ensures INI !in [IDLE] + FreeTasks()
  {
  }

  /** The state with the initial task started. */
  predicate Half(now: nat, c: KState, r: KState, h: Rings<HQ>) {
    && c == Cold(now) && h == Moved(c.heads, INI, [IDLE] + FreeTasks(), 1)
    && r == c.(tcb := c.tcb[INI := FRESH_TCB.(itskpri := 1, tskstat := RDY)], heads := h)
  }

  lemma HalfReady(now: nat, c: KState, r: KState, h: Rings<HQ>)
    requires Half(now, c, r, h)
    ensures r.heads.Get(FreeQ) == [IDLE] + FreeTasks() && r.heads.at[IDLE] == On(FreeQ) && r.heads.Get(ReadyQ(CFN_MAX_PRI)) == []
    ensures r.waits.at[IDLE].Detached? && r.hist.task[IDLE].accepted == 0 == r.hist.task[IDLE].used
    ensures IDLE !in FreeTasks()
  {
  }

  lemma LaunchIs(now: nat, c: KState, r: KState, h: Rings<HQ>, d: KState)
    requires Half(now, c, r, h)
    requires d == r.(tcb := r.tcb[IDLE := FRESH_TCB.(itskpri := CFN_MAX_PRI, tskstat := RDY)], heads := Moved(h, IDLE, FreeTasks(), CFN_MAX_PRI))
    ensures Highest(d) == Some(INI) && Launch(now) == d.(tcb := d.tcb[INI := d.tcb[INI].(tskstat := RUN)])
  {
    var l := Launch(now);
    assert d.heads.ring == l.heads.ring && d.heads.at == l.heads.at;
    assert d.heads.Get(ReadyQ(1)) == [INI];
    assert l.tcb == d.tcb[INI := d.tcb[INI].(tskstat := RUN)];
  }

  /* ---- runs ---- */

  /** The states of a run: it starts with the launch, and each next state is one enabled step on. */
  ghost predicate IsRun(states: seq<KState>, steps: seq<Step>) {
    && |states| == |steps| + 1
    && states[0] == Launch(states[0].now)
    && forall i :: 0 <= i < |steps| ==> Enabled(states[i], steps[i]) && states[i + 1] == Exec(states[i], steps[i]).0
  }

  /** Every state of every run satisfies the invariant. */
  lemma {:induction false} RunsKeepInv(states: seq<KState>, steps: seq<Step>, i: nat)
    requires IsRun(states, steps) && i < |states|
    ensures Inv(states[i])
  {
    if i == 0 {
      LaunchInv(states[0].now);
    } else {
      var j: nat := i - 1;
      RunsKeepInv(states, steps, j);
      StepKeepsInv(states[j], steps[j]);
    }
  }
}
