/** What each step may touch: which objects, which of their fields, the registers of the kernel, and the queued wake-ups of
    every task. */
module Footprints {
  import opened Types
  import opened KernelState
  import opened KernelOps
  import opened Frames
  import opened Timer
  import opened TimerRuns
  import opened TimerLate
  import opened CallResults
  import opened Runs

  /* ---- the end of waits ---- */

  /** What the end of waits leaves alone: everything but the tasks it is about, their queues, and units. */
  ghost predicate UnitsAtMost(s: KState, r: KState) {
    && r == s.(tcb := r.tcb, heads := r.heads, waits := r.waits, sem := r.sem, hist := s.hist.(sem := r.hist.sem))
    && (forall t: TaskId :: r.tcb[t].wupcnt == s.tcb[t].wupcnt && r.tcb[t].itskpri == s.tcb[t].itskpri)
    && (forall q: SemId :: r.sem[q] == s.sem[q].(semcnt := r.sem[q].semcnt) && r.hist.sem[q].given == s.hist.sem[q].given)
  }

  /** And it takes units of no other semaphore than q. */
  ghost predicate OnlyUnitsOf(s: KState, r: KState, q: SemId) {
    UnitsAtMost(s, r) && forall p: SemId :: p != q ==> r.sem[p] == s.sem[p] && r.hist.sem[p] == s.hist.sem[p]
  }

  lemma ReleaseUnits(s: KState, t: TaskId, cause: ER)
    ensures UnitsAtMost(s, Release(s, t, cause)) && Release(s, t, cause).sem == s.sem && Release(s, t, cause).hist == s.hist
  {
  }

  lemma {:induction false} ServeUnits(s: KState, q: SemId, rest: seq<TaskId>)
    ensures OnlyUnitsOf(s, ServeFrom(s, q, rest), q)
    decreases rest
  {
    if rest != [] {
      if s.sem[q].semcnt < Req(s, rest[0]) {
        if s.sem[q].cntOrder { ServeUnits(s, q, rest[1..]); }
      } else {
        var g := Grant(s, q, rest[0]);
        GrantUnits(s, q, rest[0]);
        hide Grant, Req;
        ServeUnits(g, q, rest[1..]);
        UnitsTransitive(s, g, ServeFrom(g, q, rest[1..]), q);
        hide OnlyUnitsOf;
      }
    } else {
      NoUnits(s, q);
    }
  }

  lemma NoUnits(s: KState, q: SemId)
    ensures OnlyUnitsOf(s, s, q)
  {
  }

  lemma UnitsTransitive(a: KState, b: KState, c: KState, q: SemId)
    requires OnlyUnitsOf(a, b, q) && OnlyUnitsOf(b, c, q)
    ensures OnlyUnitsOf(a, c, q)
  {
  }

  lemma GrantUnits(s: KState, q: SemId, t: TaskId)
    ensures OnlyUnitsOf(s, Grant(s, q, t), q)
  {
    hide Release;
    ReleaseUnits(s, t, E_OK);
  }

  lemma CompleteUnits(s: KState, t: TaskId, cause: ER)
    ensures UnitsAtMost(s, CompleteWait(s, t, cause))
    ensures cause in {E_OK, E_DLT} ==> CompleteWait(s, t, cause).sem == s.sem && CompleteWait(s, t, cause).hist == s.hist
  {
    ReleaseUnits(s, t, cause);
    hide Release, ServeFrom;
    match LeavesUnserved(s, t, cause)
    case None =>
    case Some(q) =>
      var r := Release(s, t, cause);
      ServeUnits(r, q, Waiters(r, SemQ(q)));
  }

  lemma {:induction false} ReleaseAllUnits(s: KState, rest: seq<TaskId>)
    ensures UnitsAtMost(s, ReleaseAll(s, rest)) && ReleaseAll(s, rest).sem == s.sem && ReleaseAll(s, rest).hist == s.hist
    decreases rest
  {
    if rest != [] {
      ReleaseUnits(s, rest[0], E_DLT);
      hide Release;
      ReleaseAllUnits(Release(s, rest[0], E_DLT), rest[1..]);
    }
  }

  lemma {:induction false} ExpireUnits(s: KState, p: nat)
    requires Core(s)
    ensures UnitsAtMost(s, Expire(s, p).0)
    decreases |Timed(s)|
  {
    hide Core, Expire, CompleteWait, UnitsAtMost, Elapse;
    if Timed(s) == [] {
      ExpireNothing(s, p);
      SameUnits(s);
    } else {
      var f := First(s);
      var d := s.tcb[f].delay;
      if d <= p {
        var c := CompleteWait(Elapse(s, d), f, E_TMOUT);
        var r: nat := p - d;
        ExpireReaches(s, f, d, c, p, r);
        ElapseUnits(s, d);
        CompleteUnits(Elapse(s, d), f, E_TMOUT);
        ExpireUnits(c, r);
        UnitsChain(s, Elapse(s, d), c);
        UnitsChain(s, c, Expire(c, r).0);
      } else {
        ElapseUnits(s, p);
        ExpireStops(s, p, Elapse(s, p));
      }
    }
  }

  lemma ElapseUnits(s: KState, d: nat)
    ensures UnitsAtMost(s, Elapse(s, d))
  {
  }

  lemma UnitsChain(a: KState, b: KState, c: KState)
    requires UnitsAtMost(a, b) && UnitsAtMost(b, c)
    ensures UnitsAtMost(a, c)
  {
  }

  lemma SameUnits(s: KState)
    ensures UnitsAtMost(s, s)
  {
  }

  /** What the walk of tk_set_flg leaves alone: everything but the tasks it is about, their queues, and the pattern. */
  ghost predicate PatternAtMost(s: KState, r: KState, f: FlgId) {
    && r == s.(tcb := r.tcb, heads := r.heads, waits := r.waits, flg := s.flg[f := s.flg[f].(flgptn := r.flg[f].flgptn)])
    && (forall t: TaskId :: r.tcb[t].wupcnt == s.tcb[t].wupcnt && r.tcb[t].itskpri == s.tcb[t].itskpri)
  }

  lemma DeliverPattern(s: KState, f: FlgId, t: TaskId)
    requires s.tcb[t].winfo.FlgInfo?
    ensures PatternAtMost(s, Deliver(s, f, t), f)
  {
  }

  lemma {:induction false} SetFromPattern(s: KState, f: FlgId, rest: seq<TaskId>)
    ensures PatternAtMost(s, SetFrom(s, f, rest), f)
    decreases rest
  {
    if rest == [] {
      assert s.flg[f := s.flg[f]] == s.flg;
    } else if Satisfied(s, s.flg[f].flgptn, rest[0]) {
      DeliverPattern(s, f, rest[0]);
      hide Deliver;
      SetFromPattern(Deliver(s, f, rest[0]), f, rest[1..]);
    } else {
      SetFromPattern(s, f, rest[1..]);
    }
  }

  /* ---- one step ---- */

  predicate OfSem(step: Step, q: SemId) {
    (step.SignalSem? || step.WaitSem? || step.DeleteSem?) && step.id == q + 1
  }

  predicate MakesSem(step: Step, y: Reply, q: SemId) {
    step.CreateSem? && y == NewId((q as int) + 1)
  }

  /** A semaphore gets its attributes when it is created and keeps them until it is deleted; its count changes only with
      a signal or a request to it, or where a forced release or a time-out makes way; units are put in by signals. */
  ghost predicate SemFootprint(s: KState, step: Step, r: KState, y: Reply) {
    forall q: SemId :: !MakesSem(step, y, q) ==>
      && (r.sem[q] == s.sem[q].(semcnt := r.sem[q].semcnt) || (step.DeleteSem? && OfSem(step, q)))
      && (OfSem(step, q) || step.ReleaseWait? || step == TimerInterrupt || (r.sem[q] == s.sem[q] && r.hist.sem[q] == s.hist.sem[q]))
      && (r.hist.sem[q].given == s.hist.sem[q].given || (step.SignalSem? && OfSem(step, q)))
  }

  predicate OfFlg(step: Step, f: FlgId) {
    (step.SetFlag? || step.ClearFlag? || step.WaitFlg?) && step.id == f + 1
  }

  /** A flag keeps its attributes once it is created, and its pattern changes only with a call on it. */
  ghost predicate FlgFootprint(s: KState, step: Step, r: KState, y: Reply) {
    forall f: FlgId :: !(step.CreateFlg? && y == NewId((f as int) + 1)) ==>
      && r.flg[f] == s.flg[f].(flgptn := r.flg[f].flgptn)
      && (OfFlg(step, f) || r.flg[f] == s.flg[f])
  }

  predicate OfMbx(step: Step, m: MbxId) {
    (step.SendMsg? || step.ReceiveMsg? || step.DeleteMbx?) && step.id == m + 1
  }

  /** A mailbox keeps its attributes from creation to deletion, and its messages change only with a call on it. */
  ghost predicate MbxFootprint(s: KState, step: Step, r: KState, y: Reply) {
    forall m: MbxId :: !(step.CreateMbx? && y == NewId((m as int) + 1)) ==>
      && (r.mbx[m] == s.mbx[m].(msgs := r.mbx[m].msgs) || (step.DeleteMbx? && OfMbx(step, m)))
      && (OfMbx(step, m) || (r.mbx[m] == s.mbx[m] && r.hist.mbx[m] == s.hist.mbx[m]))
  }

  /** The clock moves by itself, the compare value with the timer handler, and the current task with a switch, to the
      task that was chosen. */
  ghost predicate RegisterFootprint(s: KState, step: Step, r: KState) {
    && r.now == s.now + (if step.ClockTick? then step.counts else 0)
    && r.mtimecmp == s.mtimecmp + (if step == TimerInterrupt then Pending(s.mtimecmp, s.now) * TICK_COUNTS else 0)
    && r.current == if step == SwitchTask && s.next.Some? then s.next.value else s.current
  }

  /** Task t is created or started by the step, with no wake-ups queued. */
  predicate Resets(step: Step, y: Reply, t: TaskId) {
    || (step.CreateTask? && y == NewId((t as int) + 1))
    || (step.StartTask? && step.id == t + 1 && y == Er(E_OK))
  }

  /** A wake-up of task t that is accepted. */
  predicate Wakes(step: Step, y: Reply, t: TaskId) {
    step.WakeUp? && step.id == t + 1 && y == Er(E_OK)
  }

  /** A sleep of task t that ends at once, with a queued wake-up. */
  predicate UsesQueued(s: KState, step: Step, y: Reply, t: TaskId) {
    step.Sleep? && t == s.current && y == Er(E_OK)
  }

  function One(b: bool): int {
    if b then 1 else 0
  }

  /** The queued wake-ups of a task, and the record of those accepted and used: one that is accepted is queued unless it
      ends a sleep, a sleep takes one if there is one, and nothing else changes them but a creation or a start. No task
      changes its priority but where it is created. */
  ghost predicate TaskFootprint(s: KState, step: Step, r: KState, y: Reply) {
    forall t: TaskId ::
      if Resets(step, y, t) then r.tcb[t].wupcnt == 0 == r.hist.task[t].accepted && r.hist.task[t].used == 0
      else
        && r.tcb[t].itskpri == s.tcb[t].itskpri
        && r.tcb[t].wupcnt == s.tcb[t].wupcnt + One(Wakes(step, y, t) && !Asleep(s, t)) - One(UsesQueued(s, step, y, t))
        && r.hist.task[t].accepted == s.hist.task[t].accepted + One(Wakes(step, y, t))
        && r.hist.task[t].used == s.hist.task[t].used + One((Wakes(step, y, t) && Asleep(s, t)) || UsesQueued(s, step, y, t))
  }

  ghost predicate Footprint(s: KState, step: Step, r: KState, y: Reply) {
    SemFootprint(s, step, r, y) && FlgFootprint(s, step, r, y) && MbxFootprint(s, step, r, y)
    && RegisterFootprint(s, step, r) && TaskFootprint(s, step, r, y)
  }

  lemma SameSems(s: KState, step: Step, r: KState, y: Reply)
    requires r.sem == s.sem && r.hist.sem == s.hist.sem
    ensures SemFootprint(s, step, r, y)
  {
  }

  lemma SameFlgs(s: KState, step: Step, r: KState, y: Reply)
    requires r.flg == s.flg
    ensures FlgFootprint(s, step, r, y)
  {
  }

  lemma SameMbxs(s: KState, step: Step, r: KState, y: Reply)
    requires r.mbx == s.mbx && r.hist.mbx == s.hist.mbx
    ensures MbxFootprint(s, step, r, y)
  {
  }

  lemma SameRegisters(s: KState, step: Step, r: KState)
    requires r.now == s.now && r.mtimecmp == s.mtimecmp && r.current == s.current
    requires step != TimerInterrupt && !step.ClockTick? && step != SwitchTask
    ensures RegisterFootprint(s, step, r)
  {
  }

  /** A step that changes no object but, for a forced release, counts, and none of the registers. */
  lemma QuietObjects(s: KState, step: Step, r: KState, y: Reply)
    requires r.flg == s.flg && r.mbx == s.mbx && r.hist.mbx == s.hist.mbx
    requires r.now == s.now && r.mtimecmp == s.mtimecmp && r.current == s.current
    requires forall q: SemId :: r.sem[q] == s.sem[q].(semcnt := r.sem[q].semcnt) && r.hist.sem[q].given == s.hist.sem[q].given
    requires step.ReleaseWait? || (r.sem == s.sem && r.hist.sem == s.hist.sem)
    requires step != TimerInterrupt && !step.ClockTick? && step != SwitchTask
    ensures SemFootprint(s, step, r, y) && FlgFootprint(s, step, r, y) && MbxFootprint(s, step, r, y) && RegisterFootprint(s, step, r)
  {
  }

  /** A step with no say in wake-ups. */
  lemma QuietTasks(s: KState, step: Step, r: KState, y: Reply)
    requires forall t: TaskId :: r.tcb[t].wupcnt == s.tcb[t].wupcnt && r.tcb[t].itskpri == s.tcb[t].itskpri
    requires forall t: TaskId :: r.hist.task[t].accepted == s.hist.task[t].accepted && r.hist.task[t].used == s.hist.task[t].used
    requires forall t: TaskId :: !Resets(step, y, t) && !Wakes(step, y, t) && !UsesQueued(s, step, y, t)
    ensures TaskFootprint(s, step, r, y)
  {
  }

  lemma UnitsFootprint(s: KState, step: Step, c: KState, r: KState, y: Reply)
    requires UnitsAtMost(s, c) && r == c.(next := r.next, msip := r.msip) && (step.ReleaseWait? || (c.sem == s.sem && c.hist == s.hist))
    requires step != TimerInterrupt && !step.ClockTick? && step != SwitchTask
    requires forall t: TaskId :: !Resets(step, y, t) && !Wakes(step, y, t) && !UsesQueued(s, step, y, t)
    ensures Footprint(s, step, r, y)
  {
    hide SemFootprint, FlgFootprint, MbxFootprint, RegisterFootprint, TaskFootprint, Resets, Wakes, UsesQueued;
    QuietObjects(s, step, r, y);
    QuietTasks(s, step, r, y);
  }

  lemma SameFootprint(s: KState, step: Step, y: Reply)
    requires step != TimerInterrupt && !step.ClockTick? && step != SwitchTask
    requires forall t: TaskId :: !Resets(step, y, t) && !Wakes(step, y, t) && !UsesQueued(s, step, y, t)
    ensures Footprint(s, step, s, y)
  {
    hide SemFootprint, FlgFootprint, MbxFootprint, RegisterFootprint, TaskFootprint, Resets, Wakes, UsesQueued;
    QuietObjects(s, step, s, y);
    QuietTasks(s, step, s, y);
  }

  /** A step that is about one task, and touches no object or register. */
  lemma OneTaskFootprint(s: KState, step: Step, r: KState, y: Reply, t: TaskId)
    requires r == s.(tcb := s.tcb[t := r.tcb[t]], heads := r.heads, waits := r.waits, next := r.next, msip := r.msip,
                     hist := s.hist.(arrivals := r.hist.arrivals, task := s.hist.task[t := r.hist.task[t]]))
    requires step != TimerInterrupt && !step.ClockTick? && step != SwitchTask
    requires forall u: TaskId :: u != t ==> !Resets(step, y, u) && !Wakes(step, y, u) && !UsesQueued(s, step, y, u)
    requires if Resets(step, y, t) then r.tcb[t].wupcnt == 0 == r.hist.task[t].accepted && r.hist.task[t].used == 0
             else
               && r.tcb[t].itskpri == s.tcb[t].itskpri
               && r.tcb[t].wupcnt == s.tcb[t].wupcnt + One(Wakes(step, y, t) && !Asleep(s, t)) - One(UsesQueued(s, step, y, t))
               && r.hist.task[t].accepted == s.hist.task[t].accepted + One(Wakes(step, y, t))
               && r.hist.task[t].used == s.hist.task[t].used + One((Wakes(step, y, t) && Asleep(s, t)) || UsesQueued(s, step, y, t))
    ensures Footprint(s, step, r, y)
  {
    QuietObjects(s, step, r, y);
    hide SemFootprint, FlgFootprint, MbxFootprint, RegisterFootprint, Resets, Wakes, UsesQueued, Asleep;
  }

  lemma CreationFootprint(s: KState, pri: int)
    ensures Footprint(s, CreateTask(pri), CreTsk(s, pri).0, CreTsk(s, pri).1)
  {
    hide Footprint;
    var (r, y) := CreTsk(s, pri);
    if y.NewId? { OneTaskFootprint(s, CreateTask(pri), r, y, s.heads.Get(FreeQ)[0]); } else { SameFootprint(s, CreateTask(pri), y); }
  }

  lemma StartFootprint(s: KState, id: int)
    ensures Footprint(s, StartTask(id), StaTsk(s, id).0, StaTsk(s, id).1)
  {
    hide HighestFrom, Footprint;
    var (r, y) := StaTsk(s, id);
    if y == Er(E_OK) { OneTaskFootprint(s, StartTask(id), r, y, id - 1); } else { SameFootprint(s, StartTask(id), y); }
  }

  lemma OwnFootprint(s: KState, step: Step)
    requires step == YieldCpu || step == ExitTask || step == ExitAndDeleteTask
    ensures Footprint(s, step, TaskExec(s, step).0, TaskExec(s, step).1)
  {
    hide HighestFrom, Footprint;
    var (r, y) := TaskExec(s, step);
    assert s.tcb[s.current := s.tcb[s.current]] == s.tcb && s.hist.task[s.current := s.hist.task[s.current]] == s.hist.task;
    OneTaskFootprint(s, step, r, y, s.current);
  }

  lemma ForcedFootprint(s: KState, id: int)
    ensures Footprint(s, ReleaseWait(id), RelWai(s, id).0, RelWai(s, id).1)
  {
    hide CompleteWait, Footprint, HighestFrom, UnitsAtMost;
    var (r, y) := RelWai(s, id);
    if y == Er(E_OK) {
      CompleteUnits(s, id - 1, E_RLWAI);
      UnitsFootprint(s, ReleaseWait(id), CompleteWait(s, id - 1, E_RLWAI), r, y);
    } else {
      SameFootprint(s, ReleaseWait(id), y);
    }
  }

  lemma SleeperFootprint(s: KState, id: int, inIsr: bool)
    requires InRange(id, CFN_MAX_TSKID) && Asleep(s, id - 1)
    ensures Footprint(s, WakeUp(id, inIsr), Resched(Woken(s, id - 1)), Er(E_OK))
  {
    hide Resched;
    ReleaseOthers(s, id - 1);
    ReschedKeeps(Woken(s, id - 1));
    OneTaskFootprint(s, WakeUp(id, inIsr), Resched(Woken(s, id - 1)), Er(E_OK), id - 1);
  }

  lemma ReschedKeeps(s: KState)
    ensures Resched(s) == s.(next := Resched(s).next, msip := Resched(s).msip)
  {
  }

  lemma ReleaseOthers(s: KState, t: TaskId)
    requires s.tcb[t].tskwait == SLP
    ensures var c := CompleteWait(s, t, E_OK);
            c == s.(tcb := s.tcb[t := c.tcb[t]], heads := c.heads, waits := c.waits) && c.tcb[t].wupcnt == s.tcb[t].wupcnt
            && c.tcb[t].itskpri == s.tcb[t].itskpri
  {
  }

  lemma WakeUpFootprint(s: KState, id: int, inIsr: bool)
    ensures Footprint(s, WakeUp(id, inIsr), WupTsk(s, id, inIsr).0, WupTsk(s, id, inIsr).1)
  {
    hide Woken, Resched, Footprint;
    var (r, y) := WupTsk(s, id, inIsr);
    if y == Er(E_OK) {
      if Asleep(s, id - 1) {
        SleeperFootprint(s, id, inIsr);
      } else {
        OneTaskFootprint(s, WakeUp(id, inIsr), r, y, id - 1);
      }
    } else {
      SameFootprint(s, WakeUp(id, inIsr), y);
    }
  }

  lemma TaskPartFootprint(s: KState, step: Step)
    requires PartOf(step) == TaskPart
    ensures Footprint(s, step, TaskExec(s, step).0, TaskExec(s, step).1)
  {
    hide Footprint, CreTsk, StaTsk, Yield, ExtTsk, ExdTsk, RelWai, WupTsk;
    match step
    case CreateTask(pri) => CreationFootprint(s, pri);
    case StartTask(id) => StartFootprint(s, id);
    case ReleaseWait(id) => ForcedFootprint(s, id);
    case WakeUp(id, inIsr) => WakeUpFootprint(s, id, inIsr);
    case _ => OwnFootprint(s, step);
  }

  /** The caller blocks, on a queue or on none. */
  lemma BlockFootprint(s: KState, j: KState, kind: Kind, tmo: int, step: Step)
    requires j == s.(tcb := s.tcb[s.current := s.tcb[s.current].(winfo := j.tcb[s.current].winfo)], waits := j.waits,
                     hist := s.hist.(arrivals := j.hist.arrivals, task := j.hist.task))
    requires j.hist.task == s.hist.task[s.current := j.hist.task[s.current]]
    requires j.hist.task[s.current] == s.hist.task[s.current].(ticket := j.hist.task[s.current].ticket)
    requires step.Delay? || step.Sleep? || step.WaitSem? || step.WaitFlg? || step.ReceiveMsg?
    ensures Footprint(s, step, Block(j, kind, tmo), Blocks)
  {
    hide Footprint;
    BlockOnly(j, kind, tmo, Block(j, kind, tmo));
    hide Block;
    OneTaskFootprint(s, step, Block(j, kind, tmo), Blocks, s.current);
  }

  lemma BlockOnly(j: KState, kind: Kind, tmo: int, b: KState)
    requires b == Block(j, kind, tmo)
    ensures var c, h := b.tcb[j.current], b.hist.task[j.current];
            && b == j.(tcb := j.tcb[j.current := c], heads := b.heads, next := b.next, msip := true, hist := j.hist.(task := j.hist.task[j.current := h]))
            && c.wupcnt == j.tcb[j.current].wupcnt && c.itskpri == j.tcb[j.current].itskpri
            && h.accepted == j.hist.task[j.current].accepted && h.used == j.hist.task[j.current].used
  {
    hide HighestFrom;
    assert j.hist.task[j.current := j.hist.task[j.current]] == j.hist.task;
  }

  lemma AloneFootprint(s: KState, kind: Kind, tmo: int, step: Step)
    requires step.Delay? || step.Sleep?
    ensures Footprint(s, step, Block(s, kind, tmo), Blocks)
  {
    hide Footprint, Block;
    assert s.tcb[s.current := s.tcb[s.current]] == s.tcb && s.hist.task[s.current := s.hist.task[s.current]] == s.hist.task;
    BlockFootprint(s, s, kind, tmo, step);
  }

  lemma JoinFootprint(s: KState, w: WQ, info: WInfo, kind: Kind, tmo: int, step: Step)
    requires step.WaitSem? || step.WaitFlg? || step.ReceiveMsg?
    ensures Footprint(s, step, Block(Join(s, s.current, w, info), kind, tmo), Blocks)
  {
    hide Footprint, Block, JoinPos;
    BlockFootprint(s, Join(s, s.current, w, info), kind, tmo, step);
  }

  lemma DelayFootprint(s: KState, ms: nat, canBlock: bool)
    ensures Footprint(s, Delay(ms, canBlock), DlyTsk(s, ms, canBlock).0, DlyTsk(s, ms, canBlock).1)
  {
    hide Footprint, Block, HighestFrom;
    if canBlock && ms > 0 {
      AloneFootprint(s, DLY, ms, Delay(ms, canBlock));
    } else if canBlock {
      assert s.tcb[s.current := s.tcb[s.current]] == s.tcb && s.hist.task[s.current := s.hist.task[s.current]] == s.hist.task;
      OneTaskFootprint(s, Delay(ms, canBlock), Yield(s), Er(E_OK), s.current);
    } else {
      SameFootprint(s, Delay(ms, canBlock), Er(E_CTX));
    }
  }

  lemma SleepFootprint(s: KState, tmo: int, canBlock: bool)
    ensures Footprint(s, Sleep(tmo, canBlock), SlpTsk(s, tmo, canBlock).0, SlpTsk(s, tmo, canBlock).1)
  {
    hide Footprint, Block;
    var (r, y) := SlpTsk(s, tmo, canBlock);
    if y == Blocks {
      AloneFootprint(s, SLP, tmo, Sleep(tmo, canBlock));
    } else if y == Er(E_OK) {
      OneTaskFootprint(s, Sleep(tmo, canBlock), r, y, s.current);
    } else {
      SameFootprint(s, Sleep(tmo, canBlock), y);
    }
  }

  lemma ResumeFootprint(s: KState)
    requires s.tcb[s.current].pc.InWait?
    ensures Footprint(s, ResumeCall, Resume(s).0, Resume(s).1)
  {
    hide Footprint;
    assert s.hist.task[s.current := s.hist.task[s.current]] == s.hist.task;
    OneTaskFootprint(s, ResumeCall, Resume(s).0, Resume(s).1, s.current);
  }

  /** The handler, the switch and the clock. */
  lemma TimerFootprint(s: KState)
    requires Inv(s)
    ensures Footprint(s, TimerInterrupt, Handled(s), Er(E_OK))
  {
    hide Inv, Core, Expire, LinksOk, AllSettled;
    InvGives(s);
    var p := Pending(s.mtimecmp, s.now);
    var a := Advanced(s);
    AdvancedSettled(s);
    ExpireUnits(a, p);
    HandlerShape(s, a, p, Handled(s));
    HandlerFootprint(s, p, Handled(s));
  }

  lemma HandlerShape(s: KState, a: KState, p: nat, h: KState)
    requires Core(s) && Core(a) && a == Advanced(s) && p == Pending(s.mtimecmp, s.now) && h == TimerHandler(s)
    requires UnitsAtMost(a, Expire(a, p).0)
    ensures UnitsAtMost(a, h.(next := s.next, msip := s.msip))
  {
    hide Core, Expire, HighestFrom;
    if p == 0 { SameUnits(a); }
  }

  lemma HandlerFootprint(s: KState, p: nat, h: KState)
    requires p == Pending(s.mtimecmp, s.now) && UnitsAtMost(Advanced(s), h.(next := s.next, msip := s.msip))
    ensures Footprint(s, TimerInterrupt, h, Er(E_OK))
  {
    hide Pending;
  }

  lemma SwitchFootprint(s: KState)
    ensures Footprint(s, SwitchTask, Schedule(s), Er(E_OK))
  {
  }

  lemma ClockFootprint(s: KState, d: nat)
    ensures Footprint(s, ClockTick(d), At(s, s.now + d), Er(E_OK))
  {
  }

  lemma TimePartFootprint(s: KState, step: Step)
    requires Inv(s) && PartOf(step) == TimePart && (step == ResumeCall ==> s.tcb[s.current].pc.InWait?)
    ensures Footprint(s, step, TimeExec(s, step).0, TimeExec(s, step).1)
  {
    hide Inv, Footprint, DlyTsk, SlpTsk, Resume, Handled, Schedule, At;
    match step
    case Delay(ms, c) => DelayFootprint(s, ms, c);
    case Sleep(tmo, c) => SleepFootprint(s, tmo, c);
    case ResumeCall => ResumeFootprint(s);
    case TimerInterrupt => TimerFootprint(s);
    case SwitchTask => SwitchFootprint(s);
    case ClockTick(d) => ClockFootprint(s, d);
  }

  /* ---- semaphores, flags and mailboxes ---- */

  lemma OneObjectTasks(s: KState, step: Step, r: KState, y: Reply)
    requires r.hist.task == s.hist.task && PartOf(step) !in {TaskPart, TimePart}
    requires forall t: TaskId :: r.tcb[t].wupcnt == s.tcb[t].wupcnt && r.tcb[t].itskpri == s.tcb[t].itskpri
    ensures TaskFootprint(s, step, r, y)
  {
    QuietTasks(s, step, r, y);
  }

  /** A step about semaphore q only. */
  lemma OneSemFootprint(s: KState, step: Step, r: KState, y: Reply, q: SemId)
    requires forall p: SemId :: p != q ==> r.sem[p] == s.sem[p] && r.hist.sem[p] == s.hist.sem[p]
    requires r.flg == s.flg && r.mbx == s.mbx && r.hist.mbx == s.hist.mbx
    requires r.now == s.now && r.mtimecmp == s.mtimecmp && r.current == s.current && r.hist.task == s.hist.task
    requires forall t: TaskId :: r.tcb[t].wupcnt == s.tcb[t].wupcnt && r.tcb[t].itskpri == s.tcb[t].itskpri
    requires MakesSem(step, y, q) || OfSem(step, q)
    requires !MakesSem(step, y, q) && !step.DeleteSem? ==> r.sem[q] == s.sem[q].(semcnt := r.sem[q].semcnt)
    requires !MakesSem(step, y, q) && !step.SignalSem? ==> r.hist.sem[q].given == s.hist.sem[q].given
    ensures Footprint(s, step, r, y)
  {
    hide TaskFootprint, RegisterFootprint, FlgFootprint, MbxFootprint, Resets, Wakes, UsesQueued;
    OneObjectTasks(s, step, r, y);
    SameRegisters(s, step, r);
    SameFlgs(s, step, r, y);
    SameMbxs(s, step, r, y);
  }

  lemma CreSemFootprint(s: KState, tpri: bool, cntOrder: bool, n: int, max: int)
    ensures var (r, y) := CreSem(s, tpri, cntOrder, n, max); Footprint(s, CreateSem(tpri, cntOrder, n, max), r, y)
  {
    hide Footprint;
    var (r, y) := CreSem(s, tpri, cntOrder, n, max);
    if y.NewId? {
      OneSemFootprint(s, CreateSem(tpri, cntOrder, n, max), r, y, s.freeSem[0]);
    } else {
      SameFootprint(s, CreateSem(tpri, cntOrder, n, max), y);
    }
  }

  lemma WaiSemFootprint(s: KState, id: int, cnt: int, tmo: int, canBlock: bool)
    ensures var (r, y) := WaiSem(s, id, cnt, tmo, canBlock); Footprint(s, WaitSem(id, cnt, tmo, canBlock), r, y)
  {
    hide Footprint, Join, Block, MayTake;
    var (r, y) := WaiSem(s, id, cnt, tmo, canBlock);
    if y == Blocks {
      JoinFootprint(s, SemQ(id - 1), SemInfo(cnt, id - 1), SEM, tmo, WaitSem(id, cnt, tmo, canBlock));
    } else if y == Er(E_OK) {
      OneSemFootprint(s, WaitSem(id, cnt, tmo, canBlock), r, y, id - 1);
    } else {
      SameFootprint(s, WaitSem(id, cnt, tmo, canBlock), y);
    }
  }

  lemma SigSemFootprint(s: KState, id: int, cnt: int)
    ensures Footprint(s, SignalSem(id, cnt), SigSem(s, id, cnt).0, SigSem(s, id, cnt).1)
  {
    hide Footprint, ServeFrom, HighestFrom;
    var (r, y) := SigSem(s, id, cnt);
    if y == Er(E_OK) {
      var a := AddUnits(s, id - 1, cnt);
      ServeUnits(a, id - 1, Waiters(a, SemQ(id - 1)));
      OneSemFootprint(s, SignalSem(id, cnt), r, y, id - 1);
    } else {
      SameFootprint(s, SignalSem(id, cnt), y);
    }
  }

  lemma DelSemFootprint(s: KState, id: int)
    ensures Footprint(s, DeleteSem(id), DelSem(s, id).0, DelSem(s, id).1)
  {
    hide Footprint, ReleaseAll, HighestFrom;
    var (r, y) := DelSem(s, id);
    if y == Er(E_OK) {
      ReleaseAllUnits(s, Waiters(s, SemQ(id - 1)));
      OneSemFootprint(s, DeleteSem(id), r, y, id - 1);
    } else {
      SameFootprint(s, DeleteSem(id), y);
    }
  }

  lemma SemPartFootprint(s: KState, step: Step)
    requires PartOf(step) == SemPart
    ensures Footprint(s, step, SemExec(s, step).0, SemExec(s, step).1)
  {
    hide Footprint, CreSem, WaiSem, SigSem, DelSem;
    match step
    case CreateSem(tpri, cntOrder, n, max) => CreSemFootprint(s, tpri, cntOrder, n, max);
    case WaitSem(id, cnt, tmo, c) => WaiSemFootprint(s, id, cnt, tmo, c);
    case SignalSem(id, cnt) => SigSemFootprint(s, id, cnt);
    case DeleteSem(id) => DelSemFootprint(s, id);
  }

  /** A step about flag f only. */
  lemma OneFlgFootprint(s: KState, step: Step, r: KState, y: Reply, f: FlgId)
    requires r.sem == s.sem && r.mbx == s.mbx && r.hist.sem == s.hist.sem && r.hist.mbx == s.hist.mbx
    requires forall e: FlgId :: e != f ==> r.flg[e] == s.flg[e]
    requires r.now == s.now && r.mtimecmp == s.mtimecmp && r.current == s.current && r.hist.task == s.hist.task
    requires forall t: TaskId :: r.tcb[t].wupcnt == s.tcb[t].wupcnt && r.tcb[t].itskpri == s.tcb[t].itskpri
    requires if step.CreateFlg? then y == NewId((f as int) + 1) else OfFlg(step, f) && r.flg[f] == s.flg[f].(flgptn := r.flg[f].flgptn)
    ensures Footprint(s, step, r, y)
  {
    hide TaskFootprint, RegisterFootprint, SemFootprint, MbxFootprint, Resets, Wakes, UsesQueued;
    OneObjectTasks(s, step, r, y);
    SameRegisters(s, step, r);
    SameSems(s, step, r, y);
    SameMbxs(s, step, r, y);
  }

  lemma CreFlgFootprint(s: KState, tpri: bool, wmul: bool, p: Ptn)
    ensures Footprint(s, CreateFlg(tpri, wmul, p), CreFlg(s, tpri, wmul, p).0, CreFlg(s, tpri, wmul, p).1)
  {
    hide Footprint;
    var (r, y) := CreFlg(s, tpri, wmul, p);
    if y.NewId? {
      OneFlgFootprint(s, CreateFlg(tpri, wmul, p), r, y, s.freeFlg[0]);
    } else {
      SameFootprint(s, CreateFlg(tpri, wmul, p), y);
    }
  }

  lemma WaiFlgFootprint(s: KState, id: int, waiptn: Ptn, wfmode: Mode, tmo: int, canBlock: bool)
    ensures var (r, y) := WaiFlg(s, id, waiptn, wfmode, tmo, canBlock); Footprint(s, WaitFlg(id, waiptn, wfmode, tmo, canBlock), r, y)
  {
    hide Footprint, Join, Block, Match, Consume;
    var (r, y) := WaiFlg(s, id, waiptn, wfmode, tmo, canBlock);
    if y == Blocks {
      JoinFootprint(s, FlgQ(id - 1), FlgInfo(waiptn, wfmode, {}), FLG, tmo, WaitFlg(id, waiptn, wfmode, tmo, canBlock));
    } else if y.Pattern? {
      OneFlgFootprint(s, WaitFlg(id, waiptn, wfmode, tmo, canBlock), r, y, id - 1);
    } else {
      SameFootprint(s, WaitFlg(id, waiptn, wfmode, tmo, canBlock), y);
    }
  }

  lemma SetFlgFootprint(s: KState, id: int, p: Ptn)
    ensures Footprint(s, SetFlag(id, p), SetFlg(s, id, p).0, SetFlg(s, id, p).1)
  {
    hide Footprint, SetFrom, HighestFrom;
    var (r, y) := SetFlg(s, id, p);
    if y == Er(E_OK) {
      var f: FlgId := id - 1;
      SetFromPattern(s.(flg := s.flg[f := s.flg[f].(flgptn := s.flg[f].flgptn + p)]), f, Waiters(s, FlgQ(f)));
      OneFlgFootprint(s, SetFlag(id, p), r, y, f);
    } else {
      SameFootprint(s, SetFlag(id, p), y);
    }
  }

  lemma ClrFlgFootprint(s: KState, id: int, p: Ptn)
    ensures Footprint(s, ClearFlag(id, p), ClrFlg(s, id, p).0, ClrFlg(s, id, p).1)
  {
    hide Footprint;
    var (r, y) := ClrFlg(s, id, p);
    if y == Er(E_OK) { OneFlgFootprint(s, ClearFlag(id, p), r, y, id - 1); } else { SameFootprint(s, ClearFlag(id, p), y); }
  }

  lemma FlgPartFootprint(s: KState, step: Step)
    requires PartOf(step) == FlgPart
    ensures Footprint(s, step, FlgExec(s, step).0, FlgExec(s, step).1)
  {
    hide Footprint, CreFlg, WaiFlg, SetFlg, ClrFlg;
    match step
    case CreateFlg(tpri, wmul, p) => CreFlgFootprint(s, tpri, wmul, p);
    case WaitFlg(id, p, m, tmo, c) => WaiFlgFootprint(s, id, p, m, tmo, c);
    case SetFlag(id, p) => SetFlgFootprint(s, id, p);
    case ClearFlag(id, p) => ClrFlgFootprint(s, id, p);
  }

  /** A step about mailbox m only. */
  lemma OneMbxFootprint(s: KState, step: Step, r: KState, y: Reply, m: MbxId)
    requires r.sem == s.sem && r.flg == s.flg && r.hist.sem == s.hist.sem
    requires forall n: MbxId :: n != m ==> r.mbx[n] == s.mbx[n] && r.hist.mbx[n] == s.hist.mbx[n]
    requires r.now == s.now && r.mtimecmp == s.mtimecmp && r.current == s.current && r.hist.task == s.hist.task
    requires forall t: TaskId :: r.tcb[t].wupcnt == s.tcb[t].wupcnt && r.tcb[t].itskpri == s.tcb[t].itskpri
    requires if step.CreateMbx? then y == NewId((m as int) + 1)
             else OfMbx(step, m) && (step.DeleteMbx? || r.mbx[m] == s.mbx[m].(msgs := r.mbx[m].msgs))
    ensures Footprint(s, step, r, y)
  {
    hide TaskFootprint, RegisterFootprint, SemFootprint, FlgFootprint, Resets, Wakes, UsesQueued;
    OneObjectTasks(s, step, r, y);
    SameRegisters(s, step, r);
    SameSems(s, step, r, y);
    SameFlgs(s, step, r, y);
  }

  lemma CreMbxFootprint(s: KState, tpri: bool, mpri: bool)
    ensures Footprint(s, CreateMbx(tpri, mpri), CreMbx(s, tpri, mpri).0, CreMbx(s, tpri, mpri).1)
  {
    hide Footprint;
    var (r, y) := CreMbx(s, tpri, mpri);
    if y.NewId? { OneMbxFootprint(s, CreateMbx(tpri, mpri), r, y, s.freeMbx[0]); } else { SameFootprint(s, CreateMbx(tpri, mpri), y); }
  }

  /** What popping and making ready leave alone. */
  lemma {:induction false} PopUnits(s: KState, rest: seq<TaskId>)
    ensures PopFrom(s, rest).0 == s.(waits := PopFrom(s, rest).0.waits)
    decreases rest
  {
    if rest != [] {
      var p := s.(waits := s.waits.Del(rest[0]).Init(rest[0]));
      if !(s.tcb[rest[0]].tskstat == WAI && s.tcb[rest[0]].tskwait == MBX) { PopUnits(p, rest[1..]); }
    }
  }

  lemma ReadyUnits(s: KState, t: TaskId, cause: ER, msg: Option<Msg>)
    requires cause in {E_OK, E_DLT}
    ensures UnitsAtMost(s, MakeReady(s, t, cause, msg)) && MakeReady(s, t, cause, msg).sem == s.sem && MakeReady(s, t, cause, msg).hist == s.hist
  {
    hide CompleteWait;
    CompleteUnits(s.(tcb := s.tcb[t := s.tcb[t].(winfo := MbxInfo(msg))]), t, cause);
  }

  lemma SndMbxFootprint(s: KState, id: int, msg: Msg)
    ensures Footprint(s, SendMsg(id, msg), SndMbx(s, id, msg).0, SndMbx(s, id, msg).1)
  {
    hide Footprint, PopFrom, MakeReady, MsgPos, HighestFrom;
    var (r, y) := SndMbx(s, id, msg);
    if y == Er(E_OK) {
      var m: MbxId := id - 1;
      var (p, t) := PopFrom(s, Waiters(s, MbxQ(m)));
      PopUnits(s, Waiters(s, MbxQ(m)));
      if t.Some? { ReadyUnits(p, t.value, E_OK, Some(msg)); }
      OneMbxFootprint(s, SendMsg(id, msg), r, y, m);
    } else {
      SameFootprint(s, SendMsg(id, msg), y);
    }
  }

  lemma RcvMbxFootprint(s: KState, id: int, tmo: int, canBlock: bool)
    ensures var (r, y) := RcvMbx(s, id, tmo, canBlock); Footprint(s, ReceiveMsg(id, tmo, canBlock), r, y)
  {
    hide Footprint, Join, Block;
    var (r, y) := RcvMbx(s, id, tmo, canBlock);
    if y == Blocks {
      JoinFootprint(s, MbxQ(id - 1), MbxInfo(None), MBX, tmo, ReceiveMsg(id, tmo, canBlock));
    } else if y.Received? {
      OneMbxFootprint(s, ReceiveMsg(id, tmo, canBlock), r, y, id - 1);
    } else {
      SameFootprint(s, ReceiveMsg(id, tmo, canBlock), y);
    }
  }

  lemma {:induction false} DropUnits(s: KState, rest: seq<TaskId>)
    ensures UnitsAtMost(s, DropFrom(s, rest)) && DropFrom(s, rest).sem == s.sem && DropFrom(s, rest).hist == s.hist
    decreases rest
  {
    if rest != [] {
      var t := rest[0];
      var p := s.(waits := s.waits.Del(t).Init(t));
      ReadyUnits(p, t, E_DLT, None);
      hide MakeReady;
      if s.tcb[t].tskstat == WAI && s.tcb[t].tskwait == MBX {
        DropUnits(MakeReady(p, t, E_DLT, None), rest[1..]);
      } else {
        DropUnits(p, rest[1..]);
      }
    }
  }

  lemma DelMbxFootprint(s: KState, id: int)
    ensures Footprint(s, DeleteMbx(id), DelMbx(s, id).0, DelMbx(s, id).1)
  {
    hide Footprint, DropFrom, HighestFrom;
    var (r, y) := DelMbx(s, id);
    if y == Er(E_OK) {
      DropUnits(s, Waiters(s, MbxQ(id - 1)));
      OneMbxFootprint(s, DeleteMbx(id), r, y, id - 1);
    } else {
      SameFootprint(s, DeleteMbx(id), y);
    }
  }

  lemma MbxPartFootprint(s: KState, step: Step)
    requires PartOf(step) == MbxPart
    ensures Footprint(s, step, MbxExec(s, step).0, MbxExec(s, step).1)
  {
    hide Footprint, CreMbx, SndMbx, RcvMbx, DelMbx;
    match step
    case CreateMbx(tpri, mpri) => CreMbxFootprint(s, tpri, mpri);
    case SendMsg(id, msg) => SndMbxFootprint(s, id, msg);
    case ReceiveMsg(id, tmo, c) => RcvMbxFootprint(s, id, tmo, c);
    case DeleteMbx(id) => DelMbxFootprint(s, id);
  }

  /** Every step, in every state and with any arguments, touches of the objects, the registers and the queued wake-ups
      only what it is about. */
  lemma StepFootprint(s: KState, step: Step)
    requires Inv(s) && Enabled(s, step)
    ensures Footprint(s, step, Exec(s, step).0, Exec(s, step).1)
  {
    hide Inv, Footprint, TaskExec, TimeExec, SemExec, FlgExec, MbxExec;
    match PartOf(step)
    case TaskPart => TaskPartFootprint(s, step);
    case TimePart => TimePartFootprint(s, step);
    case SemPart => SemPartFootprint(s, step);
    case FlgPart => FlgPartFootprint(s, step);
    case MbxPart => MbxPartFootprint(s, step);
  }
}
