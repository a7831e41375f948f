/** A run in which a deadline is reached and the wait still ends with E_OK. */
module LateRun {
  import opened Types
  import opened Rings
  import opened KernelState
  import opened KernelOps
  import opened Frames
  import opened WaitEnd
  import opened WaitStart
  import opened TimerLate
  import opened TimerOrder
  import opened TaskCalls
  import opened Forecast
  import opened Runs
  import opened CallResults
  import opened WaitEndings
  import opened LateGrants

  const FIRST: TaskId := 2
  const SECOND: TaskId := 3

  const SEM_OF_TWO: Semcb := Semcb(true, false, false, 1, 2)

  /** The initial task creates a TA_FIRST semaphore with one unit and two tasks of its own priority, and yields; the
      first asks for two units within 5 ms, the second for one unit within 15 ms; then three edges pass. */
  function LateSteps(): seq<Step> {
    [CreateSem(false, false, 1, 2), CreateTask(1), StartTask(3), CreateTask(1), StartTask(4), YieldCpu, SwitchTask,
     WaitSem(1, 2, 5, true), SwitchTask, WaitSem(1, 1, 15, true), SwitchTask, ClockTick(300000)]
  }

  /** The state a run of these steps ends in. */
  ghost predicate ReachedBy(s: KState, steps: seq<Step>) {
    exists states :: IsRun(states, steps) && states[|steps|] == s
  }

  lemma OneMore(s: KState, steps: seq<Step>, step: Step)
    requires ReachedBy(s, steps) && Enabled(s, step)
    ensures ReachedBy(Exec(s, step).0, steps + [step]) && Inv(Exec(s, step).0)
  {
    hide Inv, Exec, Enabled, Launch;
    var states :| IsRun(states, steps) && states[|steps|] == s;
    RunsKeepInv(states, steps, |steps|);
    StepKeepsInv(s, step);
    assert IsRun(states + [Exec(s, step).0], steps + [step]);
  }

  /** What of a state the story is about: the tasks up to the second, the queues of priority 1, the timer and the
      semaphore, and who runs. */
  datatype Scene = Scene(tasks: seq<Tcb>, ready: seq<TaskId>, timer: seq<TaskId>, queue: seq<TaskId>,
                         current: TaskId, next: Option<TaskId>, msip: bool)

  ghost predicate Shows(s: KState, z: Scene) {
    && |z.tasks| == 4 && (forall t: TaskId :: t < 4 ==> s.tcb[t] == z.tasks[t])
    && ReadyAt(s, 1) == z.ready && Timed(s) == z.timer && Waiters(s, SemQ(0)) == z.queue
    && s.current == z.current && s.next == z.next && s.msip == z.msip
    && s.sem[0] == SEM_OF_TWO && s.mtimecmp == 100000 && s.now == 0
  }

  lemma FirstChoice(s: KState)
    ensures ReadyAt(s, 1) != [] ==> Highest(s) == Some(ReadyAt(s, 1)[0])
  {
  }

  function Fresh(stat: Stat): Tcb {
    FRESH_TCB.(tskstat := stat)
  }

  function Waiter(cnt: int, delay: nat): Tcb {
    Tcb(1, WAI, SEM, delay, E_OK, 0, SemInfo(cnt, 0), InWait(SEM))
  }

  function Start(): Scene {
    Scene([Fresh(RUN), Fresh(RDY).(itskpri := CFN_MAX_PRI), Fresh(NOEXS), Fresh(NOEXS)], [INI], [], [], INI, None, false)
  }

  lemma Starts()
    ensures Shows(CreSem(Launch(0), false, false, 1, 2).0, Start())
    ensures CreSem(Launch(0), false, false, 1, 2).0.heads.Get(FreeQ) == FreeTasks()
  {
    var l := Launch(0);
    assert l.freeSem[0] == 0;
  }

  /** A task is created from the head of the free list. */
  lemma Creates(s: KState, z: Scene, t: TaskId)
    requires Inv(s) && Shows(s, z) && s.heads.Get(FreeQ) != [] && t == s.heads.Get(FreeQ)[0] && t < 4
    ensures Shows(CreTsk(s, 1).0, z.(tasks := z.tasks[t := Fresh(DMT)]))
    ensures CreTsk(s, 1).0.heads.Get(FreeQ) == s.heads.Get(FreeQ)[1..]
  {
    hide Inv, Core, LinksOk, AllSettled;
    InvGives(s);
    CoreGives(s);
    var free := s.heads.Get(FreeQ);
    assert t in free && NoDup(free);
    assert TaskOk(s, t);
    hide TaskOk, HistOk, Coherent, ObjectsOk, FreeOk;
    DetachCoherent(s.heads, t);
    WithoutHead(free, t, true);
    assert s.heads.at[t] == On(FreeQ);
  }

  /** A task is started; the current one, at the head of its queue, stays the choice. */
  lemma StartsTask(s: KState, z: Scene, t: TaskId)
    requires Inv(s) && Shows(s, z) && t < 4 && z.tasks[t] == Fresh(DMT) && z.ready != [] && z.ready[0] == z.current && !z.msip
    ensures Shows(StaTsk(s, t + 1).0, z.(tasks := z.tasks[t := Fresh(RDY)], ready := z.ready + [t], next := Some(z.current)))
    ensures StaTsk(s, t + 1).0.heads.Get(FreeQ) == s.heads.Get(FreeQ)
  {
    hide Inv, Core, LinksOk, AllSettled;
    InvGives(s);
    CoreGives(s);
    assert TaskOk(s, t);
    hide TaskOk, HistOk, Coherent, ObjectsOk, FreeOk, Highest;
    StartHeads(s.heads, t, 1);
    FirstChoice(Started(s, t));
  }

  /** The current task yields to its peers. */
  lemma Yields(s: KState, z: Scene)
    requires Inv(s) && Shows(s, z) && z.current < 4 && z.tasks[z.current] == Fresh(RUN) && |z.ready| > 1 && z.ready[0] == z.current
    ensures Enabled(s, YieldCpu)
    ensures Shows(Yield(s), z.(ready := z.ready[1..] + [z.current], next := Some(z.ready[1]), msip := true))
  {
    hide Inv, Core, LinksOk, AllSettled;
    InvGives(s);
    CoreGives(s);
    HeadLeaves(s, z);
    assert s.heads.at[s.current] == On(ReadyQ(1)) by { assert TaskOk(s, s.current); }
    hide TaskOk, HistOk, Coherent, ObjectsOk, FreeOk, Highest;
    RotatedQueues(s, 1);
    FirstChoice(Rotated(s));
  }

  lemma HeadLeaves(s: KState, z: Scene)
    requires Coherent(s.heads) && ReadyAt(s, 1) == z.ready && z.ready != [] && z.ready[0] == z.current
    ensures Without(z.ready, z.current) == z.ready[1..] && z.current !in z.ready[1..]
  {
    assert NoDup(s.heads.Get(ReadyQ(1)));
    WithoutHead(z.ready, z.current, true);
  }

  /** The record of a task that stops running, if it still ran. */
  function Stopped(c: Tcb): Tcb {
    if c.tskstat == RUN then c.(tskstat := RDY) else c
  }

  lemma Switches(s: KState, z: Scene, n: TaskId)
    requires Shows(s, z) && z.msip && z.next == Some(n) && n < 4 && z.current < 4 && n != z.current
    ensures Enabled(s, SwitchTask)
    ensures Shows(Schedule(s), z.(tasks := z.tasks[z.current := Stopped(z.tasks[z.current])][n := z.tasks[n].(tskstat := RUN)],
                                  current := n, msip := false))
  {
  }

  /** The current task asks for units it cannot have, with a limit. */
  lemma Waits(s: KState, z: Scene, cnt: int, ms: nat, n: TaskId)
    requires Inv(s) && Shows(s, z) && z.current < 4 && z.tasks[z.current] == Fresh(RUN) && z.current != IDLE
    requires |z.ready| > 1 && z.ready[0] == z.current && n == z.ready[1]
    requires 0 < cnt <= 2 && ms > 0 && (cnt > 1 || z.queue != [])
    ensures Enabled(s, WaitSem(1, cnt, ms, true))
    ensures Shows(WaiSem(s, 1, cnt, ms, true).0,
                  z.(tasks := z.tasks[z.current := Waiter(cnt, MsToTicks(ms))], ready := z.ready[1..], timer := z.timer + [z.current],
                     queue := z.queue + [z.current], next := Some(n), msip := true))
  {
    hide Inv, Core, LinksOk, AllSettled;
    InvGives(s);
    CoreGives(s);
    HeadLeaves(s, z);
    var j := Join(s, s.current, SemQ(0), SemInfo(cnt, 0));
    assert s.heads.at[s.current] == On(ReadyQ(1)) && s.waits.at[s.current].Detached? by { assert TaskOk(s, s.current); }
    hide TaskOk, HistOk, Coherent, ObjectsOk, FreeOk, Highest, HighestFrom, Block, WaiSem, MsToTicks;
    assert WaiSem(s, 1, cnt, ms, true).0 == Block(j, SEM, ms) by { MustWait(s, cnt, ms); }
    BlockQueues(s, j, cnt, ms);
    FirstChoice(Block(j, SEM, ms));
    BlockShows(s, j, cnt, ms);
    BlockChooses(j, ms);
  }

  /** A request beyond the count, or behind others, does not take its units. */
  lemma MustWait(s: KState, cnt: int, ms: nat)
    requires s.sem[0] == SEM_OF_TWO && 0 < cnt <= 2 && ms > 0 && (cnt > 1 || Waiters(s, SemQ(0)) != [])
    ensures WaiSem(s, 1, cnt, ms, true).0 == Block(Join(s, s.current, SemQ(0), SemInfo(cnt, 0)), SEM, ms)
  {
    hide Block, Join;
  }

  /** The caller joins the tail of the queue and of the timer queue, and leaves its ready queue. */
  lemma BlockQueues(s: KState, j: KState, cnt: int, ms: nat)
    requires j == Join(s, s.current, SemQ(0), SemInfo(cnt, 0)) && ms > 0 && s.sem[0] == SEM_OF_TWO && Coherent(s.heads) && Coherent(s.waits)
    requires s.heads.at[s.current] == On(ReadyQ(1)) && s.tcb[s.current].itskpri == 1 && s.waits.at[s.current].Detached?
    ensures var b := Block(j, SEM, ms);
            && ReadyAt(b, 1) == Without(ReadyAt(s, 1), s.current) && Timed(b) == Timed(s) + [s.current]
            && Waiters(j, SemQ(0)) == Waiters(s, SemQ(0)) + [s.current]
  {
    hide Coherent, Block;
    JoinWaits(s, s.current, SemQ(0), SemInfo(cnt, 0));
    BlockHeads(j, SEM, ms);
  }

  lemma BlockShows(s: KState, j: KState, cnt: int, ms: nat)
    requires j == Join(s, s.current, SemQ(0), SemInfo(cnt, 0)) && s.tcb[s.current] == Fresh(RUN) && ms > 0
    requires s.mtimecmp == 100000 && s.now == 0
    ensures var b := Block(j, SEM, ms);
            && b.tcb == s.tcb[s.current := Waiter(cnt, MsToTicks(ms))] && b.sem == s.sem && b.waits == j.waits
            && b.mtimecmp == s.mtimecmp && b.now == s.now && b.current == s.current
  {
    hide HighestFrom;
    assert Pending(100000, 0) == 0;
  }

  lemma BlockChooses(j: KState, ms: nat)
    requires ms > 0
    ensures Block(j, SEM, ms).msip && Block(j, SEM, ms).next == Highest(Block(j, SEM, ms))
  {
    hide HighestFrom;
  }

  /* ---- the run ---- */

  ghost predicate Stage(s: KState, steps: seq<Step>, z: Scene) {
    ReachedBy(s, steps) && Inv(s) && Shows(s, z)
  }

  lemma TaskExecIs(s: KState, id: int)
    ensures Exec(s, CreateTask(1)).0 == CreTsk(s, 1).0 && Exec(s, StartTask(id)).0 == StaTsk(s, id).0 && Exec(s, YieldCpu).0 == Yield(s)
  {
    hide TimeExec, SemExec, FlgExec, MbxExec, CreTsk, StaTsk, Yield;
  }

  lemma SemExecIs(s: KState, cnt: int, ms: int)
    ensures Exec(s, CreateSem(false, false, 1, 2)).0 == CreSem(s, false, false, 1, 2).0
    ensures Exec(s, WaitSem(1, cnt, ms, true)).0 == WaiSem(s, 1, cnt, ms, true).0
  {
    hide TaskExec, TimeExec, FlgExec, MbxExec, CreSem, WaiSem;
  }

  lemma TimeExecIs(s: KState, d: nat)
    ensures Exec(s, SwitchTask).0 == Schedule(s) && Exec(s, ClockTick(d)).0 == At(s, s.now + d)
  {
    hide TaskExec, SemExec, FlgExec, MbxExec, Schedule, At;
  }

  lemma LaunchReached()
    ensures ReachedBy(Launch(0), []) && Inv(Launch(0))
  {
    hide Inv, Launch;
    assert Launch(0).now == 0 by { LaunchTime(); }
    assert IsRun([Launch(0)], []);
    RunsKeepInv([Launch(0)], [], 0);
  }

  lemma LaunchTime()
    ensures Launch(0).now == 0
  {
  }

  /** A task is created and started. */
  lemma Joins(s: KState, steps: seq<Step>, z: Scene, t: TaskId) returns (r: KState)
    requires Stage(s, steps, z) && s.heads.Get(FreeQ) != [] && t == s.heads.Get(FreeQ)[0] && 2 <= t < 4
    requires z.ready != [] && z.ready[0] == z.current && !z.msip
    ensures Stage(r, steps + [CreateTask(1), StartTask(t + 1)],
                  z.(tasks := z.tasks[t := Fresh(RDY)], ready := z.ready + [t], next := Some(z.current)))
    ensures r.heads.Get(FreeQ) == s.heads.Get(FreeQ)[1..]
  {
    hide Inv, Shows, ReachedBy, Exec, CreTsk, StaTsk;
    SceneSize(s, z);
    var c := CreTsk(s, 1).0;
    TaskExecIs(s, 0);
    TaskExecIs(c, t + 1);
    Creates(s, z, t);
    OneMore(s, steps, CreateTask(1));
    StartsTask(c, z.(tasks := z.tasks[t := Fresh(DMT)]), t);
    OneMore(c, steps + [CreateTask(1)], StartTask(t + 1));
    assert steps + [CreateTask(1)] + [StartTask(t + 1)] == steps + [CreateTask(1), StartTask(t + 1)];
    assert z.tasks[t := Fresh(DMT)][t := Fresh(RDY)] == z.tasks[t := Fresh(RDY)];
    r := StaTsk(c, t + 1).0;
  }

  lemma SceneSize(s: KState, z: Scene)
    requires Shows(s, z)
    ensures |z.tasks| == 4
  {
  }

  /** The steps one after the other. */
  lemma Script()
    ensures var l := LateSteps();
            && |l| == 12 && l[..0] == [] && l[..1] == [] + [CreateSem(false, false, 1, 2)]
            && l[..3] == l[..1] + [CreateTask(1), StartTask(3)] && l[..5] == l[..3] + [CreateTask(1), StartTask(4)]
            && l[..6] == l[..5] + [YieldCpu] && l[..7] == l[..6] + [SwitchTask] && l[..8] == l[..7] + [WaitSem(1, 2, 5, true)]
            && l[..9] == l[..8] + [SwitchTask] && l[..10] == l[..9] + [WaitSem(1, 1, 15, true)]
            && l[..11] == l[..10] + [SwitchTask] && l == l[..11] + [ClockTick(300000)]
  {
  }

  lemma FreeFirst()
    ensures |FreeTasks()| > 1 && FreeTasks()[0] == FIRST && FreeTasks()[1] == SECOND && FreeTasks()[1..] != [] && FreeTasks()[1..][0] == SECOND
  {
  }

  lemma HasSemaphore() returns (s: KState)
    ensures Stage(s, LateSteps()[..1], Start()) && s.heads.Get(FreeQ) == FreeTasks()
  {
    hide Inv, Shows, ReachedBy, Exec, CreSem, Launch, LateSteps;
    Script();
    LaunchReached();
    Starts();
    SemExecIs(Launch(0), 0, 0);
    OneMore(Launch(0), [], CreateSem(false, false, 1, 2));
    s := CreSem(Launch(0), false, false, 1, 2).0;
  }

  /** The records of the first four tasks: of the initial task, the idle task, the first and the second. */
  function Cast(ini: Stat, first: Tcb, second: Tcb): seq<Tcb> {
    [Fresh(ini), Fresh(RDY).(itskpri := CFN_MAX_PRI), first, second]
  }

  /** The semaphore and the two tasks are there. */
  lemma Opening() returns (s: KState)
    ensures Stage(s, LateSteps()[..5], Scene(Cast(RUN, Fresh(RDY), Fresh(RDY)), [INI, FIRST, SECOND], [], [], INI, Some(INI), false))
  {
    hide Inv, Shows, ReachedBy, Exec, Launch, LateSteps, FreeTasks, Stage;
    Script();
    FreeFirst();
    var c := HasSemaphore();
    var d := Joins(c, LateSteps()[..1], Start(), FIRST);
    var z := Scene(Cast(RUN, Fresh(RDY), Fresh(NOEXS)), [INI, FIRST], [], [], INI, Some(INI), false);
    assert Start().(tasks := Start().tasks[FIRST := Fresh(RDY)], ready := Start().ready + [FIRST], next := Some(INI)) == z;
    s := Joins(d, LateSteps()[..3], z, SECOND);
    assert Cast(RUN, Fresh(RDY), Fresh(NOEXS))[SECOND := Fresh(RDY)] == Cast(RUN, Fresh(RDY), Fresh(RDY));
    assert [INI, FIRST] + [SECOND] == [INI, FIRST, SECOND];
  }

  /** The current task is switched for n. */
  lemma Turns(s: KState, steps: seq<Step>, z: Scene, n: TaskId) returns (r: KState)
    requires Stage(s, steps, z) && z.msip && z.next == Some(n) && n < 4 && z.current < 4 && n != z.current && |z.tasks| == 4
    ensures Stage(r, steps + [SwitchTask],
                  z.(tasks := z.tasks[z.current := Stopped(z.tasks[z.current])][n := z.tasks[n].(tskstat := RUN)],
                     current := n, msip := false))
  {
    hide Inv, Shows, ReachedBy, Exec, Schedule;
    TimeExecIs(s, 0);
    Switches(s, z, n);
    OneMore(s, steps, SwitchTask);
    r := Schedule(s);
  }

  /** The current task blocks, and n is the choice. */
  lemma Asks(s: KState, steps: seq<Step>, z: Scene, cnt: int, ms: nat, n: TaskId) returns (r: KState)
    requires Stage(s, steps, z) && z.current < 4 && |z.tasks| == 4 && z.tasks[z.current] == Fresh(RUN) && z.current != IDLE
    requires |z.ready| > 1 && z.ready[0] == z.current && n == z.ready[1]
    requires 0 < cnt <= 2 && ms > 0 && (cnt > 1 || z.queue != [])
    ensures Stage(r, steps + [WaitSem(1, cnt, ms, true)],
                  z.(tasks := z.tasks[z.current := Waiter(cnt, MsToTicks(ms))], ready := z.ready[1..], timer := z.timer + [z.current],
                     queue := z.queue + [z.current], next := Some(n), msip := true))
  {
    hide Inv, Shows, ReachedBy, Exec, WaiSem, MsToTicks;
    SemExecIs(s, cnt, ms);
    Waits(s, z, cnt, ms, n);
    OneMore(s, steps, WaitSem(1, cnt, ms, true));
    r := WaiSem(s, 1, cnt, ms, true).0;
  }

  /** Both wait, and the initial task runs again. */
  lemma BothWait() returns (s: KState)
    ensures Stage(s, LateSteps()[..11], Scene(Cast(RUN, Waiter(2, 2), Waiter(1, 3)), [INI], [FIRST, SECOND], [FIRST, SECOND], INI, Some(INI), false))
  {
    hide Inv, Shows, ReachedBy, Exec, LateSteps, Stage;
    Script();
    var a := FirstWaits();
    var b := Turns(a, LateSteps()[..8], Scene(Cast(RDY, Waiter(2, 2), Fresh(RDY)), [SECOND, INI], [FIRST], [FIRST], FIRST, Some(SECOND), true), SECOND);
    var z := Scene(Cast(RDY, Waiter(2, 2), Fresh(RUN)), [SECOND, INI], [FIRST], [FIRST], SECOND, Some(SECOND), false);
    assert Cast(RDY, Waiter(2, 2), Fresh(RDY))[FIRST := Waiter(2, 2)][SECOND := Fresh(RUN)] == z.tasks;
    var c := Asks(b, LateSteps()[..9], z, 1, 15, INI);
    var y := Scene(Cast(RDY, Waiter(2, 2), Waiter(1, 3)), [INI], [FIRST, SECOND], [FIRST, SECOND], SECOND, Some(INI), true);
    assert [SECOND, INI][1..] == [INI] && [FIRST] + [SECOND] == [FIRST, SECOND] && z.tasks[SECOND := Waiter(1, 3)] == y.tasks;
    s := Turns(c, LateSteps()[..10], y, INI);
    assert y.tasks[SECOND := Waiter(1, 3)][INI := Fresh(RUN)] == Cast(RUN, Waiter(2, 2), Waiter(1, 3));
  }

  lemma FirstWaits() returns (s: KState)
    ensures Stage(s, LateSteps()[..8], Scene(Cast(RDY, Waiter(2, 2), Fresh(RDY)), [SECOND, INI], [FIRST], [FIRST], FIRST, Some(SECOND), true))
  {
    hide Inv, Shows, ReachedBy, Exec, LateSteps, Stage;
    Script();
    var a := GivesWay();
    var b := Turns(a, LateSteps()[..6], Scene(Cast(RUN, Fresh(RDY), Fresh(RDY)), [FIRST, SECOND, INI], [], [], INI, Some(FIRST), true), FIRST);
    var z := Scene(Cast(RDY, Fresh(RUN), Fresh(RDY)), [FIRST, SECOND, INI], [], [], FIRST, Some(FIRST), false);
    assert Cast(RUN, Fresh(RDY), Fresh(RDY))[INI := Fresh(RDY)][FIRST := Fresh(RUN)] == z.tasks;
    s := Asks(b, LateSteps()[..7], z, 2, 5, SECOND);
    assert [FIRST, SECOND, INI][1..] == [SECOND, INI] && [] + [FIRST] == [FIRST];
    assert z.tasks[FIRST := Waiter(2, 2)] == Cast(RDY, Waiter(2, 2), Fresh(RDY));
  }

  /** The initial task yields. */
  lemma GivesWay() returns (s: KState)
    ensures Stage(s, LateSteps()[..6], Scene(Cast(RUN, Fresh(RDY), Fresh(RDY)), [FIRST, SECOND, INI], [], [], INI, Some(FIRST), true))
  {
    hide Inv, Shows, ReachedBy, Exec, LateSteps, Yield;
    Script();
    var o := Opening();
    var z := Scene(Cast(RUN, Fresh(RDY), Fresh(RDY)), [INI, FIRST, SECOND], [], [], INI, Some(INI), false);
    TaskExecIs(o, 0);
    Yields(o, z);
    OneMore(o, LateSteps()[..5], YieldCpu);
    assert [INI, FIRST, SECOND][1..] + [INI] == [FIRST, SECOND, INI];
    s := Yield(o);
  }

  lemma EdgesPass(w: KState, s: KState)
    requires ReachedBy(w, LateSteps()[..11]) && Inv(w) && w.now == 0 && s == At(w, 300000)
    ensures ReachedBy(s, LateSteps()) && Inv(s)
  {
    hide Inv, ReachedBy, Exec, LateSteps, At;
    Script();
    TimeExecIs(w, 300000);
    OneMore(w, LateSteps()[..11], ClockTick(300000));
  }

  /** Three edges pass. */
  lemma LateEnd() returns (s: KState)
    ensures ReachedBy(s, LateSteps()) && Inv(s) && s.tcb[FIRST] == Waiter(2, 2) && s.tcb[SECOND] == Waiter(1, 3)
    ensures Timed(s) == [FIRST, SECOND] && Waiters(s, SemQ(0)) == [FIRST, SECOND] && s.sem[0] == SEM_OF_TWO
    ensures s.mtimecmp == 100000 && s.now == 300000
  {
    hide Inv, ReachedBy, Exec, LateSteps;
    var w := BothWait();
    s := At(w, 300000);
    EdgesPass(w, s);
  }

  /** The forecast for the two: the first times out, and its unit goes to the second. */
  lemma SecondServed(s: KState)
    requires s.tcb[FIRST] == Waiter(2, 2) && s.tcb[SECOND] == Waiter(1, 3) && s.sem[0] == SEM_OF_TWO
    requires Timed(s) == [FIRST, SECOND] && Waiters(s, SemQ(0)) == [FIRST, SECOND]
    ensures SECOND in Lucky(s, 0, 3) && Due(s, SECOND, 3)
  {
    var q: seq<TaskId> := [FIRST, SECOND];
    assert q[1..] == [SECOND];
    assert Sooner(s, FIRST, SECOND);
    assert Behind(s, Open, FIRST, 3) == After(FIRST);
    assert SECOND in Freed(s, [SECOND], After(FIRST), 1, 3);
  }

  /** A deadline can be reached and the wait end with E_OK all the same: a run of these steps, and the timer interrupt
      after it. */
  lemma ReachedButServed() returns (s: KState)
    ensures ReachedBy(s, LateSteps()) && Waiting(s, SECOND) && Reached(s, SECOND)
    ensures EndsWith(Exec(s, TimerInterrupt).0, SECOND, E_OK)
  {
    hide Inv, ReachedBy, LateSteps, Handled, Lucky;
    s := LateEnd();
    assert Pending(100000, 300000) == 3;
    SecondServed(s);
    DueIsReached(s, SECOND, SECOND);
    TimesOutExactly(s, SECOND);
    assert Exec(s, TimerInterrupt).0 == Handled(s);
  }
}
