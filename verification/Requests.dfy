/** What a wait call leaves when it blocks: the task waits for what the call asked for, behind those that come first, and
    its limit is the time the call gave. Over a run that bounds the wait by the argument of the call. */
module Requests {
  import opened Types
  import opened Rings
  import opened KernelState
  import opened KernelOps
  import opened Frames
  import opened WaitStart
  import opened TimerRuns
  import opened SemCalls
  import opened Runs
  import opened WaitEndings
  import opened StepEffects
  import opened Guarantees

  /** The limit a wait call gives, in ms; TMO_FEVR for none. */
  function LimitOf(step: Step): int {
    match step
    case Delay(ms, _) => ms
    case Sleep(tmo, _) => tmo
    case WaitSem(_, _, tmo, _) => tmo
    case WaitFlg(_, _, _, tmo, _) => tmo
    case ReceiveMsg(_, tmo, _) => tmo
    case _ => TMO_POL
  }

  predicate IsWait(step: Step) {
    step.Delay? || step.Sleep? || step.WaitSem? || step.WaitFlg? || step.ReceiveMsg?
  }

  function KindOf(step: Step): Kind {
    match step
    case Delay(_, _) => DLY
    case Sleep(_, _) => SLP
    case WaitSem(_, _, _, _) => SEM
    case WaitFlg(_, _, _, _, _) => FLG
    case ReceiveMsg(_, _, _) => MBX
    case _ => NoWait
  }

  /** w is the queue of the object the call waits at. */
  predicate QueueOf(step: Step, w: WQ) {
    match step
    case WaitSem(id, _, _, _) => w.SemQ? && w.sem == id - 1
    case WaitFlg(id, _, _, _, _) => w.FlgQ? && w.flg == id - 1
    case ReceiveMsg(id, _, _) => w.MbxQ? && w.mbx == id - 1
    case _ => false
  }

  /** The wait data are those of the call. */
  predicate InfoOf(step: Step, i: WInfo) {
    match step
    case WaitSem(id, cnt, _, _) => i.SemInfo? && i.cnt == cnt && i.semcb == id - 1
    case WaitFlg(_, waiptn, wfmode, _, _) => i.FlgInfo? && i.waiptn == waiptn && i.wfmode == wfmode
    case ReceiveMsg(_, _, _) => i == MbxInfo(None)
    case _ => true
  }

  /** n is q with t put behind all it does not come before: those of its own and higher priorities, or everybody. */
  ghost predicate Placed(s: KState, tpri: bool, q: seq<TaskId>, n: seq<TaskId>, t: TaskId) {
    exists i: nat :: i <= |q| && n == q[..i] + [t] + q[i..]
      && (if tpri then (forall u :: u in q[..i] ==> s.tcb[u].itskpri <= s.tcb[t].itskpri)
                       && (forall u :: u in q[i..] ==> s.tcb[t].itskpri < s.tcb[u].itskpri)
          else i == |q|)
  }

  /** The limit of task t is ms from now: at least, and at most up to the tick after that time is rounded up to ticks. */
  predicate Limited(s: KState, r: KState, t: TaskId, ms: nat) {
    && OnTimer(r, t) && r.hist.task[t].since == s.now && r.hist.task[t].ms == ms && r.hist.task[t].deadline == Deadline(r, t)
    && s.now + ms * (TICK_COUNTS / TICK_MS) < Deadline(r, t) <= s.now + (CeilTicks(ms) + 1) * TICK_COUNTS
  }

  /** What is left of the caller by a wait call that blocks. */
  ghost predicate CallerWaits(s: KState, step: Step, r: KState) {
    var t := s.current;
    && Waiting(r, t) && r.tcb[t].tskwait == KindOf(step) && InfoOf(step, r.tcb[t].winfo) && r.tcb[t].pc == InWait(KindOf(step))
    && (if LimitOf(step) > 0 then Limited(s, r, t, LimitOf(step)) && Timed(r) == Timed(s) + [t]
        else LimitOf(step) == TMO_FEVR && !OnTimer(r, t) && Timed(r) == Timed(s))
    && (forall w :: if QueueOf(step, w) then Placed(s, PriorityOrdered(s, w), Waiters(s, w), Waiters(r, w), t)
                    else Waiters(r, w) == Waiters(s, w))
    && (forall p: Pri :: ReadyAt(r, p) == Without(ReadyAt(s, p), t))
  }

  /** And of the rest: everything is as it was, and a switch to the next task is asked for. */
  ghost predicate OthersStay(s: KState, r: KState) {
    && (forall u: TaskId :: u != s.current ==> r.tcb[u] == s.tcb[u] && r.heads.at[u] == s.heads.at[u] && r.waits.at[u] == s.waits.at[u]
                                               && r.hist.task[u] == s.hist.task[u])
    && r.sem == s.sem && r.flg == s.flg && r.mbx == s.mbx && r.freeSem == s.freeSem && r.freeFlg == s.freeFlg && r.freeMbx == s.freeMbx
    && r.current == s.current && r.now == s.now && r.mtimecmp == s.mtimecmp && r.msip && r.next == Highest(r)
  }

  /* ---- blocking in general ---- */

  /** j is s with the caller on its wait queue, or s itself. */
  ghost predicate Prepared(s: KState, j: KState) {
    && j == s.(tcb := s.tcb[s.current := j.tcb[s.current]], waits := j.waits, hist := j.hist)
    && j.tcb[s.current] == s.tcb[s.current].(winfo := j.tcb[s.current].winfo)
    && forall u: TaskId :: u != s.current ==> j.waits.at[u] == s.waits.at[u] && j.hist.task[u] == s.hist.task[u]
  }

  lemma BlockLimits(s: KState, kind: Kind, ms: nat, b: KState)
    requires b == Block(s, kind, ms) && ms > 0 && s.mtimecmp <= s.now + TICK_COUNTS
    ensures Limited(s, b, s.current, ms)
  {
    hide Block, Pending;
    BlockIs(s, kind, ms, b, s.current);
    DeadlineWindow(s.mtimecmp, s.now, ms);
  }

  lemma BlockOthersStay(s: KState, j: KState, kind: Kind, tmo: int, b: KState)
    requires Prepared(s, j) && b == Block(j, kind, tmo)
    ensures OthersStay(s, b)
  {
    BlockRest(j, kind, tmo, b);
    hide Block;
    forall u: TaskId | u != s.current
      ensures b.tcb[u] == s.tcb[u] && b.heads.at[u] == s.heads.at[u] && b.waits.at[u] == s.waits.at[u] && b.hist.task[u] == s.hist.task[u]
    {
      BlockIs(j, kind, tmo, b, u);
    }
  }

  lemma BlockRest(j: KState, kind: Kind, tmo: int, b: KState)
    requires b == Block(j, kind, tmo)
    ensures b == j.(tcb := b.tcb, heads := b.heads, next := b.next, msip := true, hist := b.hist) && b.next == Highest(b)
  {
    hide HighestFrom;
    assert Highest(b) == HighestFrom(b.heads, 1);
  }

  /** The caller itself and the queues of its links. */
  lemma BlockWaits(s: KState, j: KState, kind: Kind, tmo: int, b: KState)
    requires Inv(s) && MayBlock(s) && Prepared(s, j) && b == Block(j, kind, tmo)
    ensures var t := s.current;
            && Waiting(b, t) && b.tcb[t].tskwait == kind && b.tcb[t].winfo == j.tcb[t].winfo && b.tcb[t].pc == InWait(kind)
            && b.waits == j.waits && (OnTimer(b, t) <==> tmo > 0) && Timed(b) == Timed(s) + (if tmo > 0 then [t] else [])
            && forall p: Pri :: ReadyAt(b, p) == Without(ReadyAt(s, p), t)
  {
    hide Inv, Core, LinksOk, Block;
    InvGives(s);
    CoreGives(s);
    assert s.heads.at[s.current] == On(ReadyQ(s.tcb[s.current].itskpri)) by { RunnerReady(s); }
    hide TaskOk, HistOk, ObjectsOk, FreeOk, Coherent;
    BlockHeads(j, kind, tmo);
    BlockIs(j, kind, tmo, b, s.current);
    assert forall p: Pri :: ReadyAt(b, p) == Without(ReadyAt(j, p), s.current);
  }

  lemma JoinPlaced(s: KState, w: WQ, info: WInfo)
    requires Coherent(s.waits) && s.waits.at[s.current].Detached? && QueueOk(s, w)
    ensures var j := Join(s, s.current, w, info);
            Placed(s, PriorityOrdered(s, w), Waiters(s, w), Waiters(j, w), s.current) && forall v :: v != w ==> Waiters(j, v) == Waiters(s, v)
  {
    hide Coherent, Join;
    JoinWaits(s, s.current, w, info);
    var q, i := Waiters(s, w), JoinPos(s, s.current, w);
    if PriorityOrdered(s, w) { BehindEquals(s, w, q, i); }
    hide JoinPos, QueueOk;
    assert Waiters(Join(s, s.current, w, info), w) == q[..i] + [s.current] + q[i..];
  }

  lemma BehindEquals(s: KState, w: WQ, q: seq<TaskId>, i: nat)
    requires QueueOk(s, w) && PriorityOrdered(s, w) && q == Waiters(s, w) && i == JoinPos(s, s.current, w)
    ensures forall u :: u in q[..i] ==> s.tcb[u].itskpri <= s.tcb[s.current].itskpri
    ensures forall u :: u in q[i..] ==> s.tcb[s.current].itskpri < s.tcb[u].itskpri
  {
    PriPosIs(s.tcb, q, s.tcb[s.current].itskpri);
    hide PriPos;
    forall u | u in q[i..] ensures s.tcb[s.current].itskpri < s.tcb[u].itskpri {
      var k: nat :| k < |q[i..]| && q[i..][k] == u;
      assert q[i + k] == u;
      if k > 0 { assert Before(s, true, q[i], q[i + k]); }
    }
  }

  lemma JoinPrepares(s: KState, w: WQ, info: WInfo)
    ensures Prepared(s, Join(s, s.current, w, info)) && Join(s, s.current, w, info).tcb[s.current].winfo == info
  {
  }

  /** A wait at an object. */
  lemma JoinedWaits(s: KState, step: Step, w: WQ, info: WInfo, r: KState)
    requires Inv(s) && MayBlock(s) && IsWait(step) && r == Block(Join(s, s.current, w, info), KindOf(step), LimitOf(step))
    requires (LimitOf(step) > 0 || LimitOf(step) == TMO_FEVR) && InfoOf(step, info) && forall v :: QueueOf(step, v) <==> v == w
    ensures CallerWaits(s, step, r) && OthersStay(s, r)
  {
    hide Inv, Core, LinksOk, Block, Join, Placed, Prepared, OthersStay, Limited, InfoOf, QueueOf, QueueOk;
    var j := Join(s, s.current, w, info);
    JoinPrepares(s, w, info);
    BlockWaits(s, j, KindOf(step), LimitOf(step), r);
    BlockOthersStay(s, j, KindOf(step), LimitOf(step), r);
    JoinedQueues(s, w, info);
    if LimitOf(step) > 0 { JoinedLimits(s, w, info, KindOf(step), LimitOf(step), r); }
  }

  lemma JoinedQueues(s: KState, w: WQ, info: WInfo)
    requires Inv(s) && MayBlock(s)
    ensures var j := Join(s, s.current, w, info);
            Placed(s, PriorityOrdered(s, w), Waiters(s, w), Waiters(j, w), s.current) && forall v :: v != w ==> Waiters(j, v) == Waiters(s, v)
  {
    hide Inv, Core, LinksOk, Join, Placed, QueueOk;
    InvGives(s);
    CoreGives(s);
    CoreParts(s);
    CallerDetached(s);
    JoinPlaced(s, w, info);
  }

  lemma JoinedLimits(s: KState, w: WQ, info: WInfo, kind: Kind, ms: nat, r: KState)
    requires Inv(s) && r == Block(Join(s, s.current, w, info), kind, ms) && ms > 0
    ensures Limited(s, r, s.current, ms)
  {
    hide Inv, Core, LinksOk, Block;
    InvGives(s);
    CoreGives(s);
    BlockLimits(Join(s, s.current, w, info), kind, ms, r);
  }

  /** A sleep or a delay. */
  lemma AloneWaits(s: KState, step: Step, r: KState)
    requires Inv(s) && MayBlock(s) && (step.Delay? || step.Sleep?) && r == Block(s, KindOf(step), LimitOf(step))
    requires LimitOf(step) > 0 || LimitOf(step) == TMO_FEVR
    ensures CallerWaits(s, step, r) && OthersStay(s, r)
  {
    hide Inv, Core, LinksOk, Block, Placed, OthersStay, Limited;
    assert s.tcb[s.current := s.tcb[s.current]] == s.tcb;
    BlockWaits(s, s, KindOf(step), LimitOf(step), r);
    BlockOthersStay(s, s, KindOf(step), LimitOf(step), r);
    if LimitOf(step) > 0 {
      InvGives(s);
      CoreGives(s);
      BlockLimits(s, KindOf(step), LimitOf(step), r);
    }
  }

  /** Whatever wait call blocks: its caller waits for what the call asked for, at the place in the queue that is its own,
      for as long as the call said; and nothing else has changed. */
  lemma BlocksAsAsked(s: KState, step: Step)
    requires Inv(s) && Enabled(s, step) && IsWait(step) && Exec(s, step).1 == Blocks
    ensures CallerWaits(s, step, Exec(s, step).0) && OthersStay(s, Exec(s, step).0)
  {
    hide Inv, Enabled, Exec, Block, Join, CallerWaits, OthersStay;
    CallerMayBlock(s, step);
    match step
    case Delay(_, _) => AloneBlocks(s, step); AloneWaits(s, step, Exec(s, step).0);
    case Sleep(_, _) => AloneBlocks(s, step); AloneWaits(s, step, Exec(s, step).0);
    case WaitSem(id, cnt, _, _) => SemBlocks(s, step); JoinedWaits(s, step, SemQ(id - 1), SemInfo(cnt, id - 1), Exec(s, step).0);
    case WaitFlg(id, p, m, _, _) => FlgBlocks(s, step); JoinedWaits(s, step, FlgQ(id - 1), FlgInfo(p, m, {}), Exec(s, step).0);
    case ReceiveMsg(id, _, _) => MbxBlocks(s, step); JoinedWaits(s, step, MbxQ(id - 1), MbxInfo(None), Exec(s, step).0);
  }

  lemma CallerMayBlock(s: KState, step: Step)
    requires Enabled(s, step) && IsWait(step) && Exec(s, step).1 == Blocks
    ensures MayBlock(s) && (LimitOf(step) > 0 || LimitOf(step) == TMO_FEVR)
  {
    hide Block, Join, Match, MayTake, Yield, TaskExec;
  }

  lemma AloneBlocks(s: KState, step: Step)
    requires (step.Delay? || step.Sleep?) && Exec(s, step).1 == Blocks
    ensures Exec(s, step).0 == Block(s, KindOf(step), LimitOf(step))
  {
    hide Block, Yield, TaskExec, SemExec, FlgExec, MbxExec;
  }

  lemma SemBlocks(s: KState, step: Step)
    requires step.WaitSem? && Exec(s, step).1 == Blocks
    ensures InRange(step.id, CFN_MAX_SEMID)
    ensures Exec(s, step).0 == Block(Join(s, s.current, SemQ(step.id - 1), SemInfo(step.cnt, step.id - 1)), SEM, step.tmo)
  {
    hide Block, Join, MayTake, TaskExec, TimeExec, FlgExec, MbxExec;
  }

  lemma FlgBlocks(s: KState, step: Step)
    requires step.WaitFlg? && Exec(s, step).1 == Blocks
    ensures InRange(step.id, CFN_MAX_FLGID)
    ensures Exec(s, step).0 == Block(Join(s, s.current, FlgQ(step.id - 1), FlgInfo(step.waiptn, step.wfmode, {})), FLG, step.tmo)
  {
    hide Block, Join, Match, TaskExec, TimeExec, SemExec, MbxExec;
  }

  lemma MbxBlocks(s: KState, step: Step)
    requires step.ReceiveMsg? && Exec(s, step).1 == Blocks
    ensures InRange(step.id, CFN_MAX_MBXID)
    ensures Exec(s, step).0 == Block(Join(s, s.current, MbxQ(step.id - 1), MbxInfo(None)), MBX, step.tmo)
  {
    hide Block, Join, TaskExec, TimeExec, SemExec, FlgExec;
  }

  /* ---- over a run ---- */

  /** In every run, from a wait call with a limit of ms that blocks its caller: as long as the task waits, no step ends the
      wait with E_TMOUT before ms have passed since the call, and none but a handler run does; and a handler run at or
      after ms rounded up to ticks, plus one tick, ends it. */
  lemma WaitBoundsInRun(states: seq<KState>, steps: seq<Step>, i: nat, k: nat, t: TaskId, ms: nat)
    requires IsRun(states, steps) && i < k < |steps| && IsWait(steps[i]) && Exec(states[i], steps[i]).1 == Blocks
    requires t == states[i].current && ms == LimitOf(steps[i]) > 0 && forall j :: i < j <= k ==> Waiting(states[j], t)
    ensures EndsWith(states[k + 1], t, E_TMOUT) ==>
              steps[k] == TimerInterrupt && states[k].now > states[i].now + ms * (TICK_COUNTS / TICK_MS)
    ensures steps[k] == TimerInterrupt && states[k].now >= states[i].now + (CeilTicks(ms) + 1) * TICK_COUNTS ==> !Waiting(states[k + 1], t)
  {
    hide Inv, Exec, Enabled, CallerWaits, OthersStay;
    RunsKeepInv(states, steps, i);
    RunsKeepInv(states, steps, k);
    BlocksAsAsked(states[i], steps[i]);
    CallerLimited(states[i], steps[i], states[i + 1]);
    LimitStands(states, steps, i + 1, k, t);
    TimedWaitBounds(states[k], steps[k], t);
  }

  lemma CallerLimited(s: KState, step: Step, r: KState)
    requires CallerWaits(s, step, r) && LimitOf(step) > 0
    ensures OnTimer(r, s.current) && r.hist.task[s.current].since == s.now && r.hist.task[s.current].ms == LimitOf(step)
  {
    hide Placed, QueueOf, InfoOf;
  }

  /** While a task waits, it stays on the timer queue with the limit it began with. */
  lemma {:induction false} LimitStands(states: seq<KState>, steps: seq<Step>, i: nat, k: nat, t: TaskId)
    requires IsRun(states, steps) && i <= k < |states| && OnTimer(states[i], t) && forall j :: i <= j <= k ==> Waiting(states[j], t)
    ensures OnTimer(states[k], t)
    ensures states[k].hist.task[t].since == states[i].hist.task[t].since && states[k].hist.task[t].ms == states[i].hist.task[t].ms
    decreases k
  {
    hide Inv, Exec, Enabled;
    if i < k {
      var j: nat := k - 1;
      LimitStands(states, steps, i, j, t);
      RunsKeepInv(states, steps, j);
      StaysOnTimer(states[j], steps[j], states[k], t);
    }
  }

  lemma StaysOnTimer(s: KState, step: Step, r: KState, t: TaskId)
    requires Inv(s) && Enabled(s, step) && r == Exec(s, step).0 && OnTimer(s, t) && Waiting(s, t) && Waiting(r, t)
    ensures OnTimer(r, t) && r.hist.task[t].since == s.hist.task[t].since && r.hist.task[t].ms == s.hist.task[t].ms
  {
    hide Inv, Exec, Enabled;
    StepHasEffect(s, step);
    assert TaskStep(s, r, t, Acts(step));
  }
}
