/** The task calls keep the invariant of the kernel. */
module TaskCalls {
  import opened Types
  import opened Rings
  import opened KernelState
  import opened KernelOps
  import opened Frames
  import opened WaitEnd
  import opened WaitStart
  import opened Scheduling

  /** The caller is a task: it is running and outside any wait. */
  predicate TaskContext(s: KState) {
    s.tcb[s.current].tskstat == RUN && s.tcb[s.current].pc == Outside
  }

  lemma DetachCoherent(h: Rings<HQ>, t: TaskId)
    requires Coherent(h)
    ensures Coherent(h.Del(t).Init(t))
    ensures forall q :: h.Del(t).Init(t).Get(q) == if h.at[t] == On(q) then Without(h.Get(q), t) else h.Get(q)
  {
    DelCoherent(h, t);
    InitCoherent(h.Del(t), t);
  }

  /** g differs from s only in task t, which waits for nothing, and in the choice of the next task. */
  ghost predicate OneMoved(s: KState, g: KState, t: TaskId) {
    && Coherent(g.heads) && TaskOk(g, t) && HistOk(g, t) && !s.waits.at[t].On? && g.heads.at[t] != On(TimerQ)
    && g == s.(tcb := s.tcb[t := g.tcb[t]], heads := g.heads, next := g.next, msip := g.msip,
               hist := s.hist.(task := s.hist.task[t := g.hist.task[t]]))
    && (forall u: TaskId :: u != t ==> g.heads.at[u] == s.heads.at[u])
    && (t == IDLE ==> g.tcb[t].tskstat in {RDY, RUN} && g.tcb[t].itskpri == s.tcb[t].itskpri)
  }

  lemma OneMovedCore(s: KState, g: KState, t: TaskId)
    requires Core(s) && AllSettled(s) && AllTimed(s) && OneMoved(s, g, t)
    ensures Core(g) && AllSettled(g) && AllTimed(g)
  {
    hide Core, AllSettled, ObjectsOk, Coherent;
    CoreGives(s);
    forall u: TaskId ensures TaskOk(g, u) && HistOk(g, u) { assert TaskOk(s, u) && HistOk(s, u); }
    SameObjectsOk(s, g);
    SameObjectsSettled(s, g);
    forall u: TaskId ensures TimedOk(g, u) { assert TimedOk(s, u); }
    CoreFrom(s, g);
  }

  /** A task takes the first free TCB; everybody else is as before. */
  lemma CreTskInv(s: KState, pri: int)
    requires Inv(s)
    ensures Inv(CreTsk(s, pri).0)
  {
    if InRange(pri, CFN_MAX_PRI) && s.heads.Get(FreeQ) != [] { CreatedInv(s, pri, CreTsk(s, pri).0, s.heads.Get(FreeQ)[0]); }
  }

  lemma CreatedInv(s: KState, pri: int, g: KState, t: TaskId)
    requires Inv(s) && InRange(pri, CFN_MAX_PRI) && s.heads.Get(FreeQ) != [] && t == s.heads.Get(FreeQ)[0] && g == CreTsk(s, pri).0
    ensures Inv(g)
  {
    assert Core(s) && AllSettled(s) && AllTimed(s);
    InvGivesTask(s, t);
    CoreGives(s);
    CreatedMoved(s, pri, g, t);
    hide Inv, Core, AllSettled, AllTimed, CreTsk;
    OneMovedCore(s, g, t);
    QuietInv(s, g);
  }

  lemma CreatedMoved(s: KState, pri: int, g: KState, t: TaskId)
    requires LinksOk(s) && HistOk(s, t) && IdleOk(s)
    requires InRange(pri, CFN_MAX_PRI) && s.heads.Get(FreeQ) != [] && t == s.heads.Get(FreeQ)[0] && g == CreTsk(s, pri).0
    ensures OneMoved(s, g, t) && g.tcb[t].tskstat != RUN && s.tcb[t].tskstat != RUN
    ensures forall p: Pri :: ReadyAt(g, p) == ReadyAt(s, p)
    ensures g.current == s.current && g.next == s.next && g.msip == s.msip
  {
    assert t in s.heads.Get(FreeQ) && TaskOk(s, t);
    DetachCoherent(s.heads, t);
    assert g.waits == s.waits;
  }

  lemma StartHeads(h: Rings<HQ>, t: TaskId, p: Pri)
    requires Coherent(h) && !h.at[t].On?
    ensures Coherent(h.Init(t).AddTail(t, ReadyQ(p)))
    ensures forall q :: h.Init(t).AddTail(t, ReadyQ(p)).Get(q) == h.Get(q) + if q == ReadyQ(p) then [t] else []
  {
    InitCoherent(h, t);
    AddTailIsPut(h.Init(t), t, ReadyQ(p));
    PutCoherent(h.Init(t), t, ReadyQ(p), |h.Init(t).Get(ReadyQ(p))|);
  }

  /** A call that changes one task and chooses the next one. */
  lemma OneMovedResched(s: KState, g: KState, t: TaskId)
    requires Inv(s) && OneMoved(s, g, t) && g.msip == s.msip
    requires g.tcb[t].tskstat == RUN <==> s.tcb[t].tskstat == RUN
    ensures Inv(Resched(g))
  {
    OneMovedCore(s, g, t);
    ReschedInv(g);
  }

  /** A call in which the current task stops running. */
  lemma OneMovedDispatch(s: KState, g: KState)
    requires Inv(s) && OneMoved(s, g, s.current) && g.tcb[s.current].tskstat != RUN
    ensures Inv(Dispatch(g))
  {
    OneMovedCore(s, g, s.current);
    DispatchInv(g);
  }

  lemma StartedMoved(s: KState, t: TaskId)
    requires LinksOk(s) && HistOk(s, t) && IdleOk(s) && s.tcb[t].tskstat == DMT
    ensures OneMoved(s, Started(s, t), t)
  {
    assert TaskOk(s, t);
    StartHeads(s.heads, t, s.tcb[t].itskpri);
    assert s.waits.Init(t) == s.waits;
  }

  lemma StaTskInv(s: KState, id: int)
    requires Inv(s)
    ensures Inv(StaTsk(s, id).0)
  {
    hide Inv;
    InvGives(s);
    if StaTsk(s, id).1 == Er(E_OK) {
      var t: TaskId := id - 1;
      hide Core, Resched, Started, OneMoved;
      CoreGives(s);
      StartedMoved(s, t);
      OneMovedResched(s, Started(s, t), t);
    }
  }

  /** The heads after the current task has moved to the tail of a ring. */
  lemma MoveHeads(h: Rings<HQ>, t: TaskId, q: HQ)
    requires Coherent(h)
    ensures Coherent(h.Del(t).AddTail(t, q))
    ensures forall p :: h.Del(t).AddTail(t, q).Get(p) ==
                        (if h.at[t] == On(p) then Without(h.Get(p), t) else h.Get(p)) + if p == q then [t] else []
  {
    DelCoherent(h, t);
    AddTailIsPut(h.Del(t), t, q);
    PutCoherent(h.Del(t), t, q, |h.Del(t).Get(q)|);
  }

  lemma RotatedMoved(s: KState)
    requires LinksOk(s) && HistOk(s, s.current) && TaskContext(s)
    ensures OneMoved(s, Rotated(s), s.current)
  {
    var t := s.current;
    assert TaskOk(s, t);
    MoveHeads(s.heads, t, ReadyQ(s.tcb[t].itskpri));
    assert s.hist.task[t := s.hist.task[t]] == s.hist.task && s.tcb[t := s.tcb[t]] == s.tcb;
  }

  lemma ExitedMoved(s: KState)
    requires LinksOk(s) && HistOk(s, s.current) && TaskContext(s) && s.current != IDLE
    ensures OneMoved(s, Exited(s), s.current)
  {
    var t := s.current;
    assert TaskOk(s, t);
    DelCoherent(s.heads, t);
    assert s.hist.task[t := s.hist.task[t]] == s.hist.task;
  }

  lemma DeletedMoved(s: KState)
    requires LinksOk(s) && HistOk(s, s.current) && TaskContext(s) && s.current != IDLE
    ensures OneMoved(s, Deleted(s), s.current)
  {
    var t := s.current;
    assert TaskOk(s, t);
    MoveHeads(s.heads, t, FreeQ);
    assert s.hist.task[t := s.hist.task[t]] == s.hist.task;
  }

  lemma YieldInv(s: KState)
    requires Inv(s) && TaskContext(s)
    ensures Inv(Yield(s))
  {
    RotatedMoved(s);
    OneMovedResched(s, Rotated(s), s.current);
  }

  lemma ExtTskInv(s: KState)
    requires Inv(s) && TaskContext(s) && s.current != IDLE
    ensures Inv(ExtTsk(s))
  {
    ExitedMoved(s);
    OneMovedDispatch(s, Exited(s));
  }

  lemma ExdTskInv(s: KState)
    requires Inv(s) && TaskContext(s) && s.current != IDLE
    ensures Inv(ExdTsk(s))
  {
    DeletedMoved(s);
    OneMovedDispatch(s, Deleted(s));
  }

  lemma RelWaiInv(s: KState, id: int)
    requires Inv(s)
    ensures Inv(RelWai(s, id).0)
  {
    InvGives(s);
    if RelWai(s, id).1 == Er(E_OK) {
      hide Inv, CompleteWait, Resched;
      var t: TaskId := id - 1;
      CompleteWaitKeeps(s, t, E_RLWAI);
      CompleteWaitAllSettled(s, t, E_RLWAI);
      EndsInv(s, CompleteWait(s, t, E_RLWAI));
    }
  }

  /** A change to one task's record that moves it on no queue and leaves it running or not as it was. */
  lemma RecordInv(s: KState, t: TaskId, c: Tcb, h: TaskHist)
    requires Inv(s)
    requires TaskOk(WithTask(s, t, c, h), t) && HistOk(WithTask(s, t, c, h), t)
    requires c.itskpri == s.tcb[t].itskpri && c.tskstat == s.tcb[t].tskstat && c.delay == s.tcb[t].delay
    requires h.ticket == s.hist.task[t].ticket && h.deadline == s.hist.task[t].deadline
    requires Waiting(s, t) ==> c.winfo == s.tcb[t].winfo
    ensures Inv(WithTask(s, t, c, h))
  {
    var g := WithTask(s, t, c, h);
    WithTaskCore(s, t, c, h);
    WithTaskSettled(s, t, c, h);
    forall u: TaskId ensures TimedOk(g, u) { assert TimedOk(s, u); }
    forall p: Pri ensures ReadyAt(g, p) == ReadyAt(s, p) { }
    QuietInv(s, g);
  }

  /** One more queued wake-up fits the task and its history. */
  lemma CountedOk(s: KState, t: TaskId)
    requires TaskOk(s, t) && HistOk(s, t) && s.tcb[t].tskstat !in {NOEXS, DMT} && s.tcb[t].tskwait != SLP
    requires s.tcb[t].wupcnt < TK_WAKEUP_MAXCNT
    ensures var g := QueueWakeup(s, t).0;
            g == WithTask(s, t, s.tcb[t].(wupcnt := s.tcb[t].wupcnt + 1), s.hist.task[t].(accepted := s.hist.task[t].accepted + 1))
            && TaskOk(g, t) && HistOk(g, t)
  {
  }

  lemma QueueWakeupInv(s: KState, t: TaskId)
    requires Inv(s) && s.tcb[t].tskstat !in {NOEXS, DMT} && s.tcb[t].tskwait != SLP
    ensures Inv(QueueWakeup(s, t).0)
  {
    if s.tcb[t].wupcnt < TK_WAKEUP_MAXCNT {
      CountedOk(s, t);
      RecordInv(s, t, s.tcb[t].(wupcnt := s.tcb[t].wupcnt + 1), s.hist.task[t].(accepted := s.hist.task[t].accepted + 1));
    }
  }

  lemma WakeSleeper(s: KState, t: TaskId)
    requires Inv(s) && Waiting(s, t) && s.tcb[t].tskwait == SLP
    ensures Inv(Resched(Woken(s, t)))
  {
    hide Inv, Core, AllSettled, AllTimed, RunsAlone, CompleteWait, Resched;
    var r := CompleteWait(s, t, E_OK);
    SleeperEnds(s, t, r);
    WokenCore(r, t, s.hist.task[t].(accepted := s.hist.task[t].accepted + 1, used := s.hist.task[t].used + 1));
  }

  lemma SleeperEnds(s: KState, t: TaskId, r: KState)
    requires Inv(s) && Waiting(s, t) && s.tcb[t].tskwait == SLP && r == CompleteWait(s, t, E_OK)
    ensures Core(r) && AllSettled(r) && AllTimed(r) && RunsAlone(r) && Runnable(r, t) && r.hist == s.hist
  {
    assert Core(s) && AllSettled(s) && AllTimed(s) && SchedOk(s);
    hide Inv, AllSettled, AllTimed, SchedOk, RunsAlone, CompleteWait;
    CompleteWaitKeeps(s, t, E_OK);
    CompleteWaitAllSettled(s, t, E_OK);
    EndsTimed(s, r);
    EndsRunsAlone(s, r);
  }

  lemma WokenCore(r: KState, t: TaskId, h: TaskHist)
    requires Core(r) && AllSettled(r) && AllTimed(r) && RunsAlone(r) && Runnable(r, t)
    requires h == r.hist.task[t].(accepted := r.hist.task[t].accepted + 1, used := r.hist.task[t].used + 1)
    ensures Inv(Resched(WithTask(r, t, r.tcb[t], h)))
    ensures WithTask(r, t, r.tcb[t], h) == r.(hist := r.hist.(task := r.hist.task[t := h]))
  {
    hide Core, AllSettled, Inv, Resched;
    CoreGives(r);
    assert TaskOk(r, t) && HistOk(r, t);
    var g := WithTask(r, t, r.tcb[t], h);
    assert g.tcb == r.tcb;
    WithTaskCore(r, t, r.tcb[t], h);
    WithTaskSettled(r, t, r.tcb[t], h);
    forall u: TaskId ensures TimedOk(g, u) { assert TimedOk(r, u); }
    ReschedInv(g);
  }

  lemma WupTskInv(s: KState, id: int, inIsr: bool)
    requires Inv(s)
    ensures Inv(WupTsk(s, id, inIsr).0)
  {
    if InRange(id, CFN_MAX_TSKID) && (id - 1 != s.current || inIsr) {
      var t: TaskId := id - 1;
      hide Inv;
      InvGivesTask(s, t);
      match s.tcb[t].tskstat
      case WAI => if s.tcb[t].tskwait == SLP { WakeSleeper(s, t); } else { QueueWakeupInv(s, t); }
      case NOEXS =>
      case DMT =>
      case _ => QueueWakeupInv(s, t);
    }
  }

  /** A wait with no object: a sleep or a delay. */
  lemma BlockAloneInv(s: KState, kind: Kind, tmo: int)
    requires Inv(s) && MayBlock(s) && kind in {SLP, DLY} && (kind == DLY ==> tmo > 0) && (kind == SLP ==> s.tcb[s.current].wupcnt == 0)
    ensures Inv(Block(s, kind, tmo))
  {
    assert TaskOk(s, s.current);
    assert s.tcb == s.tcb[s.current := s.tcb[s.current].(winfo := s.tcb[s.current].winfo)];
    BlockCore(s, s, kind, tmo);
    BlockInv(s, s, kind, tmo);
  }

  lemma BlockInv(s: KState, j: KState, kind: Kind, tmo: int)
    requires Inv(s) && ReadyToWait(s, j, kind) && (kind == DLY ==> tmo > 0)
    requires WaitLinkOk(Block(j, kind, tmo), s.current)
    requires AllSettled(j)
    ensures Inv(Block(j, kind, tmo))
  {
    hide Core, ObjectsOk, AllSettled, Coherent, WaitLinkOk, InfoFits, TimedOk;
    BlockCore(s, j, kind, tmo);
    BlockTimed(s, j, kind, tmo) by { hide Block; }
    SameObjectsSettled(j, Block(j, kind, tmo));
    forall t: TaskId ensures Block(j, kind, tmo).tcb[t].tskstat != RUN {
      assert s.tcb[t].tskstat == RUN ==> t == s.current;
    }
  }

  lemma DlyTskInv(s: KState, dlytm: nat, canBlock: bool)
    requires Inv(s) && (canBlock ==> TaskContext(s) && s.current != IDLE)
    ensures Inv(DlyTsk(s, dlytm, canBlock).0)
  {
    if canBlock {
      if dlytm == 0 { YieldInv(s); } else { BlockAloneInv(s, DLY, dlytm); }
    }
  }

  lemma UseWakeupInv(s: KState, t: TaskId, c: Tcb, h: TaskHist)
    requires Inv(s) && Runnable(s, t) && s.tcb[t].wupcnt > 0
    requires c == s.tcb[t].(wupcnt := s.tcb[t].wupcnt - 1) && h == s.hist.task[t].(used := s.hist.task[t].used + 1)
    ensures Inv(WithTask(s, t, c, h))
  {
    hide Inv;
    InvGivesTask(s, t);
    assert TaskOk(WithTask(s, t, c, h), t);
    RecordInv(s, t, c, h);
  }

  lemma SlpTskInv(s: KState, tmo: int, canBlock: bool)
    requires Inv(s) && (canBlock ==> TaskContext(s) && s.current != IDLE)
    ensures Inv(SlpTsk(s, tmo, canBlock).0)
  {
    if tmo >= TMO_FEVR && canBlock {
      var t := s.current;
      hide Inv, Block;
      if s.tcb[t].wupcnt > 0 {
        UseWakeupInv(s, t, s.tcb[t].(wupcnt := s.tcb[t].wupcnt - 1), s.hist.task[t].(used := s.hist.task[t].used + 1));
      } else if tmo != TMO_POL {
        BlockAloneInv(s, SLP, tmo);
      }
    }
  }

  /** The rest of a wait call: the task is running again and has not returned from it. */
  lemma ResumeInv(s: KState)
    requires Inv(s) && s.tcb[s.current].tskstat == RUN && s.tcb[s.current].pc.InWait?
    ensures Inv(Resume(s).0)
  {
    var t := s.current;
    var c := s.tcb[t];
    var g := Resume(s).0;
    hide Inv;
    InvGivesTask(s, t);
    var n := if c.pc.kind == MBX then c.(wupcause := E_OK, pc := Outside, winfo := MbxInfo(None), delay := 0, tskwait := NoWait)
             else c.(wupcause := E_OK, pc := Outside);
    assert s.hist.task[t := s.hist.task[t]] == s.hist.task;
    assert g == WithTask(s, t, n, s.hist.task[t]);
    RecordInv(s, t, n, s.hist.task[t]);
  }

  /** The switch: the task chosen runs, the one before is ready if it was running. */
  lemma ScheduleInv(s: KState)
    requires Inv(s) && s.msip
    ensures Inv(Schedule(s))
    ensures Some(Schedule(s).current) == s.next
  {
    assert Core(s) && AllSettled(s) && AllTimed(s) && SchedOk(s);
    hide Inv, Core, AllSettled, AllTimed, TaskOk, HistOk, TimedOk;
    HighestExists(s);
    hide Highest, HighestFrom;
    var n := s.next.value;
    var g := Schedule(s);
    assert Highest(g) == Highest(s) by { assert g.heads == s.heads; HighestSame(s.heads, g.heads, 1); }
    SwitchCore(s, g);
    InvOf(g);
  }

  /** Tasks that are ready or running change to running or ready. */
  lemma SwitchCore(s: KState, g: KState)
    requires Core(s) && AllSettled(s) && AllTimed(s)
    requires forall u: TaskId :: g.tcb[u] == s.tcb[u] || (Runnable(s, u) && g.tcb[u] in {s.tcb[u].(tskstat := RDY), s.tcb[u].(tskstat := RUN)})
    requires g == s.(tcb := g.tcb, current := g.current, msip := g.msip)
    ensures Core(g) && AllSettled(g) && AllTimed(g)
  {
    hide Core, AllSettled, ObjectsOk, Coherent;
    CoreGives(s);
    forall u: TaskId ensures TaskOk(g, u) && HistOk(g, u) { assert TaskOk(s, u) && HistOk(s, u); }
    SameObjectsOk(s, g);
    SameObjectsSettled(s, g);
    forall u: TaskId ensures TimedOk(g, u) { assert TimedOk(s, u); }
    CoreFrom(s, g);
  }
}
