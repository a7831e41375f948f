/** The start of a wait: joining a wait queue, starting the timer, leaving the ready queue. */
module WaitStart {
  import opened Types
  import opened Rings
  import opened KernelState
  import opened KernelOps
  import opened Frames

  /** The edges counted are those that have passed: the next one is the first still ahead. */
  lemma {:induction false} PendingIs(cmp: nat, now: nat)
    ensures Pending(cmp, now) > 0 <==> now >= cmp
    ensures now < cmp + Pending(cmp, now) * TICK_COUNTS
    ensures Pending(cmp, now) > 0 ==> cmp + (Pending(cmp, now) - 1) * TICK_COUNTS <= now
    decreases if now >= cmp then now - cmp + 1 else 0
  {
    if now >= cmp { PendingIs(cmp + TICK_COUNTS, now); }
  }

  /** A wait of ms that starts now: its deadline is after now + ms, and at most one tick after that time is
      rounded up to ticks, whatever edges are pending. */
  lemma DeadlineWindow(cmp: nat, now: nat, ms: nat)
    requires cmp <= now + TICK_COUNTS
    ensures var d := cmp + (MsToTicks(ms) + Pending(cmp, now) - 1) * TICK_COUNTS;
            now + ms * (TICK_COUNTS / TICK_MS) < d <= now + (CeilTicks(ms) + 1) * TICK_COUNTS
  {
    PendingIs(cmp, now);
  }

  /* ---- joining a wait queue ---- */

  lemma {:induction false} PriPosIs(tcb: Tcbs, q: seq<TaskId>, p: Pri)
    ensures forall j :: 0 <= j < PriPos(tcb, q, p) ==> tcb[q[j]].itskpri <= p
    ensures PriPos(tcb, q, p) < |q| ==> p < tcb[q[PriPos(tcb, q, p)]].itskpri
  {
    if q != [] && p >= tcb[q[0]].itskpri {
      PriPosIs(tcb, q[1..], p);
      forall j | 0 <= j < PriPos(tcb, q, p) ensures tcb[q[j]].itskpri <= p {
        if j > 0 { assert q[1..][j - 1] == q[j]; }
      }
    }
  }

  lemma JoinWaits(s: KState, t: TaskId, w: WQ, info: WInfo)
    requires Coherent(s.waits) && s.waits.at[t].Detached?
    ensures Coherent(Join(s, t, w, info).waits)
    ensures forall p :: Waiters(Join(s, t, w, info), p) ==
                        if p == w then InsertAt(Waiters(s, w), JoinPos(s, t, w), t) else Waiters(s, p)
  {
    InitCoherent(s.waits, t);
    PutCoherent(s.waits.Init(t), t, w, JoinPos(s, t, w));
  }

  /** A newcomer behind all that come before it and ahead of the others. */
  lemma OrderedWith(j: KState, tpri: bool, q: seq<TaskId>, i: nat, t: TaskId)
    requires i <= |q| && forall a, b :: 0 <= a < b < |q| ==> Before(j, tpri, q[a], q[b])
    requires (forall k :: 0 <= k < i ==> Before(j, tpri, q[k], t)) && (forall k :: i <= k < |q| ==> Before(j, tpri, t, q[k]))
    ensures forall a, b :: 0 <= a < b < |InsertAt(q, i, t)| ==> Before(j, tpri, InsertAt(q, i, t)[a], InsertAt(q, i, t)[b])
  {
  }

  lemma NewcomerPlace(s: KState, t: TaskId, w: WQ, tpri: bool, q: seq<TaskId>, i: nat, k: nat)
    requires QueueOk(s, w) && t !in q && q == Waiters(s, w) && tpri == PriorityOrdered(s, w) && i == JoinPos(s, t, w) && k < |q|
    ensures if tpri && k >= i then s.tcb[t].itskpri < s.tcb[q[k]].itskpri
            else k < i && (tpri ==> s.tcb[q[k]].itskpri <= s.tcb[t].itskpri)
    ensures s.hist.task[q[k]].ticket < s.hist.arrivals
  {
    if tpri {
      PriPosIs(s.tcb, q, s.tcb[t].itskpri);
      if k > i { assert Before(s, tpri, q[i], q[k]); }
    }
  }

  /** What joining leaves of the orders: the others' tickets stay, the newcomer's is the highest. */
  lemma JoinOrders(s: KState, t: TaskId, w: WQ, info: WInfo)
    ensures var j := Join(s, t, w, info);
            && j.hist.arrivals == s.hist.arrivals + 1 && j.hist.task[t].ticket == s.hist.arrivals
            && (forall u: TaskId :: u != t ==> j.hist.task[u] == s.hist.task[u])
            && (forall u: TaskId :: j.tcb[u].itskpri == s.tcb[u].itskpri)
            && (forall p :: PriorityOrdered(j, p) == PriorityOrdered(s, p))
  {
  }

  lemma NewcomerOrdered(s: KState, t: TaskId, w: WQ, info: WInfo)
    requires QueueOk(s, w) && t !in Waiters(s, w)
    requires Waiters(Join(s, t, w, info), w) == InsertAt(Waiters(s, w), JoinPos(s, t, w), t)
    ensures QueueOk(Join(s, t, w, info), w)
  {
    hide Join, Waiters, JoinPos, PriorityOrdered;
    var j := Join(s, t, w, info);
    var q := Waiters(s, w);
    var i := JoinPos(s, t, w);
    var tpri := PriorityOrdered(s, w);
    JoinOrders(s, t, w, info);
    forall k: nat | k < |q| ensures if k < i then Before(j, tpri, q[k], t) else Before(j, tpri, t, q[k]) {
      NewcomerPlace(s, t, w, tpri, q, i, k);
    }
    forall a, b | 0 <= a < b < |q| ensures Before(j, tpri, q[a], q[b]) { assert Before(s, tpri, q[a], q[b]); }
    OrderedWith(j, tpri, q, i, t);
  }

  lemma OtherQueueKept(s: KState, j: KState, p: WQ, t: TaskId)
    requires QueueOk(s, p) && t !in Waiters(s, p) && Waiters(j, p) == Waiters(s, p)
    requires PriorityOrdered(j, p) == PriorityOrdered(s, p) && j.hist.arrivals >= s.hist.arrivals
    requires forall u: TaskId :: u != t ==> j.hist.task[u] == s.hist.task[u] && j.tcb[u].itskpri == s.tcb[u].itskpri
    ensures QueueOk(j, p)
  {
    var q := Waiters(s, p);
    forall a, b | 0 <= a < b < |q| ensures Before(j, PriorityOrdered(j, p), q[a], q[b]) {
      assert Before(s, PriorityOrdered(s, p), q[a], q[b]);
    }
  }

  /** A task that joins a wait queue takes its place in the order of the queue, behind its equals. */
  lemma JoinQueues(s: KState, t: TaskId, w: WQ, info: WInfo)
    requires Coherent(s.waits) && s.waits.at[t].Detached? && (forall p: WQ :: QueueOk(s, p))
    ensures forall p: WQ :: QueueOk(Join(s, t, w, info), p)
  {
    var j := Join(s, t, w, info);
    JoinWaits(s, t, w, info);
    forall p: WQ ensures QueueOk(j, p) {
      assert QueueOk(s, p);
      if p == w {
        NewcomerOrdered(s, t, w, info);
      } else {
        assert t !in s.waits.Get(p);
        OtherQueueKept(s, j, p, t);
      }
    }
  }

  /* ---- leaving the ready queue ---- */

  lemma BlockHeads(s: KState, kind: Kind, tmo: int)
    requires Coherent(s.heads) && s.heads.at[s.current] == On(ReadyQ(s.tcb[s.current].itskpri))
    ensures Coherent(Block(s, kind, tmo).heads)
    ensures forall p :: ReadyAt(Block(s, kind, tmo), p) == Without(ReadyAt(s, p), s.current)
    ensures Timed(Block(s, kind, tmo)) == Timed(s) + if tmo > 0 then [s.current] else []
    ensures Block(s, kind, tmo).heads.Get(FreeQ) == s.heads.Get(FreeQ)
  {
    var t := s.current;
    var h := Block(s, kind, tmo).heads;
    assert h == if tmo > 0 then s.heads.Del(t).AddTail(t, TimerQ) else s.heads.Del(t).Init(t);
    if tmo > 0 { MovedHeads(s.heads, h, t, s.tcb[t].itskpri); } else { RemovedHeads(s.heads, h, t, s.tcb[t].itskpri); }
  }

  lemma MovedHeads(r: Rings<HQ>, h: Rings<HQ>, t: TaskId, p: Pri)
    requires Coherent(r) && r.at[t] == On(ReadyQ(p)) && h == r.Del(t).AddTail(t, TimerQ)
    ensures Coherent(h) && h.Get(TimerQ) == r.Get(TimerQ) + [t] && h.Get(FreeQ) == r.Get(FreeQ)
    ensures forall o :: h.Get(ReadyQ(o)) == Without(r.Get(ReadyQ(o)), t)
  {
    hide Coherent;
    var d := r.Del(t);
    DelCoherent(r, t);
    AddTailIsPut(d, t, TimerQ);
    PutCoherent(d, t, TimerQ, |d.Get(TimerQ)|);
    OthersWithout(r, t, p);
  }

  lemma RemovedHeads(r: Rings<HQ>, h: Rings<HQ>, t: TaskId, p: Pri)
    requires Coherent(r) && r.at[t] == On(ReadyQ(p)) && h == r.Del(t).Init(t)
    ensures Coherent(h) && h.Get(TimerQ) == r.Get(TimerQ) && h.Get(FreeQ) == r.Get(FreeQ)
    ensures forall o :: h.Get(ReadyQ(o)) == Without(r.Get(ReadyQ(o)), t)
  {
    hide Coherent;
    DelCoherent(r, t);
    InitCoherent(r.Del(t), t);
    OthersWithout(r, t, p);
  }

  lemma OthersWithout(r: Rings<HQ>, t: TaskId, p: Pri)
    requires Coherent(r) && r.at[t] == On(ReadyQ(p))
    ensures forall o :: o != p ==> Without(r.Get(ReadyQ(o)), t) == r.Get(ReadyQ(o))
  {
    forall o | o != p ensures Without(r.Get(ReadyQ(o)), t) == r.Get(ReadyQ(o)) {
      WithoutAbsent(r.Get(ReadyQ(o)), t);
    }
  }

  /** The caller may block: it is running, outside any wait, and not the idle task. */
  predicate MayBlock(s: KState) {
    s.tcb[s.current].tskstat == RUN && s.tcb[s.current].pc == Outside && s.current != IDLE
  }

  /** j is the state at the point where the caller leaves the ready queue: as before the call but for its place
      on a wait queue and its wait data. */
  ghost predicate ReadyToWait(s: KState, j: KState, kind: Kind) {
    && Core(s) && MayBlock(s)
    && j.current == s.current && j.heads == s.heads && j.mtimecmp == s.mtimecmp && j.now == s.now
    && j.sem == s.sem && j.flg == s.flg && j.mbx == s.mbx
    && j.freeSem == s.freeSem && j.freeFlg == s.freeFlg && j.freeMbx == s.freeMbx
    && j.tcb == s.tcb[s.current := s.tcb[s.current].(winfo := j.tcb[s.current].winfo)]
    && Coherent(j.waits) && ObjectsOk(j)
    && (forall t: TaskId :: t != s.current ==> j.waits.at[t] == s.waits.at[t] && j.hist.task[t] == s.hist.task[t])
    && j.hist.task[s.current].(ticket := 0) == s.hist.task[s.current].(ticket := 0)
    && InfoFits(kind, j.tcb[s.current].winfo)
  }

  lemma BlockTasks(s: KState, j: KState, kind: Kind, tmo: int)
    requires ReadyToWait(s, j, kind) && (kind == DLY ==> tmo > 0)
    requires WaitLinkOk(Block(j, kind, tmo), s.current)
    ensures forall t: TaskId :: TaskOk(Block(j, kind, tmo), t) && HistOk(Block(j, kind, tmo), t)
  {
    hide Core, ObjectsOk, Coherent;
    CoreGives(s);
    forall t: TaskId ensures TaskOk(Block(j, kind, tmo), t) && HistOk(Block(j, kind, tmo), t) {
      if t == s.current { BlockOne(s, j, kind, tmo); } else { BlockOther(s, j, kind, tmo, t); }
    }
  }

  lemma BlockIs(s: KState, kind: Kind, tmo: int, b: KState, t: TaskId)
    requires b == Block(s, kind, tmo)
    ensures b.waits == s.waits && b.sem == s.sem && b.flg == s.flg && b.mbx == s.mbx
    ensures b.mtimecmp == s.mtimecmp && b.now == s.now
    ensures t != s.current ==> b.tcb[t] == s.tcb[t] && b.heads.at[t] == s.heads.at[t] && b.hist.task[t] == s.hist.task[t]
    ensures t == s.current ==> b.tcb[t] == s.tcb[t].(tskstat := WAI, tskwait := kind, pc := InWait(kind), delay := b.tcb[t].delay)
    ensures t == s.current && tmo <= 0 ==> b.tcb[t].delay == 0 && b.heads.at[t] == Detached && b.hist.task[t] == s.hist.task[t]
    ensures t == s.current && tmo > 0 ==>
              && b.tcb[t].delay == MsToTicks(tmo) + Pending(s.mtimecmp, s.now) && b.heads.at[t] == On(TimerQ)
              && b.hist.task[t] == s.hist.task[t].(since := s.now, ms := tmo, deadline := s.mtimecmp + (b.tcb[t].delay - 1) * TICK_COUNTS)
  {
  }

  lemma BlockOne(s: KState, j: KState, kind: Kind, tmo: int)
    requires ReadyToWait(s, j, kind) && (kind == DLY ==> tmo > 0)
    requires WaitLinkOk(Block(j, kind, tmo), s.current)
    ensures TaskOk(Block(j, kind, tmo), s.current) && HistOk(Block(j, kind, tmo), s.current)
  {
    hide Core, ObjectsOk, Coherent, Block, WaitLinkOk, MsToTicks;
    CoreGives(s);
    assert TaskOk(s, s.current) && HistOk(s, s.current);
    BlockIs(j, kind, tmo, Block(j, kind, tmo), s.current);
    if tmo > 0 { DeadlineWindow(j.mtimecmp, j.now, tmo); }
  }

  lemma BlockOther(s: KState, j: KState, kind: Kind, tmo: int, t: TaskId)
    requires ReadyToWait(s, j, kind) && t != s.current
    ensures TaskOk(Block(j, kind, tmo), t) && HistOk(Block(j, kind, tmo), t)
  {
    hide Core, ObjectsOk, Coherent, Block;
    CoreGives(s);
    assert TaskOk(s, t) && HistOk(s, t);
    BlockIs(j, kind, tmo, Block(j, kind, tmo), t);
  }

  /** Blocking keeps the invariant of a step. */
  lemma BlockCore(s: KState, j: KState, kind: Kind, tmo: int)
    requires ReadyToWait(s, j, kind) && (kind == DLY ==> tmo > 0)
    requires WaitLinkOk(Block(j, kind, tmo), s.current)
    ensures Core(Block(j, kind, tmo))
  {
    hide Core, ObjectsOk, Coherent, TaskOk, HistOk;
    CoreGives(s);
    var b := Block(j, kind, tmo);
    assert s.heads.at[s.current] == On(ReadyQ(s.tcb[s.current].itskpri)) by { RunnerReady(s); }
    BlockHeads(j, kind, tmo);
    BlockTasks(s, j, kind, tmo);
    SameObjectsOk(j, b);
    CoreFrom(s, b);
  }

  lemma RunnerReady(s: KState)
    requires TaskOk(s, s.current) && s.tcb[s.current].tskstat == RUN
    ensures s.heads.at[s.current] == On(ReadyQ(s.tcb[s.current].itskpri))
  {
  }

  lemma BlockTimedTask(s: KState, j: KState, kind: Kind, tmo: int, t: TaskId)
    requires TimedOk(s, t) && j.heads == s.heads && j.mtimecmp == s.mtimecmp && j.current == s.current
    requires t != s.current ==> j.tcb[t] == s.tcb[t] && j.hist.task[t] == s.hist.task[t]
    ensures TimedOk(Block(j, kind, tmo), t)
  {
    hide Block, Pending;
    BlockIs(j, kind, tmo, Block(j, kind, tmo), t);
  }

  /** The deadline of the new wait is the one recorded, and those of the others stay. */
  lemma BlockTimed(s: KState, j: KState, kind: Kind, tmo: int)
    requires ReadyToWait(s, j, kind) && (forall t: TaskId :: TimedOk(s, t))
    ensures forall t: TaskId :: TimedOk(Block(j, kind, tmo), t)
  {
    forall t: TaskId ensures TimedOk(Block(j, kind, tmo), t) {
      assert TimedOk(s, t);
      BlockTimedTask(s, j, kind, tmo, t);
    }
  }
}
