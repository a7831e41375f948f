/** The choice of the next task, and how a step that ends in it restores the invariant. */
module Scheduling {
  import opened Types
  import opened Rings
  import opened KernelState
  import opened KernelOps
  import opened Frames
  import opened WaitEnd

  /** The highest-priority task is the head of a ready queue, and every queue of a higher priority is empty. */
  lemma {:induction false} HighestFromIs(h: Rings<HQ>, p: Pri)
    ensures match HighestFrom(h, p)
            case Some(t) => exists q: Pri :: p <= q && h.Get(ReadyQ(q)) != [] && h.Get(ReadyQ(q))[0] == t
                                             && forall r: Pri :: p <= r < q ==> h.Get(ReadyQ(r)) == []
            case None => forall q: Pri :: p <= q ==> h.Get(ReadyQ(q)) == []
    decreases CFN_MAX_PRI - p
  {
    if h.Get(ReadyQ(p)) == [] && p < CFN_MAX_PRI {
      HighestFromIs(h, p + 1);
    }
  }

  lemma ReadyPlaces(s: KState, t: TaskId, p: Pri)
    requires Coherent(s.heads) && TaskOk(s, t)
    ensures t in s.heads.Get(ReadyQ(p)) <==> Runnable(s, t) && s.tcb[t].itskpri == p
  {
  }

  lemma RunnableReady(s: KState, t: TaskId)
    requires Core(s) && Runnable(s, t)
    ensures t in ReadyAt(s, s.tcb[t].itskpri)
  {
    CoreGives(s);
    ReadyPlaces(s, t, s.tcb[t].itskpri);
  }

  /** There is always a task to run, and it is ready. */
  lemma HighestExists(s: KState)
    requires Core(s)
    ensures Highest(s).Some? && Runnable(s, Highest(s).value)
    ensures forall t: TaskId :: Runnable(s, t) ==> s.tcb[Highest(s).value].itskpri <= s.tcb[t].itskpri
    ensures var h := Highest(s).value; ReadyAt(s, s.tcb[h].itskpri) != [] && ReadyAt(s, s.tcb[h].itskpri)[0] == h
  {
    hide Core, Coherent, TaskOk, HistOk, FreeOk, ObjectsOk, LinksOk;
    CoreGives(s);
    ReadyPlaces(s, IDLE, s.tcb[IDLE].itskpri);
    HighestFromIs(s.heads, 1);
    var h := Highest(s).value;
    var q: Pri :| s.heads.Get(ReadyQ(q)) != [] && s.heads.Get(ReadyQ(q))[0] == h
                  && forall r: Pri :: 1 <= r < q ==> s.heads.Get(ReadyQ(r)) == [];
    assert h in s.heads.Get(ReadyQ(q));
    ReadyPlaces(s, h, q);
    forall t: TaskId | Runnable(s, t) ensures s.tcb[h].itskpri <= s.tcb[t].itskpri {
      ReadyPlaces(s, t, s.tcb[t].itskpri);
      assert s.heads.Get(ReadyQ(s.tcb[t].itskpri)) != [];
    }
  }

  /** Only the ready queues decide. */
  lemma {:induction false} HighestSame(a: Rings<HQ>, b: Rings<HQ>, p: Pri)
    requires forall q: Pri :: a.Get(ReadyQ(q)) == b.Get(ReadyQ(q))
    ensures HighestFrom(a, p) == HighestFrom(b, p)
    decreases CFN_MAX_PRI - p
  {
    assert a.Get(ReadyQ(p)) == b.Get(ReadyQ(p));
    if p < CFN_MAX_PRI { HighestSame(a, b, p + 1); }
  }

  /** Where ready queues only grow, a task that was the first choice before they grew, and is not the choice
      after, has lost to a higher priority; and one that is the choice after was it before, if it was ready. */
  lemma {:induction false} HighestGrows(a: Rings<HQ>, b: Rings<HQ>, p: Pri, t: TaskId, q: Pri)
    requires forall r: Pri :: a.Get(ReadyQ(r)) <= b.Get(ReadyQ(r))
    requires HighestFrom(b, p) == Some(t) && p <= q && t in a.Get(ReadyQ(q))
    requires Coherent(b)
    ensures HighestFrom(a, p) == Some(t)
    decreases CFN_MAX_PRI - p
  {
    assert a.Get(ReadyQ(p)) <= b.Get(ReadyQ(p)) && a.Get(ReadyQ(q)) <= b.Get(ReadyQ(q));
    if b.Get(ReadyQ(p)) == [] {
      HighestGrows(a, b, p + 1, t, q);
    } else {
      assert t in b.Get(ReadyQ(p)) && t in b.Get(ReadyQ(q));
      assert b.at[t] == On(ReadyQ(p)) == On(ReadyQ(q));
      assert a.Get(ReadyQ(p)) != [] && a.Get(ReadyQ(p))[0] == b.Get(ReadyQ(p))[0];
    }
  }

  /** The state with another choice of the next task and another switch request. */
  function WithChoice(s: KState, n: Option<TaskId>, m: bool): KState {
    s.(next := n, msip := m)
  }

  lemma WithChoiceCore(s: KState, n: Option<TaskId>, m: bool)
    requires Core(s)
    ensures Core(WithChoice(s, n, m))
    ensures AllSettled(s) ==> AllSettled(WithChoice(s, n, m))
  {
    var g := WithChoice(s, n, m);
    forall t: TaskId ensures TaskOk(g, t) && HistOk(g, t) { assert TaskOk(s, t) && HistOk(s, t); }
    SameObjectsOk(s, g);
    if AllSettled(s) { SameObjectsSettled(s, g); }
  }

  /** Only the current task is running, and without a switch request it is. */
  ghost predicate RunsAlone(s: KState) {
    && (forall t: TaskId :: s.tcb[t].tskstat == RUN ==> t == s.current)
    && (!s.msip ==> s.tcb[s.current].tskstat == RUN)
  }

  ghost predicate AllTimed(s: KState) {
    forall t: TaskId :: TimedOk(s, t)
  }

  lemma InvOf(s: KState)
    requires Core(s) && AllSettled(s) && AllTimed(s) && SchedOk(s)
    ensures Inv(s)
  {
  }

  lemma InvTimed(s: KState)
    requires Inv(s)
    ensures AllTimed(s) && SchedOk(s)
  {
  }

  /** A call that ends by choosing the next task, and asking for a switch if that is another one. */
  lemma ReschedInv(s: KState)
    requires Core(s) && AllSettled(s) && AllTimed(s) && RunsAlone(s)
    ensures Inv(Resched(s))
  {
    var g := Resched(s);
    WithChoiceCore(s, g.next, g.msip);
    forall t: TaskId ensures TimedOk(g, t) { assert TimedOk(s, t); }
  }

  lemma DispatchInv(s: KState)
    requires Core(s) && AllSettled(s) && AllTimed(s) && forall t: TaskId :: s.tcb[t].tskstat == RUN ==> t == s.current
    ensures Inv(Dispatch(s))
  {
    var g := Dispatch(s);
    WithChoiceCore(s, g.next, g.msip);
    forall t: TaskId ensures TimedOk(g, t) { assert TimedOk(s, t); }
  }

  /** A call that leaves the ready queues and the running task alone needs no new choice. */
  lemma QuietInv(s: KState, g: KState)
    requires Inv(s) && Core(g) && AllSettled(g) && AllTimed(g)
    requires g.current == s.current && g.next == s.next && g.msip == s.msip
    requires forall t: TaskId :: g.tcb[t].tskstat == RUN <==> s.tcb[t].tskstat == RUN
    requires forall p: Pri :: ReadyAt(g, p) == ReadyAt(s, p)
    ensures Inv(g)
  {
    forall q: Pri ensures s.heads.Get(ReadyQ(q)) == g.heads.Get(ReadyQ(q)) {
      assert ReadyAt(g, q) == ReadyAt(s, q);
    }
    HighestSame(s.heads, g.heads, 1);
  }

  lemma EndsTimed(s: KState, r: KState)
    requires AllTimed(s) && LinksOk(r) && Ends(s, r)
    ensures AllTimed(r)
  {
    forall t: TaskId ensures TimedOk(r, t) {
      assert TimedOk(s, t) && SameOrEnded(s, r, t) && TaskOk(r, t);
    }
  }

  lemma EndsRunsAlone(s: KState, r: KState)
    requires SchedOk(s) && Ends(s, r)
    ensures RunsAlone(r)
  {
    forall t: TaskId ensures r.tcb[t].tskstat == RUN <==> s.tcb[t].tskstat == RUN {
      assert SameOrEnded(s, r, t);
    }
  }

  /** A call that ended waits and then chooses the next task. */
  lemma EndsInv(s: KState, r: KState)
    requires Inv(s) && Core(r) && AllSettled(r) && Ends(s, r)
    ensures Inv(Resched(r))
  {
    EndsTimed(s, r);
    EndsRunsAlone(s, r);
    ReschedInv(r);
  }
}
