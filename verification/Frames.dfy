/** Changes that leave the wait queues, or everything but one control block, as they were. */
module Frames {
  import opened Types
  import opened Rings
  import opened KernelState

  lemma InvGives(s: KState)
    requires Inv(s)
    ensures Core(s) && LinksOk(s) && AllSettled(s)
  {
  }

  lemma InvGivesTask(s: KState, t: TaskId)
    requires Inv(s)
    ensures TaskOk(s, t) && HistOk(s, t) && TimedOk(s, t)
  {
  }

  lemma CoreGives(s: KState)
    requires Core(s)
    ensures LinksOk(s) && ObjectsOk(s) && FreeOk(s) && IdleOk(s) && s.mtimecmp <= s.now + TICK_COUNTS
    ensures Coherent(s.heads) && Coherent(s.waits)
    ensures forall t: TaskId :: TaskOk(s, t) && HistOk(s, t)
  {
    assert forall t: TaskId :: TaskOk(s, t);
  }

  lemma CoreLinks(s: KState)
    requires Core(s)
    ensures LinksOk(s)
  {
  }

  /** Of each part of the invariant of a step, one fact; together they are the whole. */
  lemma CoreParts(s: KState)
    requires Core(s)
    ensures forall w: WQ :: QueueOk(s, w)
    ensures forall q: SemId :: SemOk(s, q)
    ensures forall f: FlgId :: FlgOk(s, f)
    ensures forall m: MbxId :: MbxOk(s, m)
  {
    hide TaskOk, HistOk, Coherent, QueueOk, SemOk, FlgOk, MbxOk;
  }

  lemma CoreOf(s: KState)
    requires Coherent(s.heads) && Coherent(s.waits) && FreeOk(s) && IdleOk(s) && s.mtimecmp <= s.now + TICK_COUNTS
    requires forall t: TaskId :: TaskOk(s, t) && HistOk(s, t)
    requires forall w: WQ :: QueueOk(s, w)
    requires forall q: SemId :: SemOk(s, q)
    requires forall f: FlgId :: FlgOk(s, f)
    requires forall m: MbxId :: MbxOk(s, m)
    ensures Core(s)
  {
    hide TaskOk, HistOk, Coherent, QueueOk, SemOk, FlgOk, MbxOk, FreeOk, IdleOk;
    assert forall t: TaskId :: TaskOk(s, t);
  }

  /** A change of the links and the tasks keeps the invariant of a step if it keeps its parts. */
  lemma CoreFrom(s: KState, b: KState)
    requires Core(s) && b.sem == s.sem && b.flg == s.flg && b.mbx == s.mbx
    requires b.freeSem == s.freeSem && b.freeFlg == s.freeFlg && b.freeMbx == s.freeMbx
    requires b.mtimecmp <= b.now + TICK_COUNTS
    requires Coherent(b.heads) && Coherent(b.waits) && IdleOk(b) && ObjectsOk(b)
    requires forall t: TaskId :: TaskOk(b, t) && HistOk(b, t)
    ensures Core(b)
  {
    hide ObjectsOk, TaskOk, HistOk, Coherent, IdleOk;
    assert FreeOk(b);
    assert forall t: TaskId :: TaskOk(b, t);
  }

  /** The wait objects and what their waiters asked for are as they were. */
  ghost predicate SameObjects(j: KState, b: KState) {
    && (forall w :: Waiters(b, w) == Waiters(j, w))
    && b.sem == j.sem && b.flg == j.flg && b.mbx == j.mbx
    && b.hist.sem == j.hist.sem && b.hist.mbx == j.hist.mbx && b.hist.arrivals == j.hist.arrivals
    && forall t: TaskId :: j.waits.at[t].On? ==>
         b.tcb[t].itskpri == j.tcb[t].itskpri && b.tcb[t].winfo == j.tcb[t].winfo
         && b.hist.task[t].ticket == j.hist.task[t].ticket
  }

  lemma SameObjectsOk(j: KState, b: KState)
    requires Coherent(j.waits) && ObjectsOk(j) && SameObjects(j, b)
    ensures ObjectsOk(b)
  {
    forall w: WQ ensures QueueOk(b, w) { SameQueue(j, b, w); }
    forall q: SemId ensures SemOk(b, q) { assert SemOk(j, q) && Waiters(b, SemQ(q)) == Waiters(j, SemQ(q)); }
    forall f: FlgId ensures FlgOk(b, f) { assert FlgOk(j, f); }
    forall m: MbxId ensures MbxOk(b, m) { assert MbxOk(j, m); }
  }

  lemma SameQueue(j: KState, b: KState, w: WQ)
    requires Coherent(j.waits) && QueueOk(j, w) && SameObjects(j, b)
    ensures QueueOk(b, w)
  {
    var q := Waiters(j, w);
    assert Waiters(b, w) == q;
    forall t | t in q ensures j.waits.at[t].On? { }
    forall i, k | 0 <= i < k < |q| ensures Before(b, PriorityOrdered(b, w), q[i], q[k]) {
      assert q[i] in q && q[k] in q && Before(j, PriorityOrdered(j, w), q[i], q[k]);
    }
  }

  lemma SameObjectsSettled(j: KState, b: KState)
    requires Coherent(j.waits) && AllSettled(j) && SameObjects(j, b)
    ensures AllSettled(b)
  {
    forall q: SemId ensures Settled(b, q) { assert Settled(j, q) && Waiters(b, SemQ(q)) == Waiters(j, SemQ(q)); }
    forall f: FlgId ensures FlgSettled(b, f) { assert FlgSettled(j, f) && Waiters(b, FlgQ(f)) == Waiters(j, FlgQ(f)); }
  }

  /** The state with another record and history for task t, on the same queues. */
  function WithTask(s: KState, t: TaskId, c: Tcb, h: TaskHist): KState {
    s.(tcb := s.tcb[t := c], hist := s.hist.(task := s.hist.task[t := h]))
  }

  lemma WithTaskCore(s: KState, t: TaskId, c: Tcb, h: TaskHist)
    requires Core(s)
    requires TaskOk(WithTask(s, t, c, h), t) && HistOk(WithTask(s, t, c, h), t)
    requires c.itskpri == s.tcb[t].itskpri && h.ticket == s.hist.task[t].ticket
    requires Waiting(s, t) ==> c.winfo == s.tcb[t].winfo
    requires t == IDLE ==> c.tskstat in {RDY, RUN}
    ensures Core(WithTask(s, t, c, h))
  {
    var g := WithTask(s, t, c, h);
    assert TaskOk(s, t);
    forall u: TaskId ensures TaskOk(g, u) && HistOk(g, u) { assert TaskOk(s, u) && HistOk(s, u); }
    SameObjectsOk(s, g);
  }

  lemma WithTaskSettled(s: KState, t: TaskId, c: Tcb, h: TaskHist)
    requires LinksOk(s) && AllSettled(s) && c.itskpri == s.tcb[t].itskpri && h.ticket == s.hist.task[t].ticket
    requires Waiting(s, t) ==> c.winfo == s.tcb[t].winfo
    ensures AllSettled(WithTask(s, t, c, h))
  {
    assert TaskOk(s, t);
    SameObjectsSettled(s, WithTask(s, t, c, h));
  }

  /** The state with another control block and history for semaphore q. */
  function WithSem(s: KState, q: SemId, c: Semcb, h: SemHist): KState {
    s.(sem := s.sem[q := c], hist := s.hist.(sem := s.hist.sem[q := h]))
  }

  lemma WithSemCore(s: KState, q: SemId, c: Semcb, h: SemHist)
    requires Core(s) && SemOk(WithSem(s, q, c, h), q)
    requires c.live == s.sem[q].live && c.tpri == s.sem[q].tpri
    ensures Core(WithSem(s, q, c, h))
  {
    hide Core, LinksOk, ObjectsOk, Coherent;
    CoreGives(s);
    CoreParts(s);
    var g := WithSem(s, q, c, h);
    forall u: TaskId ensures TaskOk(g, u) && HistOk(g, u) { assert TaskOk(s, u) && HistOk(s, u); }
    forall w ensures Waiters(g, w) == Waiters(s, w) { }
    forall w: WQ ensures QueueOk(g, w) { assert QueueOk(s, w); }
    forall p: SemId ensures SemOk(g, p) { assert SemOk(s, p) && Waiters(g, SemQ(p)) == Waiters(s, SemQ(p)); }
    forall f: FlgId ensures FlgOk(g, f) { assert FlgOk(s, f); }
    forall m: MbxId ensures MbxOk(g, m) { assert MbxOk(s, m); }
    CoreOf(g);
  }

  /** The state with another control block for flag f. */
  function WithFlg(s: KState, f: FlgId, c: Flgcb): KState {
    s.(flg := s.flg[f := c])
  }

  lemma WithFlgCore(s: KState, f: FlgId, c: Flgcb)
    requires Core(s) && c.live == s.flg[f].live && c.tpri == s.flg[f].tpri && c.wmul == s.flg[f].wmul
    ensures Core(WithFlg(s, f, c))
  {
    hide Core, LinksOk, ObjectsOk, Coherent;
    CoreGives(s);
    CoreParts(s);
    var g := WithFlg(s, f, c);
    forall u: TaskId ensures TaskOk(g, u) && HistOk(g, u) { assert TaskOk(s, u) && HistOk(s, u); }
    forall w: WQ ensures QueueOk(g, w) { assert QueueOk(s, w); }
    forall p: SemId ensures SemOk(g, p) { assert SemOk(s, p) && Waiters(g, SemQ(p)) == Waiters(s, SemQ(p)); }
    forall e: FlgId ensures FlgOk(g, e) { assert FlgOk(s, e); }
    forall m: MbxId ensures MbxOk(g, m) { assert MbxOk(s, m); }
    CoreOf(g);
  }

  /** The state with another control block and history for mailbox m. */
  function WithMbx(s: KState, m: MbxId, c: Mbxcb, h: MbxHist): KState {
    s.(mbx := s.mbx[m := c], hist := s.hist.(mbx := s.hist.mbx[m := h]))
  }

  lemma WithMbxCore(s: KState, m: MbxId, c: Mbxcb, h: MbxHist)
    requires Core(s) && MbxOk(WithMbx(s, m, c, h), m)
    requires c.live == s.mbx[m].live && c.tpri == s.mbx[m].tpri
    ensures Core(WithMbx(s, m, c, h))
  {
    hide Core, LinksOk, ObjectsOk, Coherent;
    CoreGives(s);
    CoreParts(s);
    var g := WithMbx(s, m, c, h);
    forall u: TaskId ensures TaskOk(g, u) && HistOk(g, u) { assert TaskOk(s, u) && HistOk(s, u); }
    forall w: WQ ensures QueueOk(g, w) { assert QueueOk(s, w); }
    forall p: SemId ensures SemOk(g, p) { assert SemOk(s, p) && Waiters(g, SemQ(p)) == Waiters(s, SemQ(p)); }
    forall f: FlgId ensures FlgOk(g, f) { assert FlgOk(s, f); }
    forall n: MbxId ensures MbxOk(g, n) { assert MbxOk(s, n) && Waiters(g, MbxQ(n)) == Waiters(s, MbxQ(n)); }
    CoreOf(g);
  }
}
