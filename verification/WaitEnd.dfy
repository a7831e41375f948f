/** The end of a wait: what tkmc_complete_wait and the walks that call it keep and change. */
module WaitEnd {
  import opened Types
  import opened Rings
  import opened KernelState
  import opened KernelOps
  import opened Frames

  lemma OrderedWithout(s: KState, tpri: bool, q: seq<TaskId>, t: TaskId)
    requires Ordered(s, tpri, q) && NoDup(q)
    ensures Ordered(s, tpri, Without(q, t))
  {
    if t in q {
      var i :| 0 <= i < |q| && q[i] == t;
      WithoutIsCut(q, i);
    } else {
      WithoutAbsent(q, t);
    }
  }

  /** No task has moved to another priority or another place in the order of arrivals. */
  ghost predicate SamePlaces(s: KState, s': KState) {
    && s.hist.arrivals == s'.hist.arrivals
    && forall t: TaskId :: s.tcb[t].itskpri == s'.tcb[t].itskpri && s.hist.task[t].ticket == s'.hist.task[t].ticket
  }

  lemma QueueKept(s: KState, s': KState, w: WQ, t: TaskId)
    requires QueueOk(s, w) && Coherent(s.waits) && SamePlaces(s, s')
    requires PriorityOrdered(s, w) == PriorityOrdered(s', w)
    requires Waiters(s', w) == Without(Waiters(s, w), t)
    ensures QueueOk(s', w)
  {
    assert NoDup(s.waits.Get(w));
    OrderedWithout(s, PriorityOrdered(s, w), Waiters(s, w), t);
  }

  lemma ReleaseWaits(s: KState, t: TaskId, cause: ER)
    requires Coherent(s.waits)
    ensures Coherent(Release(s, t, cause).waits)
    ensures forall w :: Waiters(Release(s, t, cause), w) == Without(Waiters(s, w), t)
  {
    DelCoherent(s.waits, t);
    InitCoherent(s.waits.Del(t), t);
    forall w ensures Waiters(Release(s, t, cause), w) == Without(Waiters(s, w), t) {
      if s.waits.at[t] != On(w) { WithoutAbsent(Waiters(s, w), t); }
    }
  }

  function Left(h: Rings<HQ>, t: TaskId): Rings<HQ> {
    if h.at[t].Detached? then h else h.Del(t)
  }

  lemma LeftCoherent(h: Rings<HQ>, t: TaskId)
    requires Coherent(h)
    ensures Coherent(Left(h, t)) == true
    ensures forall p :: Left(h, t).Get(p) == if h.at[t] == On(p) then Without(h.Get(p), t) else h.Get(p)
  {
    DelCoherent(h, t);
  }

  lemma MoveToTail(h: Rings<HQ>, t: TaskId, q: HQ, r: Rings<HQ>)
    requires Coherent(h) && h.at[t] != Poison && r == Left(h, t).AddTail(t, q)
    ensures Coherent(r) == true
    ensures forall p :: r.Get(p) == (if h.at[t] == On(p) then Without(h.Get(p), t) else h.Get(p)) + if p == q then [t] else []
  {
    var l := Left(h, t);
    LeftCoherent(h, t);
    AddTailIsPut(l, t, q);
    PutCoherent(l, t, q, |l.Get(q)|);
  }

  lemma ReleaseHeads(s: KState, t: TaskId, cause: ER)
    requires Coherent(s.heads)
    requires s.heads.at[t] == On(TimerQ) || s.heads.at[t].Detached?
    ensures Coherent(Release(s, t, cause).heads) == true
    ensures forall p :: ReadyAt(Release(s, t, cause), p) == ReadyAt(s, p) + if p == s.tcb[t].itskpri then [t] else []
    ensures Timed(Release(s, t, cause)) == Without(Timed(s), t)
    ensures Release(s, t, cause).heads.Get(FreeQ) == s.heads.Get(FreeQ)
  {
    MoveToTail(s.heads, t, ReadyQ(s.tcb[t].itskpri), Release(s, t, cause).heads);
    hide Release, Coherent;
    if s.heads.at[t] != On(TimerQ) { WithoutAbsent(Timed(s), t); }
  }

  /** What Release changes of the queues: the task leaves the timer and wait queues it is on and joins the tail
      of its ready queue. */
  lemma ReleaseLinks(s: KState, t: TaskId, cause: ER)
    requires LinksOk(s) && Waiting(s, t)
    ensures LinksOk(Release(s, t, cause))
    ensures forall w :: Waiters(Release(s, t, cause), w) == Without(Waiters(s, w), t)
    ensures forall p :: ReadyAt(Release(s, t, cause), p) == ReadyAt(s, p) + if p == s.tcb[t].itskpri then [t] else []
    ensures Timed(Release(s, t, cause)) == Without(Timed(s), t)
    ensures Release(s, t, cause).heads.Get(FreeQ) == s.heads.Get(FreeQ)
  {
    assert TaskOk(s, t);
    ReleaseWaits(s, t, cause);
    ReleaseHeads(s, t, cause);
    forall u: TaskId ensures TaskOk(Release(s, t, cause), u) {
      ReleaseTask(s, t, cause, u);
    }
    hide TaskOk, Release, Coherent;
  }

  lemma ReleaseTask(s: KState, t: TaskId, cause: ER, u: TaskId)
    requires TaskOk(s, t) && TaskOk(s, u) && Waiting(s, t)
    ensures TaskOk(Release(s, t, cause), u)
  {
  }

  lemma ReleaseCore(s: KState, t: TaskId, cause: ER)
    requires Core(s) && Waiting(s, t)
    ensures Core(Release(s, t, cause))
  {
    var r := Release(s, t, cause);
    CoreGives(s);
    ReleaseLinks(s, t, cause);
    ReleaseObjects(s, t, cause, r);
    ReleaseHist(s, t, cause, r);
    assert Coherent(r.heads) && Coherent(r.waits) && forall u: TaskId :: TaskOk(r, u);
    assert TaskOk(s, IDLE) && IdleOk(r);
    hide TaskOk, HistOk, Coherent, LinksOk, ObjectsOk, IdleOk, Core;
    CoreFrom(s, r);
  }

  lemma ReleaseHist(s: KState, t: TaskId, cause: ER, r: KState)
    requires Core(s) && Waiting(s, t) && r == Release(s, t, cause)
    ensures forall u: TaskId :: HistOk(r, u)
  {
    hide Core, Coherent, ObjectsOk, TaskOk, LinksOk;
    CoreGives(s);
    forall u: TaskId ensures HistOk(r, u) { assert HistOk(s, u); }
  }

  lemma ReleaseObjects(s: KState, t: TaskId, cause: ER, r: KState)
    requires Core(s) && Waiting(s, t) && r == Release(s, t, cause)
    ensures ObjectsOk(r)
  {
    hide Core, HistOk;
    CoreGives(s);
    ReleaseLinks(s, t, cause);
    hide LinksOk, TaskOk, Coherent, FreeOk;
    forall w: WQ ensures QueueOk(r, w) { QueueKept(s, r, w, t); }
    forall q: SemId ensures SemOk(r, q) { assert SemOk(s, q); }
    forall f: FlgId ensures FlgOk(r, f) { assert FlgOk(s, f); }
    forall m: MbxId ensures MbxOk(r, m) { assert MbxOk(s, m); }
  }

  /** A departure strands nobody at another semaphore. */
  lemma ReleaseSettled(s: KState, t: TaskId, cause: ER, q: SemId)
    requires Core(s) && Waiting(s, t) && Settled(s, q) && s.waits.at[t] != On(SemQ(q))
    ensures Settled(Release(s, t, cause), q)
  {
    ReleaseLinks(s, t, cause);
    WithoutAbsent(Waiters(s, SemQ(q)), t);
  }

  /* ---- what any number of ended waits changes ---- */

  /** The causes a wait can end with. */
  predicate IsCause(c: ER) {
    c in {E_OK, E_TMOUT, E_RLWAI, E_DLT}
  }

  /** A task is as it was, or it was waiting and is now ready at the tail of its queue. */
  predicate SameOrEnded(s: KState, s': KState, t: TaskId) {
    || (s'.tcb[t] == s.tcb[t] && s'.heads.at[t] == s.heads.at[t] && s'.waits.at[t] == s.waits.at[t])
    || (Waiting(s, t) && IsCause(s'.tcb[t].wupcause)
        && s'.tcb[t] == s.tcb[t].(delay := 0, tskwait := NoWait, tskstat := RDY,
                                  wupcause := s'.tcb[t].wupcause, winfo := s'.tcb[t].winfo))
  }

  /** Waits have ended; ready queues only grew at their tails. */
  ghost predicate Ends(s: KState, s': KState) {
    (&& (forall t: TaskId :: SameOrEnded(s, s', t))
     && (forall p: Pri :: ReadyAt(s, p) <= ReadyAt(s', p))
     && (forall w, t :: t in Waiters(s', w) ==> t in Waiters(s, w))
     && Thinner(Timed(s'), Timed(s))
     && s'.current == s.current && s'.next == s.next && s'.msip == s.msip
     && s'.now == s.now && s'.mtimecmp == s.mtimecmp && s'.hist.task == s.hist.task) == true
  }

  lemma EndsTransitive(a: KState, b: KState, c: KState)
    requires Ends(a, b) && Ends(b, c)
    ensures Ends(a, c)
  {
    forall t: TaskId ensures SameOrEnded(a, c, t) {
      assert SameOrEnded(a, b, t) && SameOrEnded(b, c, t);
    }
    forall p: Pri ensures ReadyAt(a, p) <= ReadyAt(c, p) {
      assert ReadyAt(a, p) <= ReadyAt(b, p);
    }
  }

  lemma ReleaseEnds(s: KState, t: TaskId, cause: ER)
    requires LinksOk(s) && Waiting(s, t) && IsCause(cause)
    ensures Ends(s, Release(s, t, cause))
  {
    ReleaseLinks(s, t, cause);
    WithoutIsThinner(Timed(s), t);
  }

  /* ---- serving a semaphore ---- */

  lemma GrantCore(s: KState, q: SemId, t: TaskId)
    requires Core(s) && t in Waiters(s, SemQ(q)) && s.sem[q].semcnt >= Req(s, t)
    ensures Waiting(s, t)
    ensures Core(Grant(s, q, t)) && Ends(s, Grant(s, q, t))
    ensures Waiters(Grant(s, q, t), SemQ(q)) == Without(Waiters(s, SemQ(q)), t)
    ensures forall w :: w != SemQ(q) ==> Waiters(Grant(s, q, t), w) == Waiters(s, w)
  {
    hide Core;
    CoreGives(s);
    WaiterWaits(s, SemQ(q), t);
    assert 1 <= Req(s, t) by { assert SemOk(s, q); }
    hide ObjectsOk, TaskOk, FreeOk, Ends, LinksOk;
    var r := Release(s, t, E_OK);
    ReleaseCore(s, t, E_OK);
    ReleaseLinks(s, t, E_OK);
    ReleaseEnds(s, t, E_OK);
    forall w | w != SemQ(q) ensures Waiters(r, w) == Waiters(s, w) { WithoutAbsent(Waiters(s, w), t); }
    var g := Grant(s, q, t);
    assert g == WithSem(r, q, g.sem[q], g.hist.sem[q]);
    assert SemOk(g, q) by { CoreGivesSem(r, q); }
    hide Release, Grant;
    WithSemCore(r, q, g.sem[q], g.hist.sem[q]);
    WithSemEnds(s, r, q, g.sem[q], g.hist.sem[q]);
  }

  lemma WithSemEnds(s: KState, r: KState, q: SemId, c: Semcb, h: SemHist)
    requires Ends(s, r)
    ensures Ends(s, WithSem(r, q, c, h))
  {
    var g := WithSem(r, q, c, h);
    forall u: TaskId ensures SameOrEnded(s, g, u) { assert SameOrEnded(s, r, u); }
    forall p: Pri ensures ReadyAt(s, p) <= ReadyAt(g, p) { assert ReadyAt(s, p) <= ReadyAt(r, p); }
  }

  /** Of a request that units may cover: it was served, or it still asks for more. */
  ghost predicate Passed(s: KState, q: SemId, rest: seq<TaskId>) {
    && NoDup(rest)
    && (forall t :: t in rest ==> t in Waiters(s, SemQ(q)))
    && (forall t :: t in Waiters(s, SemQ(q)) ==> t in rest || Req(s, t) > s.sem[q].semcnt)
    && (!s.sem[q].cntOrder ==> rest == Waiters(s, SemQ(q)))
  }

  ghost predicate Suffix<T>(a: seq<T>, b: seq<T>) {
    |a| <= |b| && a == b[|b| - |a|..]
  }

  /** What serving semaphore q does: waits end, only at q and with E_OK, the other semaphores are as they were,
      and under TA_FIRST those served are the first of the queue. */
  ghost predicate ServeEffect(s: KState, r: KState, q: SemId) {
    (&& Core(r) && Ends(s, r)
     && (forall w :: w != SemQ(q) ==> Waiters(r, w) == Waiters(s, w))
     && (forall p: SemId :: p != q ==> r.sem[p] == s.sem[p])
     && r.sem[q].(semcnt := s.sem[q].semcnt) == s.sem[q] && r.sem[q].semcnt <= s.sem[q].semcnt
     && r.flg == s.flg && r.mbx == s.mbx
     && (!s.sem[q].cntOrder ==> Suffix(Waiters(r, SemQ(q)), Waiters(s, SemQ(q))))
     && (forall t: TaskId :: if t in Waiters(s, SemQ(q)) && t !in Waiters(r, SemQ(q))
                             then r.tcb[t].tskstat == RDY && r.tcb[t].wupcause == E_OK
                             else r.tcb[t] == s.tcb[t])) == true
  }

  lemma GrantEffect(s: KState, q: SemId, t: TaskId)
    requires Core(s) && t in Waiters(s, SemQ(q)) && s.sem[q].semcnt >= Req(s, t)
    requires !s.sem[q].cntOrder ==> Waiters(s, SemQ(q))[0] == t
    ensures ServeEffect(s, Grant(s, q, t), q)
  {
    hide Core, Ends;
    CoreGives(s);
    CoreGivesSem(s, q);
    GrantCore(s, q, t);
    assert NoDup(s.waits.Get(SemQ(q)));
    WithoutHead(Waiters(s, SemQ(q)), t, !s.sem[q].cntOrder);
    hide ObjectsOk, TaskOk, LinksOk, FreeOk, Coherent;
  }

  lemma ServeEffectTransitive(a: KState, b: KState, c: KState, q: SemId)
    requires ServeEffect(a, b, q) && ServeEffect(b, c, q)
    ensures ServeEffect(a, c, q)
  {
    EndsTransitive(a, b, c);
    forall t: TaskId
      ensures if t in Waiters(a, SemQ(q)) && t !in Waiters(c, SemQ(q))
              then c.tcb[t].tskstat == RDY && c.tcb[t].wupcause == E_OK else c.tcb[t] == a.tcb[t]
    {
      assert SameOrEnded(b, c, t);
    }
  }

  lemma {:induction false} ServeFromKeeps(s: KState, q: SemId, rest: seq<TaskId>)
    requires Core(s) && Passed(s, q, rest)
    ensures ServeEffect(s, ServeFrom(s, q, rest), q)
    ensures Settled(ServeFrom(s, q, rest), q)
    decreases rest
  {
    hide Core, Ends, ServeEffect, Grant;
    if rest == [] {
      ServeNone(s, q);
    } else {
      var t := rest[0];
      if s.sem[q].semcnt < Req(s, t) {
        if s.sem[q].cntOrder { ServeFromKeeps(s, q, rest[1..]); } else { ServeNone(s, q); }
      } else {
        var g := Grant(s, q, t);
        GrantEffect(s, q, t);
        GrantKeepsPassed(s, q, rest, t);
        hide Settled, Passed;
        if g.sem[q].semcnt <= 0 {
          UsedUp(g, q);
        } else {
          ServeFromKeeps(g, q, rest[1..]);
          ServeEffectTransitive(s, g, ServeFrom(g, q, rest[1..]), q);
        }
      }
    }
  }

  lemma ServeNone(s: KState, q: SemId)
    requires Core(s)
    ensures ServeEffect(s, s, q)
  {
    hide Core, Ends;
    SameEnds(s);
  }

  lemma SameEnds(s: KState)
    ensures Ends(s, s)
  {
    SameThinner(Timed(s));
  }

  lemma SameThinner(q: seq<TaskId>)
    ensures Thinner(q, q)
  {
  }

  /** Where no unit is left, nobody is held back. */
  lemma UsedUp(s: KState, q: SemId)
    requires Core(s) && s.sem[q].semcnt <= 0
    ensures Settled(s, q)
  {
    CoreGivesSem(s, q);
  }

  lemma CoreGivesSem(s: KState, q: SemId)
    requires Core(s)
    ensures SemOk(s, q)
  {
    hide TaskOk, HistOk, Coherent;
  }

  /** Before the walk nobody is passed. */
  lemma AllToPass(s: KState, q: SemId)
    requires LinksOk(s)
    ensures Passed(s, q, Waiters(s, SemQ(q))) == true
  {
    assert NoDup(s.waits.Get(SemQ(q)));
  }

  lemma SkipPasses(s: KState, q: SemId, rest: seq<TaskId>)
    requires Passed(s, q, rest) == true && rest != [] && s.sem[q].semcnt < Req(s, rest[0]) && s.sem[q].cntOrder
    ensures Passed(s, q, rest[1..]) == true
  {
  }

  lemma GrantKeepsPassed(s: KState, q: SemId, rest: seq<TaskId>, t: TaskId)
    requires Core(s) && Passed(s, q, rest) == true && rest != [] && t == rest[0] && s.sem[q].semcnt >= Req(s, t)
    ensures Waiting(s, t) && Core(Grant(s, q, t)) && Passed(Grant(s, q, t), q, rest[1..]) == true
  {
    GrantCore(s, q, t);
    GrantPasses(s, q, rest);
  }

  lemma OnOneQueue(s: KState, w: WQ, v: WQ, t: TaskId)
    requires Coherent(s.waits) && t in Waiters(s, w) && w != v
    ensures t !in Waiters(s, v) && s.waits.at[t] == On(w)
  {
    var l := s.waits.at[t];
    assert t in s.waits.Get(w);
    assert t in s.waits.Get(v) ==> l == On(v);
  }

  lemma WaiterWaits(s: KState, w: WQ, t: TaskId)
    requires LinksOk(s) && t in Waiters(s, w)
    ensures Waiting(s, t)
  {
    assert t in s.waits.Get(w) && TaskOk(s, t);
  }

  lemma GrantReqs(s: KState, q: SemId, t: TaskId)
    ensures forall u: TaskId :: Req(Grant(s, q, t), u) == Req(s, u)
    ensures Grant(s, q, t).sem[q] == s.sem[q].(semcnt := s.sem[q].semcnt - Req(s, t))
  {
  }

  lemma GrantPasses(s: KState, q: SemId, rest: seq<TaskId>)
    requires Core(s) && Passed(s, q, rest) && rest != [] && s.sem[q].semcnt >= Req(s, rest[0])
    ensures Passed(Grant(s, q, rest[0]), q, rest[1..])
  {
    hide Core, Ends;
    var t := rest[0];
    CoreGives(s);
    CoreGivesSem(s, q);
    assert NoDup(s.waits.Get(SemQ(q)));
    GrantCore(s, q, t);
    hide ObjectsOk, TaskOk, FreeOk, LinksOk, Coherent;
    GrantReqs(s, q, t);
    hide Grant;
    WithoutHead(Waiters(s, SemQ(q)), t, !s.sem[q].cntOrder);
  }

  lemma WithoutHead(q: seq<TaskId>, t: TaskId, head: bool)
    requires t in q && NoDup(q) && (head ==> q[0] == t)
    ensures head ==> Without(q, t) == q[1..]
  {
    if head { WithoutAbsent(q[1..], t); }
  }

  /* ---- tkmc_complete_wait ---- */

  /** The causes a wait of each kind may end with: a semaphore wait ends with E_OK only through Grant, and with
      E_DLT only as the semaphore goes. */
  predicate CauseFits(s: KState, t: TaskId, cause: ER) {
    IsCause(cause) && (s.tcb[t].tskwait == SEM ==> cause in {E_TMOUT, E_RLWAI})
  }

  lemma ReleaseTimed(s: KState, t: TaskId, cause: ER)
    requires LinksOk(s) && Waiting(s, t)
    ensures t !in Timed(Release(s, t, cause))
    ensures t in Timed(s) ==> |Timed(Release(s, t, cause))| < |Timed(s)|
  {
    ReleaseLinks(s, t, cause);
    if t in Timed(s) {
      assert NoDup(s.heads.Get(TimerQ));
      WithoutIsCut(Timed(s), Index(Timed(s), t));
    }
  }

  /** With E_OK or E_DLT a departure serves nobody. */
  lemma OnlyReleases(s: KState, t: TaskId, cause: ER)
    requires cause in {E_OK, E_DLT}
    ensures CompleteWait(s, t, cause) == Release(s, t, cause)
  {
  }

  lemma GrantIs(s: KState, q: SemId, t: TaskId)
    ensures var r := Release(s, t, E_OK);
            Grant(s, q, t) == r.(sem := r.sem[q := r.sem[q].(semcnt := r.sem[q].semcnt - Req(s, t))],
                                 hist := r.hist.(sem := r.hist.sem[q := r.hist.sem[q].(granted := r.hist.sem[q].granted + Req(s, t))]))
  {
  }

  /** Every way a wait ends keeps the invariant and takes the task off the timer queue. */
  lemma CompleteWaitKeeps(s: KState, t: TaskId, cause: ER)
    requires Core(s) && Waiting(s, t) && CauseFits(s, t, cause)
    ensures Core(CompleteWait(s, t, cause)) && Ends(s, CompleteWait(s, t, cause))
    ensures CompleteWait(s, t, cause).tcb[t].tskstat == RDY && CompleteWait(s, t, cause).tcb[t].wupcause == cause
    ensures t !in Timed(CompleteWait(s, t, cause))
    ensures t in Timed(s) ==> |Timed(CompleteWait(s, t, cause))| < |Timed(s)|
  {
    hide Core, Ends;
    CoreGives(s);
    var r := Release(s, t, cause);
    ReleaseCore(s, t, cause);
    ReleaseEnds(s, t, cause);
    ReleaseTimed(s, t, cause);
    hide TaskOk, LinksOk, ObjectsOk, FreeOk;
    if LeavesUnserved(s, t, cause).Some? {
      var q := LeavesUnserved(s, t, cause).value;
      ServeKeeps(r, q);
      EndsTransitive(s, r, Serve(r, q));
      StaysReady(r, Serve(r, q), t);
    }
  }

  /** The end of other waits does nothing to a task that is not waiting. */
  lemma StaysReady(r: KState, c: KState, t: TaskId)
    requires Ends(r, c) && !Waiting(r, t)
    ensures c.tcb[t] == r.tcb[t] && (t !in Timed(r) ==> t !in Timed(c)) && |Timed(c)| <= |Timed(r)|
  {
    assert SameOrEnded(r, c, t);
  }

  /** Both wait for units of one semaphore. */
  predicate SameSem(s: KState, a: TaskId, b: TaskId) {
    && s.tcb[a].tskwait == SEM == s.tcb[b].tskwait
    && s.tcb[a].winfo.SemInfo? && s.tcb[b].winfo.SemInfo? && s.tcb[a].winfo.semcb == s.tcb[b].winfo.semcb
  }

  /** A departure changes nobody else but tasks that are handed units of the semaphore it waited for. */
  lemma OthersServed(s: KState, t: TaskId, cause: ER, c: KState, u: TaskId)
    requires Core(s) && Waiting(s, t) && CauseFits(s, t, cause) && c == CompleteWait(s, t, cause)
    requires u != t && c.tcb[u] != s.tcb[u]
    ensures SameSem(s, t, u) && Waiting(s, u) && c.tcb[u].tskstat == RDY && c.tcb[u].wupcause == E_OK
  {
    var r := Release(s, t, cause);
    ReleaseCore(s, t, cause);
    ReleaseLinks(s, t, cause);
    assert r.tcb[u] == s.tcb[u];
    var q := LeavesUnserved(s, t, cause).value;
    ServedChange(r, q, u);
    SemWaiter(s, q, u);
  }

  lemma ServedChange(r: KState, q: SemId, u: TaskId)
    requires Core(r) && Serve(r, q).tcb[u] != r.tcb[u]
    ensures u in Waiters(r, SemQ(q)) && Serve(r, q).tcb[u].tskstat == RDY && Serve(r, q).tcb[u].wupcause == E_OK
  {
    ServeKeeps(r, q);
  }

  lemma SemWaiter(s: KState, q: SemId, u: TaskId)
    requires LinksOk(s) && u in Waiters(s, SemQ(q))
    ensures Waiting(s, u) && s.tcb[u].tskwait == SEM && s.tcb[u].winfo.SemInfo? && s.tcb[u].winfo.semcb == q
  {
    assert u in s.waits.Get(SemQ(q)) && TaskOk(s, u);
  }

  /** Every way a wait ends strands nobody: the units a departing waiter held back go to those behind it. */
  lemma CompleteWaitSettles(s: KState, t: TaskId, cause: ER, p: SemId)
    requires Core(s) && Waiting(s, t) && CauseFits(s, t, cause) && Settled(s, p)
    ensures Settled(CompleteWait(s, t, cause), p)
  {
    CoreGives(s);
    assert TaskOk(s, t);
    hide Core, LinksOk, ObjectsOk, FreeOk, Coherent, HistOk;
    if LeavesUnserved(s, t, cause).Some? {
      var q := LeavesUnserved(s, t, cause).value;
      if p == q {
        ReleaseCore(s, t, cause);
        ServeKeeps(Release(s, t, cause), q);
      } else {
        OtherSettled(s, t, cause, q, p);
      }
    } else {
      ReleaseSettled(s, t, cause, p);
    }
  }

  lemma OtherSettled(s: KState, t: TaskId, cause: ER, q: SemId, p: SemId)
    requires Core(s) && Waiting(s, t) && s.waits.at[t] == On(SemQ(q)) && p != q && Settled(s, p)
    ensures Settled(Serve(Release(s, t, cause), q), p)
  {
    var r := Release(s, t, cause);
    ReleaseCore(s, t, cause);
    ReleaseSettled(s, t, cause, p);
    ServeKeeps(r, q);
    ServeSettlesOther(r, Serve(r, q), q, p);
  }

  lemma ServeKeeps(s: KState, q: SemId)
    requires Core(s)
    ensures ServeEffect(s, Serve(s, q), q) && Settled(Serve(s, q), q)
  {
    AllToPass(s, q);
    ServeFromKeeps(s, q, Waiters(s, SemQ(q)));
  }

  lemma ServeSettlesOther(s: KState, r: KState, q: SemId, p: SemId)
    requires Core(s) && ServeEffect(s, r, q) && p != q && Settled(s, p)
    ensures Settled(r, p)
  {
    hide Core, Ends;
    hide LinksOk, ObjectsOk, TaskOk, FreeOk;
    CoreGives(s);
    assert Waiters(r, SemQ(p)) == Waiters(s, SemQ(p));
    forall t | t in Waiters(s, SemQ(p)) ensures Req(r, t) == Req(s, t) {
      OnOneQueue(s, SemQ(p), SemQ(q), t);
    }
  }

  /* ---- deleting an object ---- */

  /** What releasing the whole queue w does: its waiters are ready with E_DLT, nothing else has changed. */
  ghost predicate EmptiedEffect(s: KState, r: KState, w: WQ, rest: seq<TaskId>) {
    && Core(r) && Ends(s, r) && Waiters(r, w) == []
    && (forall p :: p != w ==> Waiters(r, p) == Waiters(s, p))
    && r == s.(tcb := r.tcb, heads := r.heads, waits := r.waits)
    && (forall t :: t in rest ==> r.tcb[t].wupcause == E_DLT && r.tcb[t].tskstat == RDY)
    && (forall t: TaskId :: t !in rest ==> r.tcb[t] == s.tcb[t])
  }

  lemma FirstReleased(s: KState, w: WQ, rest: seq<TaskId>)
    requires Core(s) && Waiters(s, w) == rest && rest != []
    ensures var r := Release(s, rest[0], E_DLT);
            Core(r) && Ends(s, r) && Waiters(r, w) == rest[1..] && forall p :: p != w ==> Waiters(r, p) == Waiters(s, p)
    ensures rest[0] !in rest[1..]
  {
    hide Core, Ends, Release;
    var t := rest[0];
    CoreGives(s);
    WaiterWaits(s, w, t);
    hide TaskOk, LinksOk, ObjectsOk, FreeOk;
    ReleaseCore(s, t, E_DLT);
    ReleaseLinks(s, t, E_DLT);
    ReleaseEnds(s, t, E_DLT);
    assert NoDup(s.waits.Get(w));
    WithoutHead(rest, t, true);
    forall p | p != w ensures Waiters(Release(s, t, E_DLT), p) == Waiters(s, p) {
      if t in Waiters(s, p) { OnOneQueue(s, p, w, t); }
      WithoutAbsent(Waiters(s, p), t);
    }
  }

  /** The head of the queue of a deleted object leaves it, and the rest is released as before. */
  lemma HeadReleased(s: KState, w: WQ, t: TaskId)
    requires Core(s) && Waiters(s, w) != [] && t == Waiters(s, w)[0]
    ensures var c := CompleteWait(s, t, E_DLT);
            && Waiting(s, t) && Core(c) && |Waiters(c, w)| < |Waiters(s, w)|
            && ReleaseAll(c, Waiters(c, w)) == ReleaseAll(s, Waiters(s, w))
  {
    hide Core, Ends, Release;
    CoreGives(s);
    WaiterWaits(s, w, t);
    OnlyReleases(s, t, E_DLT);
    hide TaskOk, LinksOk, ObjectsOk, FreeOk, CompleteWait;
    FirstReleased(s, w, Waiters(s, w));
  }

  lemma {:induction false} ReleaseAllKeeps(s: KState, w: WQ, rest: seq<TaskId>)
    requires Core(s) && Waiters(s, w) == rest
    ensures EmptiedEffect(s, ReleaseAll(s, rest), w, rest)
    decreases rest
  {
    hide Core, Ends;
    if rest == [] {
      SameEnds(s);
    } else {
      var r := Release(s, rest[0], E_DLT);
      FirstReleased(s, w, rest);
      ReleaseAllKeeps(r, w, rest[1..]);
      EndsTransitive(s, r, ReleaseAll(r, rest[1..]));
    }
  }

  /** Ended waits leave a flag settled that nobody has set. */
  lemma EndsFlgSettled(s: KState, r: KState, f: FlgId)
    requires LinksOk(s) && LinksOk(r) && Ends(s, r) && r.flg[f] == s.flg[f] && FlgSettled(s, f)
    ensures FlgSettled(r, f)
  {
    forall t | t in Waiters(r, FlgQ(f)) ensures !Satisfied(r, r.flg[f].flgptn, t) {
      assert t in Waiters(s, FlgQ(f));
      assert TaskOk(r, t) && SameOrEnded(s, r, t);
    }
  }

  lemma CompleteWaitAllSettled(s: KState, t: TaskId, cause: ER)
    requires Core(s) && Waiting(s, t) && CauseFits(s, t, cause) && AllSettled(s)
    ensures AllSettled(CompleteWait(s, t, cause))
    ensures CompleteWait(s, t, cause).flg == s.flg && CompleteWait(s, t, cause).mbx == s.mbx
  {
    var r := CompleteWait(s, t, cause);
    CompleteWaitKeeps(s, t, cause);
    if LeavesUnserved(s, t, cause).Some? {
      ReleaseCore(s, t, cause);
      ServeKeeps(Release(s, t, cause), LeavesUnserved(s, t, cause).value);
    }
    forall p: SemId ensures Settled(r, p) { CompleteWaitSettles(s, t, cause, p); }
    forall f: FlgId ensures FlgSettled(r, f) { EndsFlgSettled(s, r, f); }
  }
}
