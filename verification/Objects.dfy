/** What the kernel guarantees of its wait objects: order, conservation, exactly-once delivery, tables. */
module Objects {
  import opened Types
  import opened Rings
  import opened KernelState
  import opened KernelOps
  import opened Frames
  import opened WaitEnd
  import opened Timer
  import opened TimerRuns
  import opened SemCalls
  import opened MbxCalls
  import opened Messages

  /* ---- no overtaking ---- */

  /** w was granted its units between s and r, while u went on waiting for the same semaphore. */
  predicate Overtook(s: KState, r: KState, q: SemId, w: TaskId, u: TaskId) {
    && w in Waiters(s, SemQ(q)) && w !in Waiters(r, SemQ(q)) && r.tcb[w].wupcause == E_OK
    && u in Waiters(s, SemQ(q)) && u in Waiters(r, SemQ(q))
  }

  /** Under TA_FIRST whoever was granted units comes before everybody who still waits, in the order of the queue. */
  ghost predicate InOrder(s: KState, r: KState) {
    forall q: SemId, w: TaskId, u: TaskId :: !s.sem[q].cntOrder && Overtook(s, r, q, w, u) ==> Before(s, s.sem[q].tpri, w, u)
  }

  lemma OrderedBefore(s: KState, q: SemId, w: TaskId, u: TaskId, k: nat)
    requires QueueOk(s, SemQ(q)) && k <= |Waiters(s, SemQ(q))|
    requires w in Waiters(s, SemQ(q)) && w !in Waiters(s, SemQ(q))[k..] && u in Waiters(s, SemQ(q))[k..]
    ensures Before(s, s.sem[q].tpri, w, u)
  {
    var z := Waiters(s, SemQ(q));
    var i := Index(z, w);
    var j := Index(z[k..], u);
    forall n | k <= n < |z| ensures z[n] in z[k..] { assert z[k..][n - k] == z[n]; }
    assert i < k && z[k + j] == u;
  }

  lemma ServeInOrder(s: KState, q: SemId)
    requires Core(s)
    ensures InOrder(s, Serve(s, q))
  {
    var r := Serve(s, q);
    ServeKeeps(s, q);
    assert forall p: SemId :: p != q ==> Waiters(r, SemQ(p)) == Waiters(s, SemQ(p));
    forall p: SemId, w: TaskId, u: TaskId | !s.sem[p].cntOrder && Overtook(s, r, p, w, u) ensures Before(s, s.sem[p].tpri, w, u) {
      if p == q {
        assert QueueOk(s, SemQ(q));
        OrderedBefore(s, q, w, u, |Waiters(s, SemQ(q))| - |Waiters(r, SemQ(q))|);
      }
    }
  }

  /** From s to m waits only ended, from m to r too, and nobody's place in the order has changed. */
  ghost predicate Onward(s: KState, m: KState, r: KState) {
    && SamePlaces(s, m)
    && (forall q: SemId :: m.sem[q].tpri == s.sem[q].tpri && m.sem[q].cntOrder == s.sem[q].cntOrder)
    && (forall q: SemId, t: TaskId :: t in Waiters(m, SemQ(q)) ==> t in Waiters(s, SemQ(q)))
    && (forall q: SemId, t: TaskId :: t in Waiters(r, SemQ(q)) ==> t in Waiters(m, SemQ(q)))
    && (forall q: SemId, t: TaskId :: t in Waiters(s, SemQ(q)) && t !in Waiters(m, SemQ(q)) ==> !Waiting(m, t))
    && (forall t: TaskId :: !Waiting(m, t) ==> r.tcb[t] == m.tcb[t])
  }

  lemma OrderTransitive(s: KState, m: KState, r: KState)
    requires InOrder(s, m) && InOrder(m, r) && Onward(s, m, r)
    ensures InOrder(s, r)
  {
    forall q: SemId, w: TaskId, u: TaskId | !s.sem[q].cntOrder && Overtook(s, r, q, w, u) ensures Before(s, s.sem[q].tpri, w, u) {
      if w in Waiters(m, SemQ(q)) {
        assert Overtook(m, r, q, w, u);
        assert Before(m, m.sem[q].tpri, w, u);
      } else {
        assert Overtook(s, m, q, w, u);
      }
    }
  }

  lemma ReleaseInOrder(s: KState, t: TaskId, cause: ER)
    requires Core(s) && Waiting(s, t) && CauseFits(s, t, cause)
    ensures InOrder(s, Release(s, t, cause))
  {
    var m := Release(s, t, cause);
    ReleaseLinks(s, t, cause);
    forall q: SemId, w: TaskId, u: TaskId ensures !Overtook(s, m, q, w, u) {
      if w in Waiters(s, SemQ(q)) { assert w in s.waits.Get(SemQ(q)) && TaskOk(s, w); }
    }
  }

  lemma EndsOnward(s: KState, m: KState, r: KState)
    requires Core(s) && Core(m) && Ends(s, m) && Ends(m, r)
    requires forall q: SemId :: m.sem[q].tpri == s.sem[q].tpri && m.sem[q].cntOrder == s.sem[q].cntOrder
    requires m.hist.arrivals == s.hist.arrivals
    ensures Onward(s, m, r)
  {
    forall t: TaskId ensures s.tcb[t].itskpri == m.tcb[t].itskpri { assert SameOrEnded(s, m, t); }
    forall q: SemId, t: TaskId | t in Waiters(s, SemQ(q)) && t !in Waiters(m, SemQ(q)) ensures !Waiting(m, t) {
      assert SameOrEnded(s, m, t) && t in s.waits.Get(SemQ(q));
      assert m.waits.at[t] == On(SemQ(q)) ==> t in m.waits.Get(SemQ(q));
    }
    forall t: TaskId | !Waiting(m, t) ensures r.tcb[t] == m.tcb[t] { assert SameOrEnded(m, r, t); }
  }

  /** A departure serves those behind it in order; the one that leaves is not granted anything. */
  lemma CompleteInOrder(s: KState, t: TaskId, cause: ER)
    requires Core(s) && Waiting(s, t) && CauseFits(s, t, cause)
    ensures InOrder(s, CompleteWait(s, t, cause))
  {
    hide Core, Ends, InOrder, ServeEffect, LinksOk, ObjectsOk, FreeOk, TaskOk, HistOk, Coherent;
    CoreGives(s);
    var m := Release(s, t, cause);
    ReleaseInOrder(s, t, cause);
    if LeavesUnserved(s, t, cause).Some? {
      var q := LeavesUnserved(s, t, cause).value;
      ReleaseCore(s, t, cause);
      ReleaseEnds(s, t, cause);
      ServeInOrder(m, q);
      ServeKeeps(m, q);
      ServeGives(m, Serve(m, q), q);
      EndsOnward(s, m, Serve(m, q));
      OrderTransitive(s, m, Serve(m, q));
    }
  }

  lemma ElapseInOrder(s: KState, d: nat, r: KState)
    requires Core(s) && InOrder(Elapse(s, d), r)
    ensures InOrder(s, r)
  {
    var x := Elapse(s, d);
    forall q: SemId, w: TaskId, u: TaskId | !s.sem[q].cntOrder && Overtook(s, r, q, w, u) ensures Before(s, s.sem[q].tpri, w, u) {
      assert Overtook(x, r, q, w, u);
      assert Before(x, x.sem[q].tpri, w, u);
    }
  }

  lemma CompleteSem(s: KState, t: TaskId)
    requires Core(s) && Waiting(s, t)
    ensures var c := CompleteWait(s, t, E_TMOUT);
            && c.hist.arrivals == s.hist.arrivals
            && forall q: SemId :: c.sem[q].tpri == s.sem[q].tpri && c.sem[q].cntOrder == s.sem[q].cntOrder
  {
    if LeavesUnserved(s, t, E_TMOUT).Some? {
      var o := LeavesUnserved(s, t, E_TMOUT).value;
      ReleaseCore(s, t, E_TMOUT);
      ServeArrivals(Release(s, t, E_TMOUT), o, Waiters(Release(s, t, E_TMOUT), SemQ(o)));
    }
  }

  lemma {:induction false} ServeArrivals(s: KState, q: SemId, rest: seq<TaskId>)
    ensures var r := ServeFrom(s, q, rest);
            && r.hist.arrivals == s.hist.arrivals
            && forall p: SemId :: r.sem[p].tpri == s.sem[p].tpri && r.sem[p].cntOrder == s.sem[p].cntOrder
    decreases rest
  {
    if rest != [] {
      if s.sem[q].semcnt < Req(s, rest[0]) {
        if s.sem[q].cntOrder { ServeArrivals(s, q, rest[1..]); }
      } else {
        ServeArrivals(Grant(s, q, rest[0]), q, rest[1..]);
      }
    }
  }

  /** A run of the timer handler hands units over in order, however many departures it makes. */
  lemma {:induction false} ExpireInOrder(s: KState, p: nat)
    requires Core(s)
    ensures InOrder(s, Expire(s, p).0)
    decreases |Timed(s)|
  {
    if Timed(s) != [] {
      var f := First(s);
      var d := s.tcb[f].delay;
      if d <= p {
        var x := Elapse(s, d);
        var c := CompleteWait(x, f, E_TMOUT);
        var r: nat := p - d;
        ExpireReaches(s, f, d, c, p, r);
        assert Expire(s, p) == (Expire(c, r).0, true);
        var e := Expire(c, r).0;
        ExpireInOrder(c, r);
        ExpireAfter(c, r);
        RoundInOrder(s, f, d, x, c, e, r);
      } else {
        ExpireStops(s, p, Elapse(s, p));
      }
    }
  }

  lemma RoundInOrder(s: KState, f: TaskId, d: nat, x: KState, c: KState, e: KState, r: nat)
    requires Core(s) && Reaches(s, f, d, c) && x == Elapse(s, d) && Core(c) && Core(e)
    requires InOrder(c, e) && AfterTicks(c, e, r)
    ensures InOrder(s, e)
  {
    ExpireStep(s, d);
    CompleteInOrder(x, f, E_TMOUT);
    CompleteSem(x, f);
    AfterOnward(x, c, e, r);
    OrderTransitive(x, c, e);
    ElapseInOrder(s, d, e);
  }

  lemma AfterOnward(x: KState, c: KState, e: KState, r: nat)
    requires Core(x) && Core(c) && Core(e) && Ends(x, c) && AfterTicks(c, e, r)
    requires c.hist.arrivals == x.hist.arrivals
    requires forall q: SemId :: c.sem[q].tpri == x.sem[q].tpri && c.sem[q].cntOrder == x.sem[q].cntOrder
    ensures Onward(x, c, e)
  {
    forall t: TaskId ensures x.tcb[t].itskpri == c.tcb[t].itskpri { assert SameOrEnded(x, c, t); }
    forall q: SemId, t: TaskId | t in Waiters(x, SemQ(q)) && t !in Waiters(c, SemQ(q)) ensures !Waiting(c, t) {
      assert SameOrEnded(x, c, t) && t in x.waits.Get(SemQ(q));
      assert c.waits.at[t] == On(SemQ(q)) ==> t in c.waits.Get(SemQ(q));
    }
    forall t: TaskId | !Waiting(c, t) ensures e.tcb[t] == c.tcb[t] { assert TaskAfter(c, e, t, r) && TaskOk(c, t); }
    forall q: SemId, t: TaskId | t in Waiters(e, SemQ(q)) ensures t in Waiters(c, SemQ(q)) {
      assert t in e.waits.Get(SemQ(q)) && TaskOk(e, t) && TaskAfter(c, e, t, r);
      assert c.waits.at[t] == On(SemQ(q));
      assert t in c.waits.Get(SemQ(q));
    }
  }

  lemma ChoiceInOrder(s: KState, m: KState, r: KState)
    requires InOrder(s, m) && r == m.(next := r.next, msip := r.msip)
    ensures InOrder(s, r)
  {
    forall q: SemId, w: TaskId, u: TaskId | !s.sem[q].cntOrder && Overtook(s, r, q, w, u) ensures Before(s, s.sem[q].tpri, w, u) {
      assert Overtook(s, m, q, w, u);
    }
  }

  /** No overtaking under TA_FIRST: whoever a signal grants units comes before everybody still waiting, in the order
      of the semaphore. */
  lemma GrantsInOrder(s: KState, id: int, cnt: int)
    requires Inv(s)
    ensures InOrder(s, SigSem(s, id, cnt).0)
  {
    if SigSem(s, id, cnt).1 == Er(E_OK) {
      hide Inv, Core, LinksOk, AllSettled, Serve, InOrder, HighestFrom, Ends;
      InvGives(s);
      var q: SemId := id - 1;
      var a := AddUnits(s, q, cnt);
      AddUnitsCore(s, q, cnt);
      ServeInOrder(a, q);
      AddUnitsInOrder(s, a, q, Serve(a, q));
      ChoiceInOrder(s, Serve(a, q), SigSem(s, id, cnt).0);
    }
  }

  /** The same for whoever is served because a waiter was released by force. */
  lemma ForcedInOrder(s: KState, id: int)
    requires Inv(s)
    ensures InOrder(s, RelWai(s, id).0)
  {
    hide Inv, Core, LinksOk, AllSettled, CompleteWait, InOrder, HighestFrom;
    InvGives(s);
    if RelWai(s, id).1 == Er(E_OK) {
      CompleteInOrder(s, id - 1, E_RLWAI);
      ChoiceInOrder(s, CompleteWait(s, id - 1, E_RLWAI), RelWai(s, id).0);
    } else {
      SelfInOrder(s);
    }
  }

  lemma SelfInOrder(s: KState)
    ensures InOrder(s, s)
  {
  }

  lemma AddUnitsInOrder(s: KState, a: KState, q: SemId, r: KState)
    requires InOrder(a, r) && a == WithSem(s, q, a.sem[q], a.hist.sem[q])
    requires a.sem[q].tpri == s.sem[q].tpri && a.sem[q].cntOrder == s.sem[q].cntOrder
    ensures InOrder(s, r)
  {
    forall p: SemId, w: TaskId, u: TaskId | !s.sem[p].cntOrder && Overtook(s, r, p, w, u) ensures Before(s, s.sem[p].tpri, w, u) {
      assert Overtook(a, r, p, w, u);
      assert Before(a, a.sem[p].tpri, w, u);
    }
  }

  /** And for whoever is served in a run of the timer handler because others timed out. */
  lemma TimeoutsInOrder(s: KState)
    requires Inv(s)
    ensures InOrder(s, TimerHandler(s))
  {
    hide Inv, Core, LinksOk, AllSettled, Expire, InOrder, HighestFrom;
    InvGives(s);
    var p := Pending(s.mtimecmp, s.now);
    if p > 0 {
      var a := Advanced(s);
      AdvancedSettled(s);
      ExpireInOrder(a, p);
      var e := Expire(a, p).0;
      AdvancedInOrder(s, e);
      ChoiceInOrder(s, e, TimerHandler(s));
    } else {
      SelfInOrder(s);
    }
  }

  lemma AdvancedInOrder(s: KState, e: KState)
    requires InOrder(Advanced(s), e)
    ensures InOrder(s, e)
  {
    var a := Advanced(s);
    forall q: SemId, w: TaskId, u: TaskId | !s.sem[q].cntOrder && Overtook(s, e, q, w, u) ensures Before(s, s.sem[q].tpri, w, u) {
      assert Overtook(a, e, q, w, u);
      assert Before(a, a.sem[q].tpri, w, u);
    }
  }

  /* ---- conservation ---- */

  /** Units are neither invented nor stranded: at any time the initial and signalled units are the count and the units
      handed out, and no waiter could be served with the count. */
  lemma UnitsConserved(s: KState, q: SemId)
    requires Inv(s) && s.sem[q].live
    ensures 0 <= s.sem[q].semcnt <= s.sem[q].maxsem
    ensures s.hist.sem[q].given == s.sem[q].semcnt + s.hist.sem[q].granted
    ensures s.sem[q].cntOrder ==> forall t :: t in Waiters(s, SemQ(q)) ==> Req(s, t) > s.sem[q].semcnt
    ensures !s.sem[q].cntOrder && Waiters(s, SemQ(q)) != [] ==> Req(s, Waiters(s, SemQ(q))[0]) > s.sem[q].semcnt
  {
    assert SemOk(s, q) && Settled(s, q);
  }

  /* ---- event flags ---- */

  /** No waiter is held back by a pattern that satisfies it, and a flag without TA_WMUL has at most one waiter. */
  lemma FlagsSettled(s: KState, f: FlgId, t: TaskId)
    requires Inv(s) && t in Waiters(s, FlgQ(f))
    ensures s.flg[f].live && s.tcb[t].winfo.FlgInfo? && Waiting(s, t)
    ensures !Match(s.flg[f].flgptn, s.tcb[t].winfo.waiptn, s.tcb[t].winfo.wfmode)
    ensures !s.flg[f].wmul ==> Waiters(s, FlgQ(f)) == [t]
  {
    assert t in s.waits.Get(FlgQ(f)) && TaskOk(s, t) && FlgOk(s, f) && FlgSettled(s, f);
  }

  /* ---- mailboxes ---- */

  /** Every message a live mailbox has accepted since it was created is queued or was handed to one receiver, as
      often as it was sent. */
  lemma EachMessageOnce(s: KState, m: MbxId, x: Msg)
    requires Inv(s) && s.mbx[m].live
    ensures var h := s.hist.mbx[m];
            multiset(h.sent)[x] == multiset(Handed(h.handed))[x] + multiset(s.mbx[m].msgs)[x]
  {
    var h := s.hist.mbx[m];
    assert MbxOk(s, m);
    CountOfPri(h.sent, x);
    CountOfPri(Handed(h.handed) + s.mbx[m].msgs, x);
    assert OfPri(h.sent, x.msgpri) == OfPri(Handed(h.handed) + s.mbx[m].msgs, x.msgpri);
  }

  /** Messages of one priority are handed over in the order in which they were sent, and in a TA_MFIFO mailbox all
      of them are. What a mailbox holds is what was sent and not handed over, in the order of sending, or stably sorted
      by priority. */
  lemma MailboxOrder(s: KState, m: MbxId, p: int)
    requires Inv(s) && s.mbx[m].live
    ensures var h := s.hist.mbx[m];
            var left := Outstanding(h.sent, Handed(h.handed));
            && OfPri(Handed(h.handed), p) + OfPri(s.mbx[m].msgs, p) == OfPri(h.sent, p)
            && (!s.mbx[m].mpri ==> Handed(h.handed) + s.mbx[m].msgs == h.sent)
            && s.mbx[m].msgs == if s.mbx[m].mpri then StableSort(left) else left
    ensures s.mbx[m].msgs == [] || Waiters(s, MbxQ(m)) == []
  {
    hide Inv, Core;
    InvGives(s);
    CoreGivesMbx(s, m);
    var h := s.hist.mbx[m];
    var q, d := s.mbx[m].msgs, Handed(h.handed);
    forall r ensures OfPri(h.sent, r) == OfPri(d, r) + OfPri(q, r) { OfPriConcat(d, q, r); }
    hide OfPri;
    if s.mbx[m].mpri {
      OutstandingOfPri(h.sent, d, q);
      StableSortIs(Outstanding(h.sent, d));
      StableOrderIsUnique(q, StableSort(Outstanding(h.sent, d)));
    } else {
      OutstandingIsRest(d, q);
    }
  }

  /** A message sent to a mailbox with receivers waiting goes to the one that comes before all the others, and
      nobody else is released. */
  lemma SendServesFirst(s: KState, id: int, msg: Msg)
    requires Inv(s) && SndMbx(s, id, msg).1 == Er(E_OK)
    ensures var m: MbxId := id - 1;
            var w := Waiters(s, MbxQ(m));
            var r := SndMbx(s, id, msg).0;
            w != [] ==>
              && r.tcb[w[0]].tskstat == RDY && r.tcb[w[0]].wupcause == E_OK && r.tcb[w[0]].winfo == MbxInfo(Some(msg))
              && Waiters(r, MbxQ(m)) == w[1..] && r.mbx == s.mbx
              && forall u :: u in w[1..] ==> Before(s, s.mbx[m].tpri, w[0], u) && r.tcb[u] == s.tcb[u]
  {
    hide Inv, Core, LinksOk, AllSettled, MakeReady, Before;
    InvGives(s);
    var m: MbxId := id - 1;
    if Waiters(s, MbxQ(m)) != [] {
      PopTakesFirst(s, m);
      hide PopFrom;
      HandedFirst(s, m, msg, Waiters(s, MbxQ(m))[0], Waiters(s, MbxQ(m)));
      FirstBefore(s, MbxQ(m));
    }
  }

  lemma FirstBefore(s: KState, q: WQ)
    requires Core(s) && Waiters(s, q) != []
    ensures forall u :: u in Waiters(s, q)[1..] ==> Before(s, PriorityOrdered(s, q), Waiters(s, q)[0], u)
  {
    var w := Waiters(s, q);
    assert QueueOk(s, q);
    hide Core, Before;
    forall u | u in w[1..] ensures Before(s, PriorityOrdered(s, q), w[0], u) {
      var i := Index(w[1..], u);
      assert w[i + 1] == u && Before(s, PriorityOrdered(s, q), w[0], w[i + 1]);
    }
  }

  lemma HandedFirst(s: KState, m: MbxId, msg: Msg, t: TaskId, w: seq<TaskId>)
    requires Core(s) && AllSettled(s) && w == Waiters(s, MbxQ(m)) && w != [] && t == w[0]
    ensures var k := MakeReady(s.(waits := s.waits.Del(t).Init(t)), t, E_OK, Some(msg));
            && k.tcb[t].tskstat == RDY && k.tcb[t].wupcause == E_OK && k.tcb[t].winfo == MbxInfo(Some(msg))
            && Waiters(k, MbxQ(m)) == w[1..] && k.mbx == s.mbx
            && forall u :: u in w[1..] ==> k.tcb[u] == s.tcb[u]
  {
    hide Core, AllSettled, MakeReady, Ends;
    CoreGives(s);
    assert NoDup(s.waits.Get(MbxQ(m)));
    hide LinksOk, ObjectsOk, FreeOk, TaskOk, HistOk, Coherent;
    HeadReceives(s, m);
    HandKeeps(s, t, Some(msg));
    MakeReadyIs(s, t, E_OK, Some(msg));
    WithoutHead(w, t, true);
  }

  /* ---- object tables ---- */

  /** Creation with valid parameters fails exactly when every control block is live; otherwise the new ID is none of
      the live ones, and the other objects are as before. */
  lemma CreateSemTakesFree(s: KState, tpri: bool, cntOrder: bool, n: int, max: int)
    requires Inv(s) && 0 <= n <= max <= TK_SEMAPHORE_MAXCNT && 1 <= max
    ensures var (r, y) := CreSem(s, tpri, cntOrder, n, max);
            if forall q: SemId :: s.sem[q].live then y == Er(E_LIMIT) && r == s
            else y.NewId? && InRange(y.id, CFN_MAX_SEMID) && !s.sem[y.id - 1].live
                 && r.sem == s.sem[y.id - 1 := Semcb(true, tpri, cntOrder, n, max)] && s.freeSem == [y.id - 1] + r.freeSem
  {
    FreeListsComplete(s);
    if s.freeSem != [] { assert s.freeSem[0] in s.freeSem; }
  }

  lemma CreateFlgTakesFree(s: KState, tpri: bool, wmul: bool, p: Ptn)
    requires Inv(s)
    ensures var (r, y) := CreFlg(s, tpri, wmul, p);
            if forall f: FlgId :: s.flg[f].live then y == Er(E_LIMIT) && r == s
            else y.NewId? && InRange(y.id, CFN_MAX_FLGID) && !s.flg[y.id - 1].live
                 && r.flg == s.flg[y.id - 1 := Flgcb(true, tpri, wmul, p)] && s.freeFlg == [y.id - 1] + r.freeFlg
  {
    FreeListsComplete(s);
    if s.freeFlg != [] { assert s.freeFlg[0] in s.freeFlg; }
  }

  lemma CreateMbxTakesFree(s: KState, tpri: bool, mpri: bool)
    requires Inv(s)
    ensures var (r, y) := CreMbx(s, tpri, mpri);
            if forall m: MbxId :: s.mbx[m].live then y == Er(E_LIMIT) && r == s
            else y.NewId? && InRange(y.id, CFN_MAX_MBXID) && !s.mbx[y.id - 1].live
                 && r.mbx == s.mbx[y.id - 1 := Mbxcb(true, tpri, mpri, [])] && s.freeMbx == [y.id - 1] + r.freeMbx
  {
    FreeListsComplete(s);
    if s.freeMbx != [] { assert s.freeMbx[0] in s.freeMbx; }
  }

  lemma FreeListsComplete(s: KState)
    requires FreeOk(s)
    ensures s.freeSem == [] <==> forall q: SemId :: s.sem[q].live
    ensures s.freeFlg == [] <==> forall f: FlgId :: s.flg[f].live
    ensures s.freeMbx == [] <==> forall m: MbxId :: s.mbx[m].live
  {
    if s.freeSem != [] { assert s.freeSem[0] in s.freeSem; }
    if s.freeFlg != [] { assert s.freeFlg[0] in s.freeFlg; }
    if s.freeMbx != [] { assert s.freeMbx[0] in s.freeMbx; }
  }

  /** The same for tasks: the TCB table and its free list. */
  lemma CreateTaskTakesFree(s: KState, pri: int)
    requires Inv(s) && InRange(pri, CFN_MAX_PRI)
    ensures var (r, y) := CreTsk(s, pri);
            if forall t: TaskId :: s.tcb[t].tskstat != NOEXS then y == Er(E_LIMIT) && r == s
            else y.NewId? && InRange(y.id, CFN_MAX_TSKID) && s.tcb[y.id - 1].tskstat == NOEXS
                 && r.tcb == s.tcb[y.id - 1 := FRESH_TCB.(itskpri := pri, tskstat := DMT)]
                 && s.heads.Get(FreeQ) == [y.id - 1] + r.heads.Get(FreeQ)
  {
    hide Inv;
    var q := s.heads.Get(FreeQ);
    if q == [] {
      forall t: TaskId ensures s.tcb[t].tskstat != NOEXS { FreeTask(s, t); }
    } else {
      FreeTask(s, q[0]);
      FirstTaken(s, q);
    }
  }

  lemma FirstTaken(s: KState, q: seq<TaskId>)
    requires Inv(s) && q == s.heads.Get(FreeQ) && q != []
    ensures q == [q[0]] + s.heads.Del(q[0]).Init(q[0]).Get(FreeQ)
  {
    hide Inv, Core, LinksOk;
    InvGives(s);
    CoreGives(s);
    assert q[0] in s.heads.Get(FreeQ) && NoDup(s.heads.Get(FreeQ));
    hide Coherent, TaskOk, HistOk, ObjectsOk, FreeOk;
    WithoutHead(q, q[0], true);
  }

  lemma FreeTask(s: KState, t: TaskId)
    requires Inv(s)
    ensures t in s.heads.Get(FreeQ) <==> s.tcb[t].tskstat == NOEXS
  {
    InvGives(s);
    InvGivesTask(s, t);
    hide Inv, Core, AllSettled, ObjectsOk, FreeOk, HistOk;
    assert t in s.heads.Get(FreeQ) <==> s.heads.at[t] == On(FreeQ);
  }

  /** Deleting a semaphore releases everybody who waits for it, all of them with E_DLT, and its control block is the
      one that goes free. */
  lemma DeleteReleasesAll(s: KState, id: int)
    requires Inv(s) && DelSem(s, id).1 == Er(E_OK)
    ensures var q: SemId := id - 1;
            var r := DelSem(s, id).0;
            && (forall t :: t in Waiters(s, SemQ(q)) ==> r.tcb[t].tskstat == RDY && r.tcb[t].wupcause == E_DLT)
            && (forall t: TaskId :: t !in Waiters(s, SemQ(q)) ==> r.tcb[t] == s.tcb[t])
            && r.sem == s.sem[q := NO_SEM] && r.freeSem == s.freeSem + [q]
  {
    var q: SemId := id - 1;
    ReleaseAllKeeps(s, SemQ(q), Waiters(s, SemQ(q)));
  }
}
