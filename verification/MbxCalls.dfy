/** The mailbox calls keep the invariant of the kernel: every message is queued or handed over, in order. */
module MbxCalls {
  import opened Types
  import opened Rings
  import opened KernelState
  import opened KernelOps
  import opened Frames
  import opened WaitEnd
  import opened WaitStart
  import opened Scheduling
  import opened TaskCalls
  import opened SemCalls
  import opened Messages

  lemma HeadReceives(s: KState, m: MbxId)
    requires LinksOk(s) && Waiters(s, MbxQ(m)) != []
    ensures var t := Waiters(s, MbxQ(m))[0];
            Waiting(s, t) && s.tcb[t].tskwait == MBX && s.waits.at[t] == On(MbxQ(m))
  {
    var t := Waiters(s, MbxQ(m))[0];
    assert t in s.waits.Get(MbxQ(m)) && TaskOk(s, t);
  }

  /** The receiver at the head of the queue is the one that is taken; none is dropped. */
  lemma PopTakesFirst(s: KState, m: MbxId)
    requires LinksOk(s)
    ensures var w := Waiters(s, MbxQ(m));
            PopFrom(s, w) == if w == [] then (s, None) else (s.(waits := s.waits.Del(w[0]).Init(w[0])), Some(w[0]))
  {
    var w := Waiters(s, MbxQ(m));
    if w != [] {
      HeadReceives(s, m);
      PopHead(s, w);
    }
  }

  lemma PopHead(s: KState, w: seq<TaskId>)
    requires w != [] && s.tcb[w[0]].tskstat == WAI && s.tcb[w[0]].tskwait == MBX
    ensures PopFrom(s, w) == (s.(waits := s.waits.Del(w[0]).Init(w[0])), Some(w[0]))
  {
  }

  /** Popping a receiver and making it ready is its release, with what it receives. */
  lemma MakeReadyIs(s: KState, t: TaskId, cause: ER, msg: Option<Msg>)
    requires s.tcb[t].tskwait == MBX && s.waits.at[t].On?
    ensures var r := Release(s, t, cause);
            MakeReady(s.(waits := s.waits.Del(t).Init(t)), t, cause, msg)
            == WithTask(r, t, r.tcb[t].(winfo := MbxInfo(msg)), r.hist.task[t])
  {
    var r := Release(s, t, cause);
    var k := MakeReady(s.(waits := s.waits.Del(t).Init(t)), t, cause, msg);
    assert k.tcb == r.tcb[t := r.tcb[t].(winfo := MbxInfo(msg))];
    assert r.hist.task[t := r.hist.task[t]] == r.hist.task;
  }

  /** What a handed-over message leaves: the receiver ready with it, everybody else as before. */
  lemma HandKeeps(s: KState, t: TaskId, msg: Option<Msg>)
    requires Core(s) && AllSettled(s) && Waiting(s, t) && s.tcb[t].tskwait == MBX
    ensures var k := MakeReady(s.(waits := s.waits.Del(t).Init(t)), t, E_OK, msg);
            && Core(k) && AllSettled(k) && Ends(s, k) && k.mbx == s.mbx && k.hist == s.hist
            && (forall w :: Waiters(k, w) == Without(Waiters(s, w), t))
            && k.tcb[t].winfo == MbxInfo(msg) && k.tcb[t].wupcause == E_OK && k.tcb[t].tskstat == RDY
  {
    assert TaskOk(s, t);
    var r := Release(s, t, E_OK);
    MakeReadyIs(s, t, E_OK, msg);
    ReleaseCore(s, t, E_OK);
    ReleaseLinks(s, t, E_OK);
    ReleaseEnds(s, t, E_OK);
    CompleteWaitAllSettled(s, t, E_OK);
    assert r == CompleteWait(s, t, E_OK);
    InfoKeeps(s, r, t, r.tcb[t].(winfo := MbxInfo(msg)));
  }

  /** New wait data for a task whose wait has just ended. */
  lemma InfoKeeps(s: KState, r: KState, t: TaskId, c: Tcb)
    requires Core(r) && AllSettled(r) && Ends(s, r) && Waiting(s, t) && r.tcb[t].tskstat == RDY
    requires r.tcb[t].pc == InWait(MBX) && c == r.tcb[t].(winfo := c.winfo) && c.winfo.MbxInfo?
    ensures var k := WithTask(r, t, c, r.hist.task[t]);
            Core(k) && AllSettled(k) && Ends(s, k) && k.hist == r.hist && forall w :: Waiters(k, w) == Waiters(r, w)
  {
    var k := WithTask(r, t, c, r.hist.task[t]);
    assert TaskOk(r, t) && HistOk(r, t);
    assert r.hist.task[t := r.hist.task[t]] == r.hist.task;
    WithTaskCore(r, t, c, r.hist.task[t]);
    WithTaskSettled(r, t, c, r.hist.task[t]);
    forall u: TaskId ensures SameOrEnded(s, k, u) { assert SameOrEnded(s, r, u); }
    forall p: Pri ensures ReadyAt(s, p) <= ReadyAt(k, p) { assert ReadyAt(s, p) <= ReadyAt(r, p); }
  }

  lemma WithMbxSettled(s: KState, m: MbxId, c: Mbxcb, h: MbxHist)
    requires AllSettled(s)
    ensures AllSettled(WithMbx(s, m, c, h))
  {
    var g := WithMbx(s, m, c, h);
    forall q: SemId ensures Settled(g, q) { assert Settled(s, q) && Waiters(g, SemQ(q)) == Waiters(s, SemQ(q)); }
    forall f: FlgId ensures FlgSettled(g, f) { assert FlgSettled(s, f) && Waiters(g, FlgQ(f)) == Waiters(s, FlgQ(f)); }
  }

  lemma WithMbxEnds(s: KState, r: KState, m: MbxId, c: Mbxcb, h: MbxHist)
    requires Ends(s, r)
    ensures Ends(s, WithMbx(r, m, c, h))
  {
    var g := WithMbx(r, m, c, h);
    forall u: TaskId ensures SameOrEnded(s, g, u) { assert SameOrEnded(s, r, u); }
    forall p: Pri ensures ReadyAt(s, p) <= ReadyAt(g, p) { assert ReadyAt(s, p) <= ReadyAt(r, p); }
  }

  lemma HandedAppend(h: seq<(Msg, TaskId)>, msg: Msg, t: TaskId)
    ensures Handed(h + [(msg, t)]) == Handed(h) + [msg]
  {
  }

  /** The log of a mailbox with no queued messages, after one was sent and handed over at once. */
  lemma HandedLog(s: KState, m: MbxId, msg: Msg, t: TaskId)
    requires MbxOk(s, m) && s.mbx[m].live && s.mbx[m].msgs == []
    ensures var h := s.hist.mbx[m];
            var h' := MbxHist(h.sent + [msg], h.handed + [(msg, t)]);
            MbxOk(WithMbx(s, m, s.mbx[m], h'), m)
  {
    var h := s.hist.mbx[m];
    HandedAppend(h.handed, msg, t);
    assert Handed(h.handed) + [] == Handed(h.handed);
    assert Handed(h.handed) + [msg] + [] == Handed(h.handed) + [msg];
    forall p: int ensures OfPri(h.sent + [msg], p) == OfPri(Handed(h.handed) + [msg], p) {
      OfPriConcat(h.sent, [msg], p);
      OfPriConcat(Handed(h.handed), [msg], p);
      assert OfPri(h.sent, p) == OfPri(Handed(h.handed) + s.mbx[m].msgs, p);
    }
  }

  lemma QueuedLog(s: KState, m: MbxId, msg: Msg, i: nat)
    requires MbxOk(s, m) && s.mbx[m].live && Waiters(s, MbxQ(m)) == []
    requires i == if s.mbx[m].mpri then MsgPos(s.mbx[m].msgs, msg.msgpri) else |s.mbx[m].msgs|
    ensures var h := s.hist.mbx[m];
            MbxOk(WithMbx(s, m, s.mbx[m].(msgs := InsertAt(s.mbx[m].msgs, i, msg)), h.(sent := h.sent + [msg])), m)
  {
    var h := s.hist.mbx[m];
    var q := s.mbx[m].msgs;
    var n := InsertAt(q, i, msg);
    if s.mbx[m].mpri { InsertKeeps(q, msg); } else { assert n == q + [msg]; }
    assert h.sent == Handed(h.handed) + q ==> h.sent + [msg] == Handed(h.handed) + (q + [msg]);
    forall p: int ensures OfPri(h.sent + [msg], p) == OfPri(Handed(h.handed) + n, p) {
      OfPriConcat(h.sent, [msg], p);
      OfPriConcat(Handed(h.handed), n, p);
      OfPriConcat(Handed(h.handed), q, p);
      OfPriConcat(q, [msg], p);
      assert OfPri(n, p) == OfPri(q + [msg], p);
    }
    assert Waiters(WithMbx(s, m, s.mbx[m].(msgs := n), h.(sent := h.sent + [msg])), MbxQ(m)) == [];
  }

  lemma ReceivedLog(s: KState, m: MbxId, t: TaskId)
    requires MbxOk(s, m) && s.mbx[m].live && s.mbx[m].msgs != []
    ensures var h := s.hist.mbx[m];
            var q := s.mbx[m].msgs;
            MbxOk(WithMbx(s, m, s.mbx[m].(msgs := q[1..]), h.(handed := h.handed + [(q[0], t)])), m)
  {
    var h := s.hist.mbx[m];
    var q := s.mbx[m].msgs;
    HandedAppend(h.handed, q[0], t);
    assert Handed(h.handed) + [q[0]] + q[1..] == Handed(h.handed) + q;
    assert Waiters(WithMbx(s, m, s.mbx[m].(msgs := q[1..]), h.(handed := h.handed + [(q[0], t)])), MbxQ(m)) == Waiters(s, MbxQ(m));
  }

  lemma CoreGivesMbx(s: KState, m: MbxId)
    requires Core(s)
    ensures MbxOk(s, m)
  {
    hide TaskOk, HistOk, Coherent;
  }

  lemma HandInv(s: KState, m: MbxId, msg: Msg, t: TaskId)
    requires Inv(s) && s.mbx[m].live && Waiters(s, MbxQ(m)) != [] && t == Waiters(s, MbxQ(m))[0]
    ensures var k := MakeReady(s.(waits := s.waits.Del(t).Init(t)), t, E_OK, Some(msg));
            Inv(Resched(k.(hist := HandedOver(Sent(s.hist, m, msg), m, msg, t))))
  {
    assert MbxOk(s, m);
    hide Inv, Core, AllSettled, LinksOk, MakeReady, Ends, Resched;
    InvGives(s);
    var k := MakeReady(s.(waits := s.waits.Del(t).Init(t)), t, E_OK, Some(msg));
    HeadReceives(s, m);
    HandKeeps(s, t, Some(msg));
    CoreGivesMbx(k, m);
    hide Waiters;
    var h := MbxHist(s.hist.mbx[m].sent + [msg], s.hist.mbx[m].handed + [(msg, t)]);
    HandedLog(k, m, msg, t);
    var g := WithMbx(k, m, k.mbx[m], h);
    assert k.mbx[m := k.mbx[m]] == k.mbx;
    assert g.hist == HandedOver(Sent(s.hist, m, msg), m, msg, t);
    WithMbxCore(k, m, k.mbx[m], h);
    WithMbxSettled(k, m, k.mbx[m], h);
    WithMbxEnds(s, k, m, k.mbx[m], h);
    EndsInv(s, g);
  }

  /** A change to the messages of one mailbox. */
  lemma MessagesInv(s: KState, m: MbxId, c: Mbxcb, h: MbxHist)
    requires Inv(s) && c.live == s.mbx[m].live && c.tpri == s.mbx[m].tpri && MbxOk(WithMbx(s, m, c, h), m)
    ensures Inv(WithMbx(s, m, c, h))
  {
    var g := WithMbx(s, m, c, h);
    WithMbxCore(s, m, c, h);
    WithMbxSettled(s, m, c, h);
    forall t: TaskId ensures TimedOk(g, t) { assert TimedOk(s, t); }
    forall p: Pri ensures ReadyAt(g, p) == ReadyAt(s, p) { }
    QuietInv(s, g);
  }

  lemma SndMbxInv(s: KState, id: int, msg: Msg)
    requires Inv(s)
    ensures Inv(SndMbx(s, id, msg).0)
  {
    hide Inv, Core, AllSettled, LinksOk, MbxOk, MakeReady, Resched;
    InvGives(s);
    if SndMbx(s, id, msg).1 == Er(E_OK) {
      var m: MbxId := id - 1;
      var w := Waiters(s, MbxQ(m));
      PopTakesFirst(s, m);
      hide PopFrom;
      if w != [] {
        HandInv(s, m, msg, w[0]);
      } else {
        var c := s.mbx[m];
        var i := if c.mpri then MsgPos(c.msgs, msg.msgpri) else |c.msgs|;
        CoreGivesMbx(s, m);
        QueuedLog(s, m, msg, i);
        var h := s.hist.mbx[m];
        MessagesInv(s, m, c.(msgs := InsertAt(c.msgs, i, msg)), h.(sent := h.sent + [msg]));
      }
    }
  }

  lemma JoinMbx(s: KState, m: MbxId, tmo: int)
    requires Inv(s) && MayBlock(s) && s.mbx[m].live && s.mbx[m].msgs == []
    ensures var j := Join(s, s.current, MbxQ(m), MbxInfo(None));
            ReadyToWait(s, j, MBX) && AllSettled(j) && WaitLinkOk(Block(j, MBX, tmo), s.current)
  {
    hide Inv, Core, AllSettled, LinksOk, ObjectsOk, Join, Block, WaitLinkOk, ReadyToWait, TaskOk, SemOk, Settled, FlgOk, FlgSettled, MbxOk;
    InvGives(s);
    CoreGives(s);
    CallerDetached(s);
    var info := MbxInfo(None);
    forall q: SemId ensures SemOk(Join(s, s.current, MbxQ(m), info), q) && Settled(Join(s, s.current, MbxQ(m), info), q) {
      ObjectsGive(s, q, 0, m);
      JoinOtherSem(s, MbxQ(m), info, q);
    }
    forall f: FlgId ensures FlgOk(Join(s, s.current, MbxQ(m), info), f) && FlgSettled(Join(s, s.current, MbxQ(m), info), f) {
      ObjectsGive(s, 0, f, m);
      JoinOtherFlg(s, MbxQ(m), info, f);
    }
    forall n: MbxId ensures MbxOk(Join(s, s.current, MbxQ(m), info), n) {
      ObjectsGive(s, 0, 0, n);
      JoinOtherMbx(s, MbxQ(m), info, n);
    }
    JoinReady(s, MbxQ(m), info, MBX);
    AllSettledOf(Join(s, s.current, MbxQ(m), info));
    JoinLinks(s, MbxQ(m), info, MBX, tmo);
  }

  lemma RcvMbxInv(s: KState, id: int, tmo: int, canBlock: bool)
    requires Inv(s) && (canBlock ==> TaskContext(s) && s.current != IDLE)
    ensures Inv(RcvMbx(s, id, tmo, canBlock).0)
  {
    hide Inv, Core, AllSettled, MbxOk, Block, Join, WaitLinkOk, ReadyToWait;
    var r := RcvMbx(s, id, tmo, canBlock).1;
    if r.Received? {
      InvGives(s);
      var m: MbxId := id - 1;
      CoreGivesMbx(s, m);
      ReceivedLog(s, m, s.current);
      var h := s.hist.mbx[m];
      var q := s.mbx[m].msgs;
      MessagesInv(s, m, s.mbx[m].(msgs := q[1..]), h.(handed := h.handed + [(q[0], s.current)]));
    } else if r == Blocks {
      JoinMbx(s, id - 1, tmo);
      BlockInv(s, Join(s, s.current, MbxQ(id - 1), MbxInfo(None)), MBX, tmo);
    }
  }

  lemma ReleasedInfo(s: KState, t: TaskId)
    ensures Release(s, t, E_DLT).tcb[t].winfo == s.tcb[t].winfo
  {
  }

  /** One receiver of a deleted mailbox: popped and made ready is released, and the others follow. */
  lemma DropStep(s: KState, m: MbxId)
    requires Core(s) && Waiters(s, MbxQ(m)) != []
    ensures var w := Waiters(s, MbxQ(m));
            var t := w[0];
            var k := MakeReady(s.(waits := s.waits.Del(t).Init(t)), t, E_DLT, None);
            && k == Release(s, t, E_DLT) && Core(k) && Waiters(k, MbxQ(m)) == w[1..]
            && DropFrom(s, w) == DropFrom(k, w[1..])
  {
    hide Core, Ends, MakeReady, Release;
    CoreGives(s);
    var w := Waiters(s, MbxQ(m));
    var t := w[0];
    HeadReceives(s, m);
    assert s.tcb[t].winfo == MbxInfo(None) by { assert TaskOk(s, t); }
    hide LinksOk, ObjectsOk, FreeOk, TaskOk, HistOk, Coherent;
    ReleasedInfo(s, t);
    MakeReadyIs(s, t, E_DLT, None);
    var r := Release(s, t, E_DLT);
    assert r.tcb[t := r.tcb[t].(winfo := MbxInfo(None))] == r.tcb && r.hist.task[t := r.hist.task[t]] == r.hist.task;
    FirstReleased(s, MbxQ(m), w);
  }

  /** The receivers of a deleted mailbox are released like the waiters of a deleted semaphore. */
  lemma {:induction false} DropIsRelease(s: KState, m: MbxId, rest: seq<TaskId>)
    requires Core(s) && Waiters(s, MbxQ(m)) == rest
    ensures DropFrom(s, rest) == ReleaseAll(s, rest)
    decreases rest
  {
    if rest != [] {
      DropStep(s, m);
      DropIsRelease(Release(s, rest[0], E_DLT), m, rest[1..]);
    }
  }

  /** The control block of a mailbox nobody waits for goes back to the free list; its messages are not touched. */
  lemma FreeMbxCore(r: KState, m: MbxId)
    requires Core(r) && AllSettled(r) && AllTimed(r) && r.mbx[m].live && Waiters(r, MbxQ(m)) == []
    ensures var d := r.(mbx := r.mbx[m := NO_MBX], waits := r.waits.Clear(MbxQ(m)), freeMbx := r.freeMbx + [m]);
            Core(d) && AllSettled(d) && AllTimed(d)
  {
    var d := r.(mbx := r.mbx[m := NO_MBX], waits := r.waits.Clear(MbxQ(m)), freeMbx := r.freeMbx + [m]);
    ClearRing(r, MbxQ(m));
    forall p: SemId ensures SemOk(d, p) && Settled(d, p) {
      assert SemOk(r, p) && Settled(r, p) && Waiters(d, SemQ(p)) == Waiters(r, SemQ(p));
    }
    forall f: FlgId ensures FlgOk(d, f) && FlgSettled(d, f) {
      assert FlgOk(r, f) && FlgSettled(r, f) && Waiters(d, FlgQ(f)) == Waiters(r, FlgQ(f));
    }
    forall n: MbxId ensures MbxOk(d, n) { assert MbxOk(r, n) && Waiters(d, MbxQ(n)) == Waiters(r, MbxQ(n)); }
    WaitersExist(r);
    TablesCore(r, d);
  }

  lemma DelMbxInv(s: KState, id: int)
    requires Inv(s)
    ensures Inv(DelMbx(s, id).0)
  {
    hide Inv, Core, AllSettled, AllTimed, Ends, SchedOk, ReleaseAll, DropFrom, Resched;
    InvGives(s);
    InvTimed(s);
    if DelMbx(s, id).1 == Er(E_OK) {
      var m: MbxId := id - 1;
      var w := Waiters(s, MbxQ(m));
      var r := ReleaseAll(s, w);
      DropIsRelease(s, m, w);
      ReleaseAllKeeps(s, MbxQ(m), w);
      EmptiedSettled(s, r, MbxQ(m), w);
      FreeMbxCore(r, m);
      EndsRunsAlone(s, r);
      ReschedInv(r.(mbx := r.mbx[m := NO_MBX], waits := r.waits.Clear(MbxQ(m)), freeMbx := r.freeMbx + [m]));
    }
  }

  lemma CreMbxInv(s: KState, tpri: bool, mpri: bool)
    requires Inv(s)
    ensures Inv(CreMbx(s, tpri, mpri).0)
  {
    if s.freeMbx != [] { CreatedMbx(s, s.freeMbx[0], Mbxcb(true, tpri, mpri, []), CreMbx(s, tpri, mpri).0); }
  }

  lemma CreatedMbx(s: KState, m: MbxId, c: Mbxcb, g: KState)
    requires Inv(s) && s.freeMbx != [] && m == s.freeMbx[0] && c.live && c.msgs == []
    requires g == s.(freeMbx := s.freeMbx[1..], waits := s.waits.Clear(MbxQ(m)), mbx := s.mbx[m := c],
                     hist := s.hist.(mbx := s.hist.mbx[m := MbxHist([], [])]))
    ensures Inv(g)
  {
    assert Core(s) && AllSettled(s) && AllTimed(s);
    CreatedMbxCore(s, m, c, g);
    hide Core, AllSettled, AllTimed;
    forall p: Pri ensures ReadyAt(g, p) == ReadyAt(s, p) { }
    QuietInv(s, g);
  }

  lemma CreatedMbxCore(s: KState, m: MbxId, c: Mbxcb, g: KState)
    requires Core(s) && AllSettled(s) && AllTimed(s) && s.freeMbx != [] && m == s.freeMbx[0] && c.live && c.msgs == []
    requires g == s.(freeMbx := s.freeMbx[1..], waits := s.waits.Clear(MbxQ(m)), mbx := s.mbx[m := c],
                     hist := s.hist.(mbx := s.hist.mbx[m := MbxHist([], [])]))
    ensures Core(g) && AllSettled(g) && AllTimed(g)
  {
    assert m in s.freeMbx;
    DeadIsEmpty(s, MbxQ(m));
    ClearRing(s, MbxQ(m));
    forall p: SemId ensures SemOk(g, p) && Settled(g, p) {
      assert SemOk(s, p) && Settled(s, p) && Waiters(g, SemQ(p)) == Waiters(s, SemQ(p));
    }
    forall f: FlgId ensures FlgOk(g, f) && FlgSettled(g, f) {
      assert FlgOk(s, f) && FlgSettled(s, f) && Waiters(g, FlgQ(f)) == Waiters(s, FlgQ(f));
    }
    forall n: MbxId ensures MbxOk(g, n) { assert MbxOk(s, n) && Waiters(g, MbxQ(n)) == Waiters(s, MbxQ(n)); }
    WaitersExist(s);
    TablesCore(s, g);
  }
}
