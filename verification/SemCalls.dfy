/** The semaphore calls keep the invariant of the kernel: units are neither stranded nor invented. */
module SemCalls {
  import opened Types
  import opened Rings
  import opened KernelState
  import opened KernelOps
  import opened Frames
  import opened WaitEnd
  import opened WaitStart
  import opened Scheduling
  import opened TaskCalls

  /** A change to one semaphore's count, with nobody stranded by it. */
  lemma CountInv(s: KState, q: SemId, c: Semcb, h: SemHist)
    requires Inv(s) && c.live == s.sem[q].live && c.tpri == s.sem[q].tpri
    requires SemOk(WithSem(s, q, c, h), q) && Settled(WithSem(s, q, c, h), q)
    ensures Inv(WithSem(s, q, c, h))
  {
    assert AllTimed(s);
    hide Inv, Core;
    InvGives(s);
    var g := WithSem(s, q, c, h);
    WithSemCore(s, q, c, h);
    CountAllSettled(s, g, q);
    forall t: TaskId ensures TimedOk(g, t) { assert TimedOk(s, t); }
    forall p: Pri ensures ReadyAt(g, p) == ReadyAt(s, p) { }
    QuietInv(s, g);
  }

  lemma TakeUnitsInv(s: KState, q: SemId, cnt: int)
    requires Inv(s) && s.sem[q].live && 0 < cnt && MayTake(s, q, cnt)
    ensures Inv(TakeUnits(s, q, cnt))
  {
    var g := TakeUnits(s, q, cnt);
    assert SemOk(s, q) && Settled(s, q) && Waiters(g, SemQ(q)) == Waiters(s, SemQ(q));
    CountInv(s, q, g.sem[q], g.hist.sem[q]);
  }

  lemma AddUnitsCore(s: KState, q: SemId, cnt: int)
    requires Core(s) && s.sem[q].live && 0 < cnt <= s.sem[q].maxsem - s.sem[q].semcnt
    ensures Core(AddUnits(s, q, cnt)) && Ends(s, AddUnits(s, q, cnt))
    ensures AddUnits(s, q, cnt) == WithSem(s, q, AddUnits(s, q, cnt).sem[q], AddUnits(s, q, cnt).hist.sem[q])
  {
    var a := AddUnits(s, q, cnt);
    assert SemOk(s, q) && Waiters(a, SemQ(q)) == Waiters(s, SemQ(q));
    WithSemCore(s, q, a.sem[q], a.hist.sem[q]);
    forall p: Pri ensures ReadyAt(s, p) <= ReadyAt(a, p) { }
  }

  /** Units put in go to the waiters they cover. */
  lemma SigSemInv(s: KState, id: int, cnt: int)
    requires Inv(s)
    ensures Inv(SigSem(s, id, cnt).0)
  {
    if SigSem(s, id, cnt).1 == Er(E_OK) {
      hide Inv, Core, AllSettled, Ends, Serve;
      InvGives(s);
      var q: SemId := id - 1;
      var a := AddUnits(s, q, cnt);
      AddUnitsCore(s, q, cnt);
      ServedSettled(s, a, q);
      ServeKeeps(a, q);
      EndsTransitive(s, a, Serve(a, q));
      EndsInv(s, Serve(a, q));
    }
  }

  /** a is s with another count at q; serving q leaves everybody settled. */
  lemma ServedSettled(s: KState, a: KState, q: SemId)
    requires Core(a) && AllSettled(s) && a == WithSem(s, q, a.sem[q], a.hist.sem[q])
    ensures AllSettled(Serve(a, q))
  {
    hide Core, Ends, LinksOk, ServeEffect, Serve;
    var r := Serve(a, q);
    ServeKeeps(a, q);
    ServeGives(a, r, q);
    CountAllSettled(s, a, q);
    forall p: SemId ensures Settled(r, p) {
      if p != q { ServeSettlesOther(a, r, q, p); }
    }
    hide Settled;
    forall f: FlgId ensures FlgSettled(r, f) { EndsFlgSettled(a, r, f); }
  }

  lemma ServeGives(s: KState, r: KState, q: SemId)
    requires Core(s) && ServeEffect(s, r, q)
    ensures LinksOk(s) && LinksOk(r) && Ends(s, r) && r.flg == s.flg
  {
    hide Ends, LinksOk;
  }

  lemma CountAllSettled(s: KState, a: KState, q: SemId)
    requires AllSettled(s) && a == WithSem(s, q, a.sem[q], a.hist.sem[q])
    ensures forall p: SemId :: p != q ==> Settled(a, p)
    ensures forall f: FlgId :: FlgSettled(a, f)
  {
    forall p: SemId | p != q ensures Settled(a, p) { assert Settled(s, p) && Waiters(a, SemQ(p)) == Waiters(s, SemQ(p)); }
    forall f: FlgId ensures FlgSettled(a, f) { assert FlgSettled(s, f) && Waiters(a, FlgQ(f)) == Waiters(s, FlgQ(f)); }
  }

  lemma JoinReady(s: KState, w: WQ, info: WInfo, kind: Kind)
    requires Inv(s) && MayBlock(s) && InfoFits(kind, info)
    requires forall q: SemId :: SemOk(Join(s, s.current, w, info), q)
    requires forall f: FlgId :: FlgOk(Join(s, s.current, w, info), f)
    requires forall m: MbxId :: MbxOk(Join(s, s.current, w, info), m)
    ensures ReadyToWait(s, Join(s, s.current, w, info), kind)
    ensures Waiters(Join(s, s.current, w, info), w) == InsertAt(Waiters(s, w), JoinPos(s, s.current, w), s.current)
    ensures forall p :: p != w ==> Waiters(Join(s, s.current, w, info), p) == Waiters(s, p)
  {
    hide Inv, Core, LinksOk;
    InvGives(s);
    CoreGives(s);
    assert TaskOk(s, s.current);
    JoinWaits(s, s.current, w, info);
    JoinQueues(s, s.current, w, info);
  }

  lemma JoinOtherSem(s: KState, w: WQ, info: WInfo, q: SemId)
    requires Coherent(s.waits) && s.waits.at[s.current].Detached? && w != SemQ(q) && SemOk(s, q) && Settled(s, q)
    ensures SemOk(Join(s, s.current, w, info), q) && Settled(Join(s, s.current, w, info), q)
  {
    JoinWaits(s, s.current, w, info);
    assert s.current !in s.waits.Get(SemQ(q));
    assert Waiters(Join(s, s.current, w, info), SemQ(q)) == Waiters(s, SemQ(q));
  }

  lemma JoinOtherFlg(s: KState, w: WQ, info: WInfo, f: FlgId)
    requires Coherent(s.waits) && s.waits.at[s.current].Detached? && w != FlgQ(f) && FlgOk(s, f) && FlgSettled(s, f)
    ensures FlgOk(Join(s, s.current, w, info), f) && FlgSettled(Join(s, s.current, w, info), f)
  {
    JoinWaits(s, s.current, w, info);
    assert s.current !in s.waits.Get(FlgQ(f));
    assert Waiters(Join(s, s.current, w, info), FlgQ(f)) == Waiters(s, FlgQ(f));
  }

  /** The wait link of a task that has joined the queue of a live object, once it is blocked there. */
  lemma JoinLinks(s: KState, w: WQ, info: WInfo, kind: Kind, tmo: int)
    requires Exists(s, w)
    requires match w
             case SemQ(q) => kind == SEM && info.SemInfo? && info.semcb == q
             case FlgQ(_) => kind == FLG
             case MbxQ(_) => kind == MBX && info == MbxInfo(None)
    ensures WaitLinkOk(Block(Join(s, s.current, w, info), kind, tmo), s.current)
  {
    hide Block;
    var j := Join(s, s.current, w, info);
    BlockIs(j, kind, tmo, Block(j, kind, tmo), s.current);
  }

  lemma CallerDetached(s: KState)
    requires Inv(s) && MayBlock(s)
    ensures s.waits.at[s.current].Detached?
  {
    hide Inv;
    InvGivesTask(s, s.current);
  }

  /** A request that may not take its units joins the queue, and the one at the head still asks for more. */
  lemma JoinSem(s: KState, q: SemId, cnt: int, tmo: int)
    requires Inv(s) && MayBlock(s) && s.sem[q].live && 0 < cnt <= s.sem[q].maxsem && !MayTake(s, q, cnt)
    ensures var j := Join(s, s.current, SemQ(q), SemInfo(cnt, q));
            ReadyToWait(s, j, SEM) && AllSettled(j) && WaitLinkOk(Block(j, SEM, tmo), s.current)
  {
    hide Inv, Core, AllSettled, LinksOk, ObjectsOk, Join, Block, WaitLinkOk, ReadyToWait, TaskOk, MayTake, SemOk, Settled, FlgOk, FlgSettled, MbxOk;
    InvGives(s);
    CoreGives(s);
    CallerDetached(s);
    var info := SemInfo(cnt, q);
    JoinWaits(s, s.current, SemQ(q), info);
    forall p: SemId ensures SemOk(Join(s, s.current, SemQ(q), info), p) && Settled(Join(s, s.current, SemQ(q), info), p) {
      ObjectsGive(s, p, 0, 0);
      if p == q { JoinSettled(s, Join(s, s.current, SemQ(q), info), q, cnt, JoinPos(s, s.current, SemQ(q))); } else { JoinOtherSem(s, SemQ(q), info, p); }
    }
    forall f: FlgId ensures FlgOk(Join(s, s.current, SemQ(q), info), f) && FlgSettled(Join(s, s.current, SemQ(q), info), f) {
      ObjectsGive(s, q, f, 0);
      JoinOtherFlg(s, SemQ(q), info, f);
    }
    forall m: MbxId ensures MbxOk(Join(s, s.current, SemQ(q), info), m) {
      ObjectsGive(s, q, 0, m);
      JoinOtherMbx(s, SemQ(q), info, m);
    }
    JoinReady(s, SemQ(q), info, SEM);
    AllSettledOf(Join(s, s.current, SemQ(q), info));
    JoinLinks(s, SemQ(q), info, SEM, tmo);
  }

  lemma AllSettledOf(s: KState)
    requires (forall q: SemId :: Settled(s, q)) && (forall f: FlgId :: FlgSettled(s, f))
    ensures AllSettled(s)
  {
  }

  /** The parts of the invariant that concern one object of each kind. */
  lemma ObjectsGive(s: KState, q: SemId, f: FlgId, m: MbxId)
    requires Inv(s)
    ensures SemOk(s, q) && Settled(s, q) && QueueOk(s, SemQ(q)) && FlgOk(s, f) && FlgSettled(s, f) && MbxOk(s, m)
  {
    InvGives(s);
    CoreGives(s);
    hide Inv, Core, LinksOk, TaskOk, HistOk, Coherent;
  }

  lemma JoinOtherMbx(s: KState, w: WQ, info: WInfo, m: MbxId)
    requires Coherent(s.waits) && s.waits.at[s.current].Detached? && (w != MbxQ(m) || s.mbx[m].msgs == []) && MbxOk(s, m)
    ensures MbxOk(Join(s, s.current, w, info), m)
  {
    JoinWaits(s, s.current, w, info);
    assert w != MbxQ(m) ==> Waiters(Join(s, s.current, w, info), MbxQ(m)) == Waiters(s, MbxQ(m));
  }

  lemma JoinSettled(s: KState, j: KState, q: SemId, cnt: int, i: nat)
    requires SemOk(s, q) && Settled(s, q) && QueueOk(s, SemQ(q)) && s.current !in Waiters(s, SemQ(q))
    requires s.sem[q].live && 0 < cnt <= s.sem[q].maxsem && !MayTake(s, q, cnt)
    requires j == Join(s, s.current, SemQ(q), SemInfo(cnt, q)) && i == JoinPos(s, s.current, SemQ(q))
    requires Waiters(j, SemQ(q)) == InsertAt(Waiters(s, SemQ(q)), i, s.current)
    ensures SemOk(j, q) && Settled(j, q)
  {
    JoinReqs(s, SemQ(q), cnt, q);
    hide Join, JoinPos, Req, QueueOk;
    var w := Waiters(s, SemQ(q));
    var n := Waiters(j, SemQ(q));
    forall t | t in n ensures t == s.current || t in w { }
    if s.sem[q].semcnt >= cnt { JoinsBehind(s, q, cnt, i); }
    if i > 0 { assert n[0] == w[0]; }
  }

  /** Who may not take units that are there has somebody ahead of it. */
  lemma JoinsBehind(s: KState, q: SemId, cnt: int, i: nat)
    requires !MayTake(s, q, cnt) && s.sem[q].semcnt >= cnt && i == JoinPos(s, s.current, SemQ(q))
    ensures i > 0 && Waiters(s, SemQ(q)) != [] && !s.sem[q].cntOrder
  {
  }

  lemma JoinReqs(s: KState, w: WQ, cnt: int, q: SemId)
    ensures var j := Join(s, s.current, w, SemInfo(cnt, q));
            && j.sem == s.sem && j.hist.sem == s.hist.sem && Req(j, s.current) == cnt
            && forall t: TaskId :: t != s.current ==> Req(j, t) == Req(s, t)
  {
  }

  lemma WaiSemInv(s: KState, id: int, cnt: int, tmo: int, canBlock: bool)
    requires Inv(s) && (canBlock ==> TaskContext(s) && s.current != IDLE)
    ensures Inv(WaiSem(s, id, cnt, tmo, canBlock).0)
  {
    hide Inv, AllSettled, Join, Block, WaitLinkOk, ReadyToWait;
    var r := WaiSem(s, id, cnt, tmo, canBlock).1;
    if r == Er(E_OK) {
      TakeUnitsInv(s, id - 1, cnt);
    } else if r == Blocks {
      var q: SemId := id - 1;
      var j := Join(s, s.current, SemQ(q), SemInfo(cnt, q));
      JoinSem(s, q, cnt, tmo);
      BlockInv(s, j, SEM, tmo);
    }
  }

  /* ---- tables ---- */

  /** The wait rings after a head is initialised that had no waiters. */
  lemma ClearRing(s: KState, w: WQ)
    requires Coherent(s.waits) && Waiters(s, w) == []
    ensures Coherent(s.waits.Clear(w))
    ensures forall p :: s.waits.Clear(w).Get(p) == Waiters(s, p)
  {
    ClearCoherent(s.waits, w);
  }

  lemma WaitersExist(s: KState)
    requires LinksOk(s)
    ensures forall w: WQ :: Waiters(s, w) != [] ==> Exists(s, w)
  {
    forall w: WQ | Waiters(s, w) != [] ensures Exists(s, w) {
      var t := Waiters(s, w)[0];
      assert t in s.waits.Get(w) && TaskOk(s, t);
    }
  }

  lemma DeadIsEmpty(s: KState, w: WQ)
    requires LinksOk(s) && !Exists(s, w)
    ensures Waiters(s, w) == []
  {
    WaitersExist(s);
  }

  /** The frame of creating and deleting: only the tables have changed, and each kind still fits. */
  lemma TablesCore(s: KState, g: KState)
    requires Core(s) && AllSettled(s) && AllTimed(s)
    requires g == s.(waits := g.waits, sem := g.sem, flg := g.flg, mbx := g.mbx, freeSem := g.freeSem, freeFlg := g.freeFlg,
                     freeMbx := g.freeMbx, hist := s.hist.(sem := g.hist.sem, mbx := g.hist.mbx))
    requires Coherent(g.waits) && g.waits.at == s.waits.at && FreeOk(g)
    requires forall w :: Waiters(g, w) == Waiters(s, w)
    requires forall w: WQ :: Waiters(s, w) != [] ==> Exists(g, w)
    requires forall q: SemId :: SemOk(g, q) && Settled(g, q)
    requires forall f: FlgId :: FlgOk(g, f) && FlgSettled(g, f)
    requires forall m: MbxId :: MbxOk(g, m)
    requires forall w: WQ :: Waiters(s, w) == [] || PriorityOrdered(g, w) == PriorityOrdered(s, w)
    ensures Core(g) && AllSettled(g) && AllTimed(g)
  {
    forall t: TaskId ensures TaskOk(g, t) && HistOk(g, t) {
      assert TaskOk(s, t) && HistOk(s, t);
      if s.waits.at[t].On? { assert t in s.waits.Get(s.waits.at[t].q); assert Waiters(s, s.waits.at[t].q) != []; }
    }
    forall w: WQ ensures QueueOk(g, w) { assert QueueOk(s, w) && Waiters(g, w) == Waiters(s, w); }
    forall t: TaskId ensures TimedOk(g, t) { assert TimedOk(s, t); }
  }

  lemma CreSemInv(s: KState, tpri: bool, cntOrder: bool, isemcnt: int, maxsem: int)
    requires Inv(s)
    ensures Inv(CreSem(s, tpri, cntOrder, isemcnt, maxsem).0)
  {
    if CreSem(s, tpri, cntOrder, isemcnt, maxsem).1.NewId? {
      CreatedSem(s, s.freeSem[0], Semcb(true, tpri, cntOrder, isemcnt, maxsem), CreSem(s, tpri, cntOrder, isemcnt, maxsem).0);
    }
  }

  lemma CreatedSem(s: KState, q: SemId, c: Semcb, g: KState)
    requires Inv(s) && s.freeSem != [] && q == s.freeSem[0] && c.live && 0 <= c.semcnt <= c.maxsem <= TK_SEMAPHORE_MAXCNT && 1 <= c.maxsem
    requires g == s.(freeSem := s.freeSem[1..], waits := s.waits.Clear(SemQ(q)), sem := s.sem[q := c],
                     hist := s.hist.(sem := s.hist.sem[q := SemHist(c.semcnt, 0)]))
    ensures Inv(g)
  {
    assert Core(s) && AllSettled(s) && AllTimed(s);
    CreatedSemCore(s, q, c, g);
    hide Core, AllSettled, AllTimed;
    forall p: Pri ensures ReadyAt(g, p) == ReadyAt(s, p) { }
    QuietInv(s, g);
  }

  lemma CreatedSemCore(s: KState, q: SemId, c: Semcb, g: KState)
    requires Core(s) && AllSettled(s) && AllTimed(s)
    requires s.freeSem != [] && q == s.freeSem[0] && c.live && 0 <= c.semcnt <= c.maxsem <= TK_SEMAPHORE_MAXCNT && 1 <= c.maxsem
    requires g == s.(freeSem := s.freeSem[1..], waits := s.waits.Clear(SemQ(q)), sem := s.sem[q := c],
                     hist := s.hist.(sem := s.hist.sem[q := SemHist(c.semcnt, 0)]))
    ensures Core(g) && AllSettled(g) && AllTimed(g)
  {
    assert q in s.freeSem;
    DeadIsEmpty(s, SemQ(q));
    ClearRing(s, SemQ(q));
    forall p: SemId ensures SemOk(g, p) && Settled(g, p) {
      assert SemOk(s, p) && Settled(s, p) && Waiters(g, SemQ(p)) == Waiters(s, SemQ(p));
    }
    forall f: FlgId ensures FlgOk(g, f) && FlgSettled(g, f) {
      assert FlgOk(s, f) && FlgSettled(s, f) && Waiters(g, FlgQ(f)) == Waiters(s, FlgQ(f));
    }
    forall m: MbxId ensures MbxOk(g, m) { assert MbxOk(s, m) && Waiters(g, MbxQ(m)) == Waiters(s, MbxQ(m)); }
    WaitersExist(s);
    TablesCore(s, g);
  }

  /** A queue whose waiters have all been released leaves the other objects settled. */
  lemma EmptiedSettled(s: KState, r: KState, w: WQ, rest: seq<TaskId>)
    requires Core(s) && AllSettled(s) && AllTimed(s) && EmptiedEffect(s, r, w, rest) && Waiters(s, w) == rest
    ensures AllSettled(r) && AllTimed(r)
  {
    hide Core, Ends, LinksOk, ObjectsOk, FreeOk, TaskOk, HistOk;
    CoreGives(s);
    CoreGives(r);
    forall p: SemId ensures Settled(r, p) {
      assert Settled(s, p);
      if w != SemQ(p) {
        assert Waiters(r, SemQ(p)) == Waiters(s, SemQ(p));
        forall t | t in Waiters(s, SemQ(p)) ensures Req(r, t) == Req(s, t) { OnOneQueue(s, SemQ(p), w, t); }
      }
    }
    forall f: FlgId ensures FlgSettled(r, f) { EndsFlgSettled(s, r, f); }
    EndsTimed(s, r);
  }

  /** The control block of a semaphore nobody waits for goes back to the free list. */
  lemma FreeSemCore(r: KState, q: SemId)
    requires Core(r) && AllSettled(r) && AllTimed(r) && r.sem[q].live && Waiters(r, SemQ(q)) == []
    ensures var d := r.(sem := r.sem[q := NO_SEM], freeSem := r.freeSem + [q]);
            Core(d) && AllSettled(d) && AllTimed(d)
  {
    var d := r.(sem := r.sem[q := NO_SEM], freeSem := r.freeSem + [q]);
    forall p: SemId ensures SemOk(d, p) && Settled(d, p) {
      assert SemOk(r, p) && Settled(r, p) && Waiters(d, SemQ(p)) == Waiters(r, SemQ(p));
    }
    forall f: FlgId ensures FlgOk(d, f) && FlgSettled(d, f) {
      assert FlgOk(r, f) && FlgSettled(r, f) && Waiters(d, FlgQ(f)) == Waiters(r, FlgQ(f));
    }
    forall m: MbxId ensures MbxOk(d, m) { assert MbxOk(r, m) && Waiters(d, MbxQ(m)) == Waiters(r, MbxQ(m)); }
    WaitersExist(r);
    TablesCore(r, d);
  }

  lemma DelSemInv(s: KState, id: int)
    requires Inv(s)
    ensures Inv(DelSem(s, id).0)
  {
    if DelSem(s, id).1 == Er(E_OK) {
      assert AllTimed(s) && SchedOk(s);
      hide Inv, Core, AllSettled, AllTimed, Ends, SchedOk, RunsAlone, ReleaseAll, Resched;
      InvGives(s);
      var q: SemId := id - 1;
      var w := Waiters(s, SemQ(q));
      FreedSem(s, q, w, ReleaseAll(s, w));
    }
  }

  lemma FreedSem(s: KState, q: SemId, w: seq<TaskId>, r: KState)
    requires Inv(s) && s.sem[q].live && w == Waiters(s, SemQ(q)) && r == ReleaseAll(s, w)
    ensures var d := r.(sem := r.sem[q := NO_SEM], freeSem := r.freeSem + [q]);
            if w == [] then Inv(d) else Inv(Resched(d))
  {
    assert AllTimed(s) && SchedOk(s);
    hide Inv, Core, AllSettled, AllTimed, Ends, SchedOk, Resched;
    InvGives(s);
    ReleaseAllKeeps(s, SemQ(q), w);
    EmptiedSettled(s, r, SemQ(q), w);
    FreeSemCore(r, q);
    EndsRunsAlone(s, r);
    var d := r.(sem := r.sem[q := NO_SEM], freeSem := r.freeSem + [q]);
    if w == [] {
      QuietInv(s, d);
    } else {
      ReschedInv(d);
    }
  }
}
