/** The event flag calls keep the invariant of the kernel: nobody waits for a pattern that is there. */
module FlgCalls {
  import opened Types
  import opened Rings
  import opened KernelState
  import opened KernelOps
  import opened Frames
  import opened WaitEnd
  import opened WaitStart
  import opened Scheduling
  import opened TaskCalls
  import opened SemCalls
  import opened EventFlags

  /** A pattern that only loses bits satisfies nobody new. */
  lemma ShrinkInv(s: KState, f: FlgId, p: Ptn)
    requires Inv(s) && p <= s.flg[f].flgptn
    ensures Inv(WithFlg(s, f, s.flg[f].(flgptn := p)))
  {
    var c := s.flg[f].(flgptn := p);
    var g := WithFlg(s, f, c);
    WithFlgCore(s, f, c);
    forall q: SemId ensures Settled(g, q) { assert Settled(s, q) && Waiters(g, SemQ(q)) == Waiters(s, SemQ(q)); }
    forall e: FlgId ensures FlgSettled(g, e) {
      assert FlgSettled(s, e) && Waiters(g, FlgQ(e)) == Waiters(s, FlgQ(e));
      forall t | t in Waiters(g, FlgQ(e)) ensures !Satisfied(g, g.flg[e].flgptn, t) {
        if e == f && Satisfied(g, p, t) {
          MatchMonotone(p, s.flg[f].flgptn, s.tcb[t].winfo.waiptn, s.tcb[t].winfo.wfmode);
        }
      }
    }
    forall t: TaskId ensures TimedOk(g, t) { assert TimedOk(s, t); }
    forall q: Pri ensures ReadyAt(g, q) == ReadyAt(s, q) { }
    QuietInv(s, g);
  }

  lemma ClrFlgInv(s: KState, id: int, clrptn: Ptn)
    requires Inv(s)
    ensures Inv(ClrFlg(s, id, clrptn).0)
  {
    if ClrFlg(s, id, clrptn).1 == Er(E_OK) {
      ShrinkInv(s, id - 1, s.flg[id - 1].flgptn * clrptn);
    }
  }

  /** Setting bits serves every waiter they satisfy. */
  lemma SetFlgInv(s: KState, id: int, setptn: Ptn)
    requires Inv(s)
    ensures Inv(SetFlg(s, id, setptn).0)
  {
    hide Inv, Core, AllSettled, LinksOk, Ends, Unvisited;
    InvGives(s);
    if SetFlg(s, id, setptn).1 == Er(E_OK) {
      var f: FlgId := id - 1;
      var w := Waiters(s, FlgQ(f));
      var c := s.flg[f].(flgptn := s.flg[f].flgptn + setptn);
      var u := WithFlg(s, f, c);
      WithFlgCore(s, f, c);
      AllUnvisited(s, f, c);
      SetFromKeeps(u, f, w);
      SetSettled(s, u, f, w);
      var r := SetFrom(u, f, w);
      WithFlgEnds(s, f, c);
      EndsTransitive(s, u, r);
      if w == [] {
        CoreGives(u);
        InvTimed(s);
        EndsTimed(s, u);
        QuietInv(s, u);
      } else {
        EndsInv(s, r);
      }
    }
  }

  lemma WithFlgEnds(s: KState, f: FlgId, c: Flgcb)
    requires LinksOk(s)
    ensures Ends(s, WithFlg(s, f, c))
  {
    forall p: Pri ensures ReadyAt(s, p) <= ReadyAt(WithFlg(s, f, c), p) { }
  }

  lemma StillAsks(u: KState, r: KState, q: SemId, t: TaskId)
    requires LinksOk(r) && Ends(u, r) && t in Waiters(r, SemQ(q))
    ensures Req(r, t) == Req(u, t)
  {
    WaiterWaits(r, SemQ(q), t);
    hide LinksOk;
    assert SameOrEnded(u, r, t);
  }

  lemma SetSettled(s: KState, u: KState, f: FlgId, w: seq<TaskId>)
    requires Core(u) && AllSettled(s) && u == WithFlg(s, f, u.flg[f]) && Unvisited(u, f, w)
    ensures AllSettled(SetFrom(u, f, w))
  {
    hide Core, Ends, LinksOk, ObjectsOk, FreeOk, TaskOk, HistOk, SetFrom;
    var r := SetFrom(u, f, w);
    SetFromKeeps(u, f, w);
    CoreGives(u);
    CoreGives(r);
    forall q: SemId ensures Settled(r, q) {
      assert Settled(s, q) && Waiters(u, SemQ(q)) == Waiters(s, SemQ(q)) && Waiters(r, SemQ(q)) == Waiters(u, SemQ(q));
      forall t | t in Waiters(u, SemQ(q)) ensures Req(r, t) == Req(s, t) { StillAsks(u, r, q, t); }
    }
    forall e: FlgId ensures FlgSettled(r, e) {
      if e != f {
        assert FlgSettled(s, e) && Waiters(u, FlgQ(e)) == Waiters(s, FlgQ(e));
        EndsFlgSettled(u, r, e);
      }
    }
  }

  lemma NewcomerUnsatisfied(s: KState, f: FlgId, waiptn: Ptn, wfmode: Mode)
    requires Coherent(s.waits) && s.waits.at[s.current].Detached? && FlgOk(s, f) && FlgSettled(s, f)
    requires s.flg[f].live && !Match(s.flg[f].flgptn, waiptn, wfmode) && (s.flg[f].wmul || Waiters(s, FlgQ(f)) == [])
    ensures var j := Join(s, s.current, FlgQ(f), FlgInfo(waiptn, wfmode, {}));
            FlgOk(j, f) && FlgSettled(j, f)
  {
    var info := FlgInfo(waiptn, wfmode, {});
    var j := Join(s, s.current, FlgQ(f), info);
    JoinWaits(s, s.current, FlgQ(f), info);
    assert s.current !in s.waits.Get(FlgQ(f));
    forall t | t in Waiters(j, FlgQ(f)) ensures t == s.current || t in Waiters(s, FlgQ(f)) { }
  }

  lemma JoinFlg(s: KState, f: FlgId, waiptn: Ptn, wfmode: Mode, tmo: int)
    requires Inv(s) && MayBlock(s) && s.flg[f].live && !Match(s.flg[f].flgptn, waiptn, wfmode)
    requires s.flg[f].wmul || Waiters(s, FlgQ(f)) == []
    ensures var j := Join(s, s.current, FlgQ(f), FlgInfo(waiptn, wfmode, {}));
            ReadyToWait(s, j, FLG) && AllSettled(j) && WaitLinkOk(Block(j, FLG, tmo), s.current)
  {
    hide Inv, Core, AllSettled, LinksOk, ObjectsOk, Join, Block, WaitLinkOk, ReadyToWait, TaskOk, SemOk, Settled, FlgOk, FlgSettled, MbxOk;
    InvGives(s);
    CoreGives(s);
    CallerDetached(s);
    var info := FlgInfo(waiptn, wfmode, {});
    forall q: SemId ensures SemOk(Join(s, s.current, FlgQ(f), info), q) && Settled(Join(s, s.current, FlgQ(f), info), q) {
      ObjectsGive(s, q, f, 0);
      JoinOtherSem(s, FlgQ(f), info, q);
    }
    forall e: FlgId ensures FlgOk(Join(s, s.current, FlgQ(f), info), e) && FlgSettled(Join(s, s.current, FlgQ(f), info), e) {
      ObjectsGive(s, 0, e, 0);
      if e == f { NewcomerUnsatisfied(s, f, waiptn, wfmode); } else { JoinOtherFlg(s, FlgQ(f), info, e); }
    }
    forall m: MbxId ensures MbxOk(Join(s, s.current, FlgQ(f), info), m) {
      ObjectsGive(s, 0, f, m);
      JoinOtherMbx(s, FlgQ(f), info, m);
    }
    JoinReady(s, FlgQ(f), info, FLG);
    AllSettledOf(Join(s, s.current, FlgQ(f), info));
    JoinLinks(s, FlgQ(f), info, FLG, tmo);
  }

  lemma WaiFlgInv(s: KState, id: int, waiptn: Ptn, wfmode: Mode, tmo: int, canBlock: bool)
    requires Inv(s) && (canBlock ==> TaskContext(s) && s.current != IDLE)
    ensures Inv(WaiFlg(s, id, waiptn, wfmode, tmo, canBlock).0)
  {
    hide Inv, AllSettled, Join, Block, WaitLinkOk, ReadyToWait;
    var r := WaiFlg(s, id, waiptn, wfmode, tmo, canBlock).1;
    if r.Pattern? {
      ShrinkInv(s, id - 1, Consume(s.flg[id - 1].flgptn, waiptn, wfmode));
    } else if r == Blocks {
      JoinFlg(s, id - 1, waiptn, wfmode, tmo);
      BlockInv(s, Join(s, s.current, FlgQ(id - 1), FlgInfo(waiptn, wfmode, {})), FLG, tmo);
    }
  }

  lemma CreFlgInv(s: KState, tpri: bool, wmul: bool, iflgptn: Ptn)
    requires Inv(s)
    ensures Inv(CreFlg(s, tpri, wmul, iflgptn).0)
  {
    var g := CreFlg(s, tpri, wmul, iflgptn).0;
    if s.freeFlg != [] {
      var f := s.freeFlg[0];
      assert f in s.freeFlg;
      DeadIsEmpty(s, FlgQ(f));
      ClearRing(s, FlgQ(f));
      forall p: SemId ensures SemOk(g, p) && Settled(g, p) {
        assert SemOk(s, p) && Settled(s, p) && Waiters(g, SemQ(p)) == Waiters(s, SemQ(p));
      }
      forall e: FlgId ensures FlgOk(g, e) && FlgSettled(g, e) {
        assert FlgOk(s, e) && FlgSettled(s, e) && Waiters(g, FlgQ(e)) == Waiters(s, FlgQ(e));
      }
      forall m: MbxId ensures MbxOk(g, m) { assert MbxOk(s, m) && Waiters(g, MbxQ(m)) == Waiters(s, MbxQ(m)); }
      WaitersExist(s);
      TablesCore(s, g);
      QuietInv(s, g);
    }
  }
}
