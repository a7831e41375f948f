/** What one step may do to a task it is not about: the frame all the run-time guarantees rest on. */
module StepEffects {
  import opened Types
  import opened Rings
  import opened KernelState
  import opened KernelOps
  import opened Frames
  import opened WaitEnd
  import opened WaitStart
  import opened Timer
  import opened TimerRuns
  import opened TimerLate
  import opened EventFlags
  import opened TaskCalls
  import opened SemCalls
  import opened FlgCalls
  import opened MbxCalls

  /** The record of what a wait is about and how long it may last, as history keeps it. */
  predicate SameStory(s: KState, r: KState, t: TaskId) {
    r.hist.task[t].(accepted := 0, used := 0) == s.hist.task[t].(accepted := 0, used := 0)
  }

  /** The task is where it was: at most switched, a tick further, or with another count of queued wake-ups. */
  predicate Kept(s: KState, r: KState, t: TaskId) {
    var a, b := s.tcb[t], r.tcb[t];
    && r.heads.at[t] == s.heads.at[t] && r.waits.at[t] == s.waits.at[t]
    && b == a.(tskstat := b.tskstat, wupcnt := b.wupcnt, delay := b.delay)
    && (b.tskstat == a.tskstat || (Runnable(s, t) && Runnable(r, t)))
    && SameStory(s, r, t)
  }

  /** The task's wait is over: it is ready, still inside its call, with a cause. */
  predicate Ended(s: KState, r: KState, t: TaskId) {
    && Waiting(s, t) && r.tcb[t].tskstat == RDY && r.tcb[t].pc == s.tcb[t].pc && r.tcb[t].itskpri == s.tcb[t].itskpri
    && IsCause(r.tcb[t].wupcause) && SameStory(s, r, t)
  }

  /** What a step may do to task t; `acts` if the step is the current task's own. */
  predicate TaskStep(s: KState, r: KState, t: TaskId, acts: bool) {
    || Kept(s, r, t)
    || Ended(s, r, t)
    || (acts && t == s.current && s.tcb[t].tskstat == RUN)
    || s.tcb[t].tskstat in {NOEXS, DMT}
  }

  /** Ready queues only grow at their tails, but for the current task where it gives up its place. */
  ghost predicate PlacesKept(s: KState, r: KState, loses: bool) {
    forall p: Pri :: (if loses then Without(ReadyAt(s, p), s.current) else ReadyAt(s, p)) <= ReadyAt(r, p)
  }

  ghost predicate Effect(s: KState, r: KState, acts: bool, loses: bool) {
    (&& (forall t: TaskId :: TaskStep(s, r, t, acts))
     && PlacesKept(s, r, loses)) == true
  }

  /** A choice of the next task, with or without a switch request, changes none of this. */
  lemma ChoiceEffect(s: KState, r: KState, g: KState, acts: bool, loses: bool)
    requires Effect(s, r, acts, loses) && g == r.(next := g.next, msip := g.msip)
    ensures Effect(s, g, acts, loses)
  {
    forall t: TaskId ensures TaskStep(s, g, t, acts) { assert TaskStep(s, r, t, acts); }
    forall p: Pri ensures ReadyAt(g, p) == ReadyAt(r, p) { }
    assert PlacesKept(s, r, loses);
  }

  lemma EndsEffect(s: KState, r: KState)
    requires Ends(s, r)
    ensures Effect(s, r, false, false)
  {
    forall t: TaskId ensures TaskStep(s, r, t, false) { assert SameOrEnded(s, r, t); }
  }

  /** Another history or record of queued wake-ups for one task. */
  lemma StoryEffect(s: KState, r: KState, t: TaskId, n: nat, h: TaskHist)
    requires Effect(s, r, false, false) && h == r.hist.task[t].(accepted := h.accepted, used := h.used)
    ensures Effect(s, WithTask(r, t, r.tcb[t].(wupcnt := n), h), false, false)
  {
    var g := WithTask(r, t, r.tcb[t].(wupcnt := n), h);
    forall u: TaskId ensures TaskStep(s, g, u, false) { assert TaskStep(s, r, u, false); }
    forall p: Pri ensures ReadyAt(g, p) == ReadyAt(r, p) { }
  }

  lemma NothingEffect(s: KState)
    ensures Effect(s, s, false, false) && Effect(s, s, true, false)
  {
    forall t: TaskId ensures TaskStep(s, s, t, false) && TaskStep(s, s, t, true) { assert s.tcb[t] == s.tcb[t].(tskstat := s.tcb[t].tskstat); }
  }

  /** Control blocks, messages, the clock and the wait rings of objects without waiters do not concern tasks. */
  lemma TablesEffect(s: KState, r: KState, g: KState, acts: bool, loses: bool)
    requires Effect(s, r, acts, loses)
    requires g.tcb == r.tcb && g.heads == r.heads && g.waits.at == r.waits.at && g.hist.task == r.hist.task
    ensures Effect(s, g, acts, loses)
  {
    forall t: TaskId ensures TaskStep(s, g, t, acts) { assert TaskStep(s, r, t, acts); }
    forall p: Pri ensures ReadyAt(g, p) == ReadyAt(r, p) { }
    assert PlacesKept(s, r, loses);
  }

  lemma Untouched(s: KState, g: KState, u: TaskId, acts: bool)
    requires g.tcb[u] == s.tcb[u] && g.heads.at[u] == s.heads.at[u] && g.waits.at[u] == s.waits.at[u] && g.hist.task[u] == s.hist.task[u]
    ensures TaskStep(s, g, u, acts)
  {
  }

  /* ---- the steps, one by one ---- */

  lemma CreTskEffect(s: KState, pri: int)
    requires Inv(s)
    ensures Effect(s, CreTsk(s, pri).0, false, false)
  {
    hide Inv, Core, AllSettled, LinksOk;
    InvGives(s);
    CoreGives(s);
    NothingEffect(s);
    if InRange(pri, CFN_MAX_PRI) && s.heads.Get(FreeQ) != [] {
      var t := s.heads.Get(FreeQ)[0];
      var g := CreTsk(s, pri).0;
      CreatedMoved(s, pri, g, t);
      assert s.tcb[t].tskstat == NOEXS by { assert TaskOk(s, t) && t in s.heads.Get(FreeQ); }
      hide CreTsk, TaskOk, HistOk, Coherent;
      forall u: TaskId ensures TaskStep(s, g, u, false) {
        if u != t { Untouched(s, g, u, false); }
      }
    }
  }

  lemma StaTskEffect(s: KState, id: int)
    requires Inv(s)
    ensures Effect(s, StaTsk(s, id).0, false, false)
  {
    hide Inv, LinksOk, Effect, Started;
    InvGives(s);
    NothingEffect(s);
    if StaTsk(s, id).1 == Er(E_OK) {
      var t: TaskId := id - 1;
      StartedEffect(s, t);
      ChoiceEffect(s, Started(s, t), Resched(Started(s, t)), false, false);
    }
  }

  lemma StartedEffect(s: KState, t: TaskId)
    requires LinksOk(s) && s.tcb[t].tskstat == DMT
    ensures Effect(s, Started(s, t), false, false)
  {
    var g := Started(s, t);
    assert TaskOk(s, t);
    StartHeads(s.heads, t, s.tcb[t].itskpri);
    forall u: TaskId ensures TaskStep(s, g, u, false) {
      if u != t { Untouched(s, g, u, false); }
    }
    forall p: Pri ensures ReadyAt(s, p) <= ReadyAt(g, p) { }
  }

  /** The current task moves to the tail of a ring, or off its ready queue. */
  lemma LeaveEffect(s: KState, g: KState)
    requires LinksOk(s) && TaskContext(s)
    requires forall u: TaskId :: u != s.current ==>
               g.tcb[u] == s.tcb[u] && g.heads.at[u] == s.heads.at[u] && g.waits.at[u] == s.waits.at[u] && g.hist.task[u] == s.hist.task[u]
    requires forall p: Pri :: Without(ReadyAt(s, p), s.current) <= ReadyAt(g, p)
    ensures Effect(s, g, true, true)
  {
    forall u: TaskId ensures TaskStep(s, g, u, true) {
      if u != s.current { Untouched(s, g, u, true); }
    }
  }

  lemma YieldEffect(s: KState)
    requires LinksOk(s) && TaskContext(s)
    ensures Effect(s, Yield(s), true, true)
  {
    var q := ReadyQ(s.tcb[s.current].itskpri);
    MoveHeads(s.heads, s.current, q);
    LeaveReady(s, Rotated(s), q);
    LeaveEffect(s, Rotated(s));
    ChoiceEffect(s, Rotated(s), Yield(s), true, true);
  }

  lemma LeaveReady(s: KState, g: KState, q: HQ)
    requires forall p :: g.heads.Get(p) == (if s.heads.at[s.current] == On(p) then Without(s.heads.Get(p), s.current) else s.heads.Get(p))
                                           + if p == q then [s.current] else []
    requires Coherent(s.heads)
    ensures forall p: Pri :: Without(ReadyAt(s, p), s.current) <= ReadyAt(g, p)
  {
    forall p: Pri ensures Without(ReadyAt(s, p), s.current) <= ReadyAt(g, p) {
      if s.heads.at[s.current] != On(ReadyQ(p)) { WithoutAbsent(ReadyAt(s, p), s.current); }
    }
  }

  lemma ExtTskEffect(s: KState)
    requires LinksOk(s) && TaskContext(s)
    ensures Effect(s, ExtTsk(s), true, true)
  {
    DelCoherent(s.heads, s.current);
    forall p: Pri ensures Without(ReadyAt(s, p), s.current) <= ReadyAt(Exited(s), p) {
      if s.heads.at[s.current] != On(ReadyQ(p)) { WithoutAbsent(ReadyAt(s, p), s.current); }
    }
    LeaveEffect(s, Exited(s));
    ChoiceEffect(s, Exited(s), ExtTsk(s), true, true);
  }

  lemma ExdTskEffect(s: KState)
    requires LinksOk(s) && TaskContext(s)
    ensures Effect(s, ExdTsk(s), true, true)
  {
    MoveHeads(s.heads, s.current, FreeQ);
    LeaveReady(s, Deleted(s), FreeQ);
    LeaveEffect(s, Deleted(s));
    ChoiceEffect(s, Deleted(s), ExdTsk(s), true, true);
  }

  lemma BlockEffect(s: KState, j: KState, kind: Kind, tmo: int)
    requires ReadyToWait(s, j, kind)
    ensures Effect(s, Block(j, kind, tmo), true, true)
  {
    hide Core, Coherent, ObjectsOk, InfoFits;
    CoreGives(s);
    RunnerReady(s);
    hide TaskOk, HistOk, FreeOk, Block, Kept;
    BlockHeads(j, kind, tmo);
    BlockOthers(s, j, kind, tmo);
    forall u: TaskId ensures TaskStep(s, Block(j, kind, tmo), u, true) { }
  }

  lemma BlockOthers(s: KState, j: KState, kind: Kind, tmo: int)
    requires ReadyToWait(s, j, kind)
    ensures forall u: TaskId :: u != s.current ==> Kept(s, Block(j, kind, tmo), u) || s.tcb[u].tskstat in {NOEXS, DMT}
  {
    hide Core, Coherent, ObjectsOk, InfoFits, Block;
    var b := Block(j, kind, tmo);
    forall u: TaskId | u != s.current ensures Kept(s, b, u) || s.tcb[u].tskstat in {NOEXS, DMT} {
      BlockIs(j, kind, tmo, b, u);
    }
  }

  lemma RelWaiEffect(s: KState, id: int)
    requires Inv(s)
    ensures Effect(s, RelWai(s, id).0, false, false)
  {
    NothingEffect(s);
    if RelWai(s, id).1 == Er(E_OK) {
      var c := CompleteWait(s, id - 1, E_RLWAI);
      CompleteWaitKeeps(s, id - 1, E_RLWAI);
      EndsEffect(s, c);
      ChoiceEffect(s, c, Resched(c), false, false);
    }
  }

  lemma SleepHist(s: KState, t: TaskId)
    requires s.tcb[t].tskwait == SLP
    ensures CompleteWait(s, t, E_OK).hist == s.hist
  {
  }

  lemma WokenEffect(s: KState, t: TaskId)
    requires Core(s) && Waiting(s, t) && s.tcb[t].tskwait == SLP
    ensures Effect(s, Resched(Woken(s, t)), false, false)
  {
    hide Core, Ends, CompleteWait, Effect;
    var c := CompleteWait(s, t, E_OK);
    var h := s.hist.task[t].(accepted := s.hist.task[t].accepted + 1, used := s.hist.task[t].used + 1);
    CompleteWaitKeeps(s, t, E_OK);
    EndsEffect(s, c);
    assert c.hist == s.hist by { SleepHist(s, t); }
    assert c.tcb[t := c.tcb[t].(wupcnt := c.tcb[t].wupcnt)] == c.tcb;
    StoryEffect(s, c, t, c.tcb[t].wupcnt, h);
    ChoiceEffect(s, WithTask(c, t, c.tcb[t], h), Resched(Woken(s, t)), false, false);
  }

  lemma QueueWakeupEffect(s: KState, t: TaskId)
    ensures Effect(s, QueueWakeup(s, t).0, false, false)
  {
    NothingEffect(s);
    StoryEffect(s, s, t, s.tcb[t].wupcnt + 1, s.hist.task[t].(accepted := s.hist.task[t].accepted + 1));
  }

  lemma WupTskEffect(s: KState, id: int, inIsr: bool)
    requires Inv(s)
    ensures Effect(s, WupTsk(s, id, inIsr).0, false, false)
  {
    hide Inv, Core, AllSettled, LinksOk, Effect, Woken, Resched, QueueWakeup;
    InvGives(s);
    NothingEffect(s);
    if InRange(id, CFN_MAX_TSKID) {
      var t: TaskId := id - 1;
      QueueWakeupEffect(s, t);
      if Waiting(s, t) && s.tcb[t].tskwait == SLP { WokenEffect(s, t); }
    }
  }

  lemma SlpTskEffect(s: KState, tmo: int, canBlock: bool)
    requires Inv(s) && (canBlock ==> TaskContext(s) && s.current != IDLE)
    ensures var r := SlpTsk(s, tmo, canBlock); Effect(s, r.0, canBlock, canBlock && r.1 == Blocks)
  {
    hide Effect, Block;
    NothingEffect(s);
    var r := SlpTsk(s, tmo, canBlock);
    if r.1 == Blocks {
      AloneEffect(s, SLP, tmo);
    } else if r.0 != s {
      UsedEffect(s, r.0, canBlock);
    }
  }

  /** A queued wake-up is used. */
  lemma UsedEffect(s: KState, r: KState, acts: bool)
    requires s.tcb[s.current].wupcnt > 0 && r == s.(tcb := r.tcb, hist := s.hist.(task := r.hist.task))
    requires r.tcb == s.tcb[s.current := s.tcb[s.current].(wupcnt := s.tcb[s.current].wupcnt - 1)]
    requires r.hist.task == s.hist.task[s.current := s.hist.task[s.current].(used := s.hist.task[s.current].used + 1)]
    ensures Effect(s, r, acts, false)
  {
    var h := s.hist.task[s.current];
    NothingEffect(s);
    StoryEffect(s, s, s.current, s.tcb[s.current].wupcnt - 1, h.(used := h.used + 1));
    forall t: TaskId ensures TaskStep(s, r, t, acts) { assert TaskStep(s, r, t, false); }
  }

  lemma AloneEffect(s: KState, kind: Kind, tmo: int)
    requires Inv(s) && MayBlock(s) && kind in {SLP, DLY}
    ensures Effect(s, Block(s, kind, tmo), true, true)
  {
    hide Inv, Core, AllSettled, LinksOk, Coherent, FreeOk, TaskOk, HistOk, ObjectsOk, Effect, Block;
    InvGives(s);
    CoreGives(s);
    assert s.tcb == s.tcb[s.current := s.tcb[s.current].(winfo := s.tcb[s.current].winfo)];
    BlockEffect(s, s, kind, tmo);
  }

  lemma DlyTskEffect(s: KState, ms: nat, canBlock: bool)
    requires Inv(s) && (canBlock ==> TaskContext(s) && s.current != IDLE)
    ensures var r := DlyTsk(s, ms, canBlock); Effect(s, r.0, canBlock, canBlock)
  {
    hide Inv, Core, AllSettled, LinksOk, Effect, Block;
    InvGives(s);
    NothingEffect(s);
    if canBlock {
      if ms == 0 {
        YieldEffect(s);
      } else {
        AloneEffect(s, DLY, ms);
      }
    }
  }

  lemma ResumeEffect(s: KState)
    requires Inv(s) && s.tcb[s.current].tskstat == RUN && s.tcb[s.current].pc.InWait?
    ensures Effect(s, Resume(s).0, true, false)
  {
    var g := Resume(s).0;
    assert TaskOk(s, s.current);
    assert g.heads == s.heads && g.waits == s.waits;
    forall u: TaskId ensures TaskStep(s, g, u, true) { }
    forall p: Pri ensures ReadyAt(s, p) == ReadyAt(g, p) { }
  }

  lemma ScheduleEffect(s: KState)
    requires Inv(s) && s.msip && Some(Schedule(s).current) == s.next && Runnable(s, Schedule(s).current)
    ensures Effect(s, Schedule(s), false, false)
  {
    var g := Schedule(s);
    forall u: TaskId ensures TaskStep(s, g, u, false) { }
    forall p: Pri ensures ReadyAt(s, p) == ReadyAt(g, p) { }
  }

  lemma TimerEffect(s: KState)
    requires Inv(s)
    ensures Effect(s, TimerHandler(s), false, false)
  {
    NothingEffect(s);
    var p := Pending(s.mtimecmp, s.now);
    if p > 0 {
      AdvancedSettled(s);
      var a := Advanced(s);
      var e := Expire(a, p).0;
      ExpireAfter(a, p);
      TicksEffect(s, a, e, p);
      ChoiceEffect(s, e, TimerHandler(s), false, false);
    }
  }

  lemma TicksEffect(s: KState, a: KState, e: KState, p: nat)
    requires Inv(s) && a == Advanced(s) && Core(e) && AfterTicks(a, e, p)
    ensures Effect(s, e, false, false)
  {
    forall t: TaskId ensures TaskStep(s, e, t, false) { assert TaskAfter(a, e, t, p) && TaskOk(s, t) && TaskOk(e, t); }
    forall q: Pri ensures ReadyAt(s, q) <= ReadyAt(e, q) { assert ReadyAt(a, q) <= ReadyAt(e, q) && ReadyAt(a, q) == ReadyAt(s, q); }
  }

  lemma SigSemEffect(s: KState, id: int, cnt: int)
    requires Inv(s)
    ensures Effect(s, SigSem(s, id, cnt).0, false, false)
  {
    NothingEffect(s);
    if SigSem(s, id, cnt).1 == Er(E_OK) {
      hide Inv, Core, AllSettled, LinksOk, Ends, Serve, Effect;
      InvGives(s);
      var a := AddUnits(s, id - 1, cnt);
      AddUnitsCore(s, id - 1, cnt);
      ServeKeeps(a, id - 1);
      EndsTransitive(s, a, Serve(a, id - 1));
      EndsEffect(s, Serve(a, id - 1));
      ChoiceEffect(s, Serve(a, id - 1), SigSem(s, id, cnt).0, false, false);
    }
  }

  lemma DelSemEffect(s: KState, id: int)
    requires Inv(s)
    ensures Effect(s, DelSem(s, id).0, false, false)
  {
    hide Inv, Core, AllSettled, LinksOk, ReleaseAll, Ends, Effect;
    InvGives(s);
    NothingEffect(s);
    if DelSem(s, id).1 == Er(E_OK) {
      DropSemEffect(s, id - 1, ReleaseAll(s, Waiters(s, SemQ(id - 1))));
    }
  }

  lemma ReleasedEffect(s: KState, w: WQ)
    requires Core(s)
    ensures Effect(s, ReleaseAll(s, Waiters(s, w)), false, false)
  {
    ReleaseAllKeeps(s, w, Waiters(s, w));
    EndsEffect(s, ReleaseAll(s, Waiters(s, w)));
  }

  lemma DropSemEffect(s: KState, q: SemId, r: KState)
    requires Core(s) && r == ReleaseAll(s, Waiters(s, SemQ(q)))
    ensures var d := r.(sem := r.sem[q := NO_SEM], freeSem := r.freeSem + [q]);
            Effect(s, d, false, false) && Effect(s, Resched(d), false, false)
  {
    hide Core, ReleaseAll, Effect;
    ReleasedEffect(s, SemQ(q));
    var d := r.(sem := r.sem[q := NO_SEM], freeSem := r.freeSem + [q]);
    TablesEffect(s, r, d, false, false);
    ChoiceEffect(s, d, Resched(d), false, false);
  }

  lemma SetFlgEffect(s: KState, id: int, setptn: Ptn)
    requires Inv(s)
    ensures Effect(s, SetFlg(s, id, setptn).0, false, false)
  {
    hide Inv, Effect, SetFrom;
    NothingEffect(s);
    if SetFlg(s, id, setptn).1 == Er(E_OK) {
      var f: FlgId := id - 1;
      var c := s.flg[f].(flgptn := s.flg[f].flgptn + setptn);
      var u := WithFlg(s, f, c);
      var r := SetFrom(u, f, Waiters(s, FlgQ(f)));
      TablesEffect(s, s, u, false, false);
      WalkEffectOn(s, f, c, r);
      ChoiceEffect(s, r, Resched(r), false, false);
    }
  }

  lemma FlgEnds(s: KState, u: KState)
    requires u == s.(flg := u.flg)
    ensures Ends(s, u)
  {
    forall p: Pri ensures ReadyAt(s, p) <= ReadyAt(u, p) { }
    forall t: TaskId ensures SameOrEnded(s, u, t) { }
    assert Thinner(Timed(u), Timed(s));
  }

  lemma WalkEffectOn(s: KState, f: FlgId, c: Flgcb, r: KState)
    requires Inv(s) && s.flg[f].live && c == s.flg[f].(flgptn := c.flgptn) && r == SetFrom(WithFlg(s, f, c), f, Waiters(s, FlgQ(f)))
    ensures Effect(s, r, false, false)
  {
    hide Inv, Core, AllSettled, LinksOk;
    InvGives(s);
    var u := WithFlg(s, f, c);
    WithFlgCore(s, f, c);
    AllUnvisited(s, f, c);
    hide SetFrom, Unvisited;
    SetFromKeeps(u, f, Waiters(s, FlgQ(f)));
    FlgEnds(s, u);
    hide Ends, Effect;
    EndsTransitive(s, u, r);
    EndsEffect(s, r);
  }

  lemma DelMbxEffect(s: KState, id: int)
    requires Inv(s)
    ensures Effect(s, DelMbx(s, id).0, false, false)
  {
    hide Inv, Core, AllSettled, LinksOk, ReleaseAll, DropFrom, Effect;
    InvGives(s);
    NothingEffect(s);
    if DelMbx(s, id).1 == Er(E_OK) {
      var w := Waiters(s, MbxQ(id - 1));
      DropIsRelease(s, id - 1, w);
      DropMbxEffect(s, id - 1, ReleaseAll(s, w));
    }
  }

  lemma DropMbxEffect(s: KState, m: MbxId, r: KState)
    requires Core(s) && r == ReleaseAll(s, Waiters(s, MbxQ(m)))
    ensures Effect(s, Resched(r.(mbx := r.mbx[m := NO_MBX], waits := r.waits.Clear(MbxQ(m)), freeMbx := r.freeMbx + [m])), false, false)
  {
    hide Core, ReleaseAll, Effect;
    ReleasedEffect(s, MbxQ(m));
    var d := r.(mbx := r.mbx[m := NO_MBX], waits := r.waits.Clear(MbxQ(m)), freeMbx := r.freeMbx + [m]);
    TablesEffect(s, r, d, false, false);
    ChoiceEffect(s, d, Resched(d), false, false);
  }

  lemma SndMbxEffect(s: KState, id: int, msg: Msg)
    requires Inv(s)
    ensures Effect(s, SndMbx(s, id, msg).0, false, false)
  {
    hide Inv, Effect;
    NothingEffect(s);
    if SndMbx(s, id, msg).1 == Er(E_OK) { SendEffect(s, id - 1, msg); }
  }

  lemma SendEffect(s: KState, m: MbxId, msg: Msg)
    requires Inv(s) && SndMbx(s, m + 1, msg).1 == Er(E_OK)
    ensures Effect(s, SndMbx(s, m + 1, msg).0, false, false)
  {
    hide Inv, Core, LinksOk, AllSettled, Ends, Effect;
    InvGives(s);
    var w := Waiters(s, MbxQ(m));
    PopTakesFirst(s, m);
    hide PopFrom;
    NothingEffect(s);
    if w == [] {
      TablesEffect(s, s, SndMbx(s, m + 1, msg).0, false, false);
    } else {
      HandEffect(s, m, w[0], msg);
    }
  }

  lemma HandEffect(s: KState, m: MbxId, t: TaskId, msg: Msg)
    requires Inv(s) && Waiters(s, MbxQ(m)) != [] && t == Waiters(s, MbxQ(m))[0]
    ensures var k := MakeReady(s.(waits := s.waits.Del(t).Init(t)), t, E_OK, Some(msg));
            Effect(s, Resched(k.(hist := HandedOver(Sent(s.hist, m, msg), m, msg, t))), false, false)
  {
    hide Inv, Core, LinksOk, AllSettled, Ends, Effect, MakeReady;
    InvGives(s);
    HeadReceives(s, m);
    HandKeeps(s, t, Some(msg));
    var k := MakeReady(s.(waits := s.waits.Del(t).Init(t)), t, E_OK, Some(msg));
    var g := k.(hist := HandedOver(Sent(s.hist, m, msg), m, msg, t));
    EndsEffect(s, k);
    TablesEffect(s, k, g, false, false);
    ChoiceEffect(s, g, Resched(g), false, false);
  }

  lemma WaiSemEffect(s: KState, id: int, cnt: int, tmo: int, canBlock: bool)
    requires Inv(s) && (canBlock ==> TaskContext(s) && s.current != IDLE)
    ensures var r := WaiSem(s, id, cnt, tmo, canBlock); Effect(s, r.0, canBlock, canBlock && r.1 == Blocks)
  {
    hide Inv, Effect, Block, Join;
    NothingEffect(s);
    var r := WaiSem(s, id, cnt, tmo, canBlock);
    if r.1 == Blocks {
      JoinSem(s, id - 1, cnt, tmo);
      BlockEffect(s, Join(s, s.current, SemQ(id - 1), SemInfo(cnt, id - 1)), SEM, tmo);
    } else {
      TablesEffect(s, s, r.0, canBlock, false);
    }
  }

  lemma WaiFlgEffect(s: KState, id: int, waiptn: Ptn, wfmode: Mode, tmo: int, canBlock: bool)
    requires Inv(s) && (canBlock ==> TaskContext(s) && s.current != IDLE)
    ensures var r := WaiFlg(s, id, waiptn, wfmode, tmo, canBlock); Effect(s, r.0, canBlock, canBlock && r.1 == Blocks)
  {
    hide Inv, Effect, Block, Join;
    NothingEffect(s);
    var r := WaiFlg(s, id, waiptn, wfmode, tmo, canBlock);
    if r.1 == Blocks {
      JoinFlg(s, id - 1, waiptn, wfmode, tmo);
      BlockEffect(s, Join(s, s.current, FlgQ(id - 1), FlgInfo(waiptn, wfmode, {})), FLG, tmo);
    } else {
      TablesEffect(s, s, r.0, canBlock, false);
    }
  }

  lemma RcvMbxEffect(s: KState, id: int, tmo: int, canBlock: bool)
    requires Inv(s) && (canBlock ==> TaskContext(s) && s.current != IDLE)
    ensures var r := RcvMbx(s, id, tmo, canBlock); Effect(s, r.0, canBlock, canBlock && r.1 == Blocks)
  {
    hide Inv, Effect, Block, Join;
    NothingEffect(s);
    var r := RcvMbx(s, id, tmo, canBlock);
    if r.1 == Blocks {
      JoinMbx(s, id - 1, tmo);
      BlockEffect(s, Join(s, s.current, MbxQ(id - 1), MbxInfo(None)), MBX, tmo);
    } else {
      TablesEffect(s, s, r.0, canBlock, false);
    }
  }

  /* ---- steps that concern no task ---- */

  lemma CreSemEffect(s: KState, tpri: bool, cntOrder: bool, isemcnt: int, maxsem: int)
    ensures Effect(s, CreSem(s, tpri, cntOrder, isemcnt, maxsem).0, false, false)
  {
    NothingEffect(s);
    TablesEffect(s, s, CreSem(s, tpri, cntOrder, isemcnt, maxsem).0, false, false);
  }

  lemma CreFlgEffect(s: KState, tpri: bool, wmul: bool, iflgptn: Ptn)
    ensures Effect(s, CreFlg(s, tpri, wmul, iflgptn).0, false, false)
  {
    NothingEffect(s);
    TablesEffect(s, s, CreFlg(s, tpri, wmul, iflgptn).0, false, false);
  }

  lemma ClrFlgEffect(s: KState, id: int, clrptn: Ptn)
    ensures Effect(s, ClrFlg(s, id, clrptn).0, false, false)
  {
    NothingEffect(s);
    TablesEffect(s, s, ClrFlg(s, id, clrptn).0, false, false);
  }

  lemma CreMbxEffect(s: KState, tpri: bool, mpri: bool)
    ensures Effect(s, CreMbx(s, tpri, mpri).0, false, false)
  {
    NothingEffect(s);
    TablesEffect(s, s, CreMbx(s, tpri, mpri).0, false, false);
  }

  lemma AtEffect(s: KState, time: nat)
    ensures Effect(s, At(s, time), false, false)
  {
    NothingEffect(s);
    TablesEffect(s, s, At(s, time), false, false);
  }
}
