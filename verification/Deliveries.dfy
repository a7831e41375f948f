/** What the record of handed-over messages says is what the receivers get: an entry is made in the step in which a
    task receives a message or is given one, and in no other. */
module Deliveries {
  import opened Types
  import opened Rings
  import opened KernelState
  import opened KernelOps
  import opened Frames
  import opened Timer
  import opened TimerRuns
  import opened TimerLate
  import opened MbxCalls
  import opened Runs
  import opened WaitEndings

  /* ---- steps that hand over no message ---- */

  lemma {:induction false} ServeHandsNone(s: KState, q: SemId, rest: seq<TaskId>)
    ensures ServeFrom(s, q, rest).hist.mbx == s.hist.mbx
    decreases rest
  {
    if rest != [] {
      if s.sem[q].semcnt < Req(s, rest[0]) {
        if s.sem[q].cntOrder { ServeHandsNone(s, q, rest[1..]); }
      } else {
        ServeHandsNone(Grant(s, q, rest[0]), q, rest[1..]);
      }
    }
  }

  lemma CompleteHandsNone(s: KState, t: TaskId, cause: ER)
    ensures CompleteWait(s, t, cause).hist.mbx == s.hist.mbx
  {
    match LeavesUnserved(s, t, cause)
    case None =>
    case Some(q) =>
      var r := Release(s, t, cause);
      ServeHandsNone(r, q, Waiters(r, SemQ(q)));
  }

  lemma {:induction false} ExpireHandsNone(s: KState, p: nat)
    requires Core(s)
    ensures Expire(s, p).0.hist.mbx == s.hist.mbx
    decreases |Timed(s)|
  {
    if Timed(s) != [] {
      var f := First(s);
      var d := s.tcb[f].delay;
      if d <= p {
        var c := CompleteWait(Elapse(s, d), f, E_TMOUT);
        var r: nat := p - d;
        ExpireReaches(s, f, d, c, p, r);
        assert Expire(s, p) == (Expire(c, r).0, true);
        CompleteHandsNone(Elapse(s, d), f, E_TMOUT);
        ExpireHandsNone(c, r);
      } else {
        ExpireStops(s, p, Elapse(s, p));
      }
    }
  }

  lemma HandlerHandsNone(s: KState)
    requires Inv(s)
    ensures Handled(s).hist.mbx == s.hist.mbx
  {
    AdvancedSettled(s);
    ExpireHandsNone(Advanced(s), Pending(s.mtimecmp, s.now));
  }

  lemma {:induction false} SetHandsNone(s: KState, f: FlgId, rest: seq<TaskId>)
    ensures SetFrom(s, f, rest).hist.mbx == s.hist.mbx
    decreases rest
  {
    if rest != [] {
      SetHandsNone(if Satisfied(s, s.flg[f].flgptn, rest[0]) then Deliver(s, f, rest[0]) else s, f, rest[1..]);
    }
  }

  lemma {:induction false} ReleaseAllHandsNone(s: KState, rest: seq<TaskId>)
    ensures ReleaseAll(s, rest).hist.mbx == s.hist.mbx
    decreases rest
  {
    if rest != [] {
      CompleteHandsNone(s, rest[0], E_DLT);
      ReleaseAllHandsNone(CompleteWait(s, rest[0], E_DLT), rest[1..]);
    }
  }

  lemma TaskPartHandsNone(s: KState, step: Step)
    ensures TaskExec(s, step).0.hist.mbx == s.hist.mbx
  {
    hide CompleteWait;
    match step
    case ReleaseWait(id) => if InRange(id, CFN_MAX_TSKID) { CompleteHandsNone(s, id - 1, E_RLWAI); }
    case WakeUp(id, _) => if InRange(id, CFN_MAX_TSKID) { CompleteHandsNone(s, id - 1, E_OK); }
    case _ =>
  }

  lemma DelaysHandNone(s: KState, ms: nat, tmo: int, canBlock: bool)
    ensures DlyTsk(s, ms, canBlock).0.hist.mbx == s.hist.mbx
    ensures SlpTsk(s, tmo, canBlock).0.hist.mbx == s.hist.mbx
  {
    BlockHandsNone(s, DLY, ms);
    BlockHandsNone(s, SLP, tmo);
    hide Block;
  }

  lemma BlockHandsNone(s: KState, kind: Kind, tmo: int)
    ensures Block(s, kind, tmo).hist.mbx == s.hist.mbx
  {
  }

  lemma ResumeHandsNone(s: KState)
    requires s.tcb[s.current].pc.InWait?
    ensures Resume(s).0.hist.mbx == s.hist.mbx
  {
  }

  lemma SwitchHandsNone(s: KState, time: nat)
    ensures Schedule(s).hist.mbx == s.hist.mbx && At(s, time).hist.mbx == s.hist.mbx
  {
  }

  lemma TimePartHandsNone(s: KState, step: Step)
    requires Inv(s)
    ensures TimeExec(s, step).0.hist.mbx == s.hist.mbx
  {
    hide Inv, DlyTsk, SlpTsk, Resume, Handled, Schedule, At;
    match step
    case Delay(ms, c) => DelaysHandNone(s, ms, 0, c);
    case Sleep(tmo, c) => DelaysHandNone(s, 0, tmo, c);
    case ResumeCall => if s.tcb[s.current].pc.InWait? { ResumeHandsNone(s); }
    case TimerInterrupt => HandlerHandsNone(s);
    case SwitchTask => SwitchHandsNone(s, 0);
    case ClockTick(d) => SwitchHandsNone(s, s.now + d);
    case _ =>
  }

  lemma WaitHandsNone(s: KState, id: int, cnt: int, tmo: int, canBlock: bool)
    ensures WaiSem(s, id, cnt, tmo, canBlock).0.hist.mbx == s.hist.mbx
  {
    hide Block;
    if InRange(id, CFN_MAX_SEMID) { BlockHandsNone(Join(s, s.current, SemQ(id - 1), SemInfo(cnt, id - 1)), SEM, tmo); }
  }

  lemma SemPartHandsNone(s: KState, step: Step)
    ensures SemExec(s, step).0.hist.mbx == s.hist.mbx
  {
    hide ServeFrom, ReleaseAll, Block, WaiSem;
    match step
    case WaitSem(id, cnt, tmo, c) => WaitHandsNone(s, id, cnt, tmo, c);
    case SignalSem(id, cnt) =>
      if InRange(id, CFN_MAX_SEMID) {
        var a := AddUnits(s, id - 1, cnt);
        ServeHandsNone(a, id - 1, Waiters(a, SemQ(id - 1)));
      }
    case DeleteSem(id) => if InRange(id, CFN_MAX_SEMID) { ReleaseAllHandsNone(s, Waiters(s, SemQ(id - 1))); }
    case _ =>
  }

  lemma SetFlgHandsNone(s: KState, id: int, setptn: Ptn)
    ensures SetFlg(s, id, setptn).0.hist.mbx == s.hist.mbx
  {
    hide SetFrom;
    if InRange(id, CFN_MAX_FLGID) {
      var f: FlgId := id - 1;
      SetHandsNone(s.(flg := s.flg[f := s.flg[f].(flgptn := s.flg[f].flgptn + setptn)]), f, Waiters(s, FlgQ(f)));
    }
  }

  lemma WaitFlgHandsNone(s: KState, id: int, waiptn: Ptn, wfmode: Mode, tmo: int, canBlock: bool)
    ensures WaiFlg(s, id, waiptn, wfmode, tmo, canBlock).0.hist.mbx == s.hist.mbx
  {
    hide Block;
    if InRange(id, CFN_MAX_FLGID) {
      BlockHandsNone(Join(s, s.current, FlgQ(id - 1), FlgInfo(waiptn, wfmode, {})), FLG, tmo);
    }
  }

  lemma FlgPartHandsNone(s: KState, step: Step)
    ensures FlgExec(s, step).0.hist.mbx == s.hist.mbx
  {
    hide WaiFlg, SetFlg;
    match step
    case WaitFlg(id, p, m, tmo, c) => WaitFlgHandsNone(s, id, p, m, tmo, c);
    case SetFlag(id, p) => SetFlgHandsNone(s, id, p);
    case _ =>
  }

  /* ---- steps that do ---- */

  /** The record of mailbox m before and after a step with reply y. */
  ghost predicate Told(s: KState, step: Step, r: KState, y: Reply, m: MbxId) {
    var a, b := s.hist.mbx[m].handed, r.hist.mbx[m].handed;
    var w := Waiters(s, MbxQ(m));
    if step.ReceiveMsg? && step.id == m + 1 && y.Received? then b == a + [(y.msg, s.current)]
    else if step.SendMsg? && step.id == m + 1 && y == Er(E_OK) && w != [] then
      && b == a + [(step.msg, w[0])]
      && Waiting(s, w[0]) && EndsWith(r, w[0], E_OK) && r.tcb[w[0]].winfo == MbxInfo(Some(step.msg))
    else b == a
  }

  lemma SendTold(s: KState, id: int, msg: Msg, m: MbxId)
    requires Inv(s)
    ensures Told(s, SendMsg(id, msg), SndMbx(s, id, msg).0, SndMbx(s, id, msg).1, m)
  {
    hide Inv, LinksOk, SndMbx;
    InvGives(s);
    SendRecords(s, id, msg, m);
    if SndMbx(s, id, msg).1 == Er(E_OK) && Waiters(s, MbxQ(id - 1)) != [] {
      HeadReceives(s, id - 1);
      SendIs(s, id, msg, Waiters(s, MbxQ(id - 1))[0]);
    }
  }

  lemma SendRecords(s: KState, id: int, msg: Msg, m: MbxId)
    requires LinksOk(s)
    ensures var (r, y) := SndMbx(s, id, msg);
            var w := Waiters(s, MbxQ(m));
            && (y == Er(E_OK) ==> InRange(id, CFN_MAX_MBXID))
            && r.hist.mbx[m].handed == s.hist.mbx[m].handed + if y == Er(E_OK) && m == id - 1 && w != [] then [(msg, w[0])] else []
  {
    hide LinksOk, PopFrom, MakeReady;
    if InRange(id, CFN_MAX_MBXID) { PopTakesFirst(s, id - 1); }
  }

  lemma ReceiveTold(s: KState, id: int, tmo: int, canBlock: bool, m: MbxId)
    ensures Told(s, ReceiveMsg(id, tmo, canBlock), RcvMbx(s, id, tmo, canBlock).0, RcvMbx(s, id, tmo, canBlock).1, m)
  {
  }

  lemma CreateTold(s: KState, tpri: bool, mpri: bool, m: MbxId)
    requires Inv(s) && s.mbx[m].live
    ensures CreMbx(s, tpri, mpri).0.hist.mbx[m] == s.hist.mbx[m]
  {
    if s.freeMbx != [] { assert s.freeMbx[0] in s.freeMbx; }
  }

  lemma DeleteTold(s: KState, id: int)
    requires Inv(s)
    ensures DelMbx(s, id).0.hist.mbx == s.hist.mbx
  {
    hide Inv, Core, LinksOk, DropFrom, ReleaseAll;
    InvGives(s);
    if InRange(id, CFN_MAX_MBXID) {
      DropIsRelease(s, id - 1, Waiters(s, MbxQ(id - 1)));
      ReleaseAllHandsNone(s, Waiters(s, MbxQ(id - 1)));
    }
  }

  lemma MbxPartTold(s: KState, step: Step, m: MbxId)
    requires Inv(s) && s.mbx[m].live && PartOf(step) == MbxPart
    ensures Told(s, step, MbxExec(s, step).0, MbxExec(s, step).1, m)
  {
    hide Inv, CreMbx, SndMbx, RcvMbx, DelMbx, Waiting;
    match step
    case CreateMbx(tpri, mpri) => CreateTold(s, tpri, mpri, m);
    case SendMsg(id, msg) => SendTold(s, id, msg, m);
    case ReceiveMsg(id, tmo, c) => ReceiveTold(s, id, tmo, c, m);
    case DeleteMbx(id) => DeleteTold(s, id);
  }

  /** In every step the record of a live mailbox grows by an entry exactly if a message is handed over, and the entry
      names it and its receiver: the running task, whose call returns the message, or the first one that waited, whose
      wait ends with it. */
  lemma HandedTold(s: KState, step: Step, m: MbxId)
    requires Inv(s) && Enabled(s, step) && s.mbx[m].live
    ensures Told(s, step, Exec(s, step).0, Exec(s, step).1, m)
  {
    hide Inv, Enabled, Told, TaskExec, TimeExec, SemExec, FlgExec, MbxExec;
    match PartOf(step)
    case TaskPart => TaskPartHandsNone(s, step); NothingTold(s, step, TaskExec(s, step).0, TaskExec(s, step).1, m);
    case TimePart => TimePartHandsNone(s, step); NothingTold(s, step, TimeExec(s, step).0, TimeExec(s, step).1, m);
    case SemPart => SemPartHandsNone(s, step); NothingTold(s, step, SemExec(s, step).0, SemExec(s, step).1, m);
    case FlgPart => FlgPartHandsNone(s, step); NothingTold(s, step, FlgExec(s, step).0, FlgExec(s, step).1, m);
    case MbxPart => MbxPartTold(s, step, m);
  }

  lemma NothingTold(s: KState, step: Step, r: KState, y: Reply, m: MbxId)
    requires PartOf(step) != MbxPart && r.hist.mbx == s.hist.mbx
    ensures Told(s, step, r, y, m)
  {
  }

  /** And nobody who waits at a mailbox is let go with E_OK but with a message, which the record then says it got. */
  lemma ReceiverIsTold(s: KState, step: Step, m: MbxId, t: TaskId)
    requires Inv(s) && Enabled(s, step) && t in Waiters(s, MbxQ(m)) && EndsWith(Exec(s, step).0, t, E_OK)
    ensures var r := Exec(s, step).0;
            && step.SendMsg? && step.id == m + 1 && r.tcb[t].winfo == MbxInfo(Some(step.msg))
            && r.hist.mbx[m].handed == s.hist.mbx[m].handed + [(step.msg, t)]
  {
    hide Inv, LinksOk, Enabled, Exec;
    InvGives(s);
    MbxWaiter(s, m, t);
    WaitEndsByItsEvent(s, step, t);
    OnlySent(s, step, Exec(s, step).0, m, t);
    SentTold(s, step, m, t);
  }

  lemma MbxWaiter(s: KState, m: MbxId, t: TaskId)
    requires LinksOk(s) && t in Waiters(s, MbxQ(m))
    ensures Waiting(s, t) && s.tcb[t].tskwait == MBX && s.waits.at[t] == On(MbxQ(m)) && s.mbx[m].live
  {
    assert t in s.waits.Get(MbxQ(m)) && TaskOk(s, t);
  }

  lemma OnlySent(s: KState, step: Step, r: KState, m: MbxId, t: TaskId)
    requires LinksOk(s) && t in Waiters(s, MbxQ(m)) && EndedBy(s, step, r, t) && EndsWith(r, t, E_OK)
    ensures step.SendMsg? && step.id == m + 1 && t == Waiters(s, MbxQ(m))[0] && r.tcb[t].winfo == MbxInfo(Some(step.msg))
  {
    MbxWaiter(s, m, t);
    assert forall w: WQ :: t in s.waits.Get(w) ==> s.waits.at[t] == On(w);
    hide LinksOk;
    assert forall w: WQ :: t in Waiters(s, w) ==> w == MbxQ(m);
  }

  lemma SentTold(s: KState, step: Step, m: MbxId, t: TaskId)
    requires Inv(s) && step.SendMsg? && step.id == m + 1 && t in Waiters(s, MbxQ(m)) && t == Waiters(s, MbxQ(m))[0]
    requires EndsWith(Exec(s, step).0, t, E_OK) && Waiting(s, t)
    ensures Exec(s, step).0.hist.mbx[m].handed == s.hist.mbx[m].handed + [(step.msg, t)]
  {
    hide Inv, SndMbx;
    SendTold(s, step.id, step.msg, m);
    SendRefused(s, step.id, step.msg);
  }

  lemma SendRefused(s: KState, id: int, msg: Msg)
    ensures SndMbx(s, id, msg).1 != Er(E_OK) ==> SndMbx(s, id, msg).0 == s
  {
  }
}
