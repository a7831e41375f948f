/** When a switch is asked for: exactly when the running task is not the one to run. No request is lost, and none is
    made for nothing. */
module Switches {
  import opened Types
  import opened KernelState
  import opened KernelOps
  import opened Frames
  import opened Timer
  import opened TimerRuns
  import opened Scheduling
  import opened Runs
  import opened Footprints

  /** A step leaves the request, makes it as Resched does, or makes it because the current task has stopped. */
  ghost predicate RequestFits(s: KState, r: KState) {
    || r.msip == s.msip
    || (r.msip <==> s.msip || Highest(r) != Some(r.current))
    || (r.msip && !Runnable(r, r.current))
  }

  lemma ReschedFits(s: KState, c: KState)
    requires c.msip == s.msip
    ensures RequestFits(s, Resched(c))
  {
    hide HighestFrom;
    assert Highest(Resched(c)) == Highest(c);
  }

  lemma StoppedFits(s: KState, c: KState)
    requires !Runnable(c, c.current)
    ensures RequestFits(s, Dispatch(c))
  {
    hide HighestFrom;
  }

  lemma BlockFits(s: KState, j: KState, kind: Kind, tmo: int)
    ensures RequestFits(s, Block(j, kind, tmo))
  {
    hide HighestFrom;
  }

  lemma TaskPartFits(s: KState, step: Step)
    requires PartOf(step) == TaskPart
    ensures RequestFits(s, TaskExec(s, step).0)
  {
    hide RequestFits, Resched, Dispatch, CompleteWait, Woken;
    QuietFits(s, TaskExec(s, step).0);
    match step
    case StartTask(id) => if InRange(id, CFN_MAX_TSKID) { ReschedFits(s, Started(s, id - 1)); }
    case YieldCpu => ReschedFits(s, Rotated(s));
    case ExitTask => StoppedFits(s, Exited(s));
    case ExitAndDeleteTask => StoppedFits(s, Deleted(s));
    case ReleaseWait(id) =>
      if InRange(id, CFN_MAX_TSKID) {
        CompleteUnits(s, id - 1, E_RLWAI);
        ReschedFits(s, CompleteWait(s, id - 1, E_RLWAI));
      }
    case WakeUp(id, _) =>
      if InRange(id, CFN_MAX_TSKID) {
        WokenFits(s, id - 1);
        ReschedFits(s, Woken(s, id - 1));
      }
    case _ =>
  }

  lemma QuietFits(s: KState, r: KState)
    ensures r.msip == s.msip ==> RequestFits(s, r)
  {
  }

  lemma WokenFits(s: KState, t: TaskId)
    ensures Woken(s, t).msip == s.msip
  {
    hide CompleteWait;
    CompleteUnits(s, t, E_OK);
  }

  lemma TimePartFits(s: KState, step: Step)
    requires Inv(s) && PartOf(step) == TimePart && step != SwitchTask
    ensures RequestFits(s, TimeExec(s, step).0)
  {
    hide Inv, RequestFits, Block, Resched, Handled, Schedule;
    QuietFits(s, TimeExec(s, step).0);
    match step
    case Delay(ms, _) => BlockFits(s, s, DLY, ms); ReschedFits(s, Rotated(s));
    case Sleep(tmo, _) => BlockFits(s, s, SLP, tmo);
    case TimerInterrupt => HandlerFits(s);
    case _ =>
  }

  lemma HandlerFits(s: KState)
    requires Inv(s)
    ensures RequestFits(s, Handled(s))
  {
    hide Inv, Core, LinksOk, AllSettled, Expire, RequestFits, Resched;
    InvGives(s);
    AdvancedSettled(s);
    var p := Pending(s.mtimecmp, s.now);
    ExpireUnits(Advanced(s), p);
    QuietFits(s, Handled(s));
    ReschedFits(s, Expire(Advanced(s), p).0);
  }

  lemma SemPartFits(s: KState, step: Step)
    requires PartOf(step) == SemPart
    ensures RequestFits(s, SemExec(s, step).0)
  {
    hide RequestFits, Resched, ServeFrom, ReleaseAll, Join, Block, MayTake;
    QuietFits(s, SemExec(s, step).0);
    match step
    case WaitSem(id, cnt, tmo, _) =>
      if InRange(id, CFN_MAX_SEMID) { BlockFits(s, Join(s, s.current, SemQ(id - 1), SemInfo(cnt, id - 1)), SEM, tmo); }
    case SignalSem(id, cnt) =>
      if InRange(id, CFN_MAX_SEMID) {
        var a := AddUnits(s, id - 1, cnt);
        ServeUnits(a, id - 1, Waiters(a, SemQ(id - 1)));
        ReschedFits(s, Serve(a, id - 1));
      }
    case DeleteSem(id) =>
      if InRange(id, CFN_MAX_SEMID) {
        var q: SemId := id - 1;
        var r := ReleaseAll(s, Waiters(s, SemQ(q)));
        ReleaseAllUnits(s, Waiters(s, SemQ(q)));
        ReschedFits(s, r.(sem := r.sem[q := NO_SEM], freeSem := r.freeSem + [q]));
      }
    case _ =>
  }

  lemma FlgPartFits(s: KState, step: Step)
    requires PartOf(step) == FlgPart
    ensures RequestFits(s, FlgExec(s, step).0)
  {
    hide RequestFits, Resched, SetFrom, Join, Block, Match, Consume;
    QuietFits(s, FlgExec(s, step).0);
    match step
    case WaitFlg(id, p, m, tmo, _) =>
      if InRange(id, CFN_MAX_FLGID) { BlockFits(s, Join(s, s.current, FlgQ(id - 1), FlgInfo(p, m, {})), FLG, tmo); }
    case SetFlag(id, p) =>
      if InRange(id, CFN_MAX_FLGID) {
        var f: FlgId := id - 1;
        var u := s.(flg := s.flg[f := s.flg[f].(flgptn := s.flg[f].flgptn + p)]);
        SetFromPattern(u, f, Waiters(s, FlgQ(f)));
        ReschedFits(s, SetFrom(u, f, Waiters(s, FlgQ(f))));
      }
    case _ =>
  }

  lemma MbxPartFits(s: KState, step: Step)
    requires PartOf(step) == MbxPart
    ensures RequestFits(s, MbxExec(s, step).0)
  {
    hide RequestFits, Resched, PopFrom, MakeReady, DropFrom, Join, Block, MsgPos;
    QuietFits(s, MbxExec(s, step).0);
    match step
    case SendMsg(id, msg) => if InRange(id, CFN_MAX_MBXID) { SendFits(s, id - 1, msg); }
    case ReceiveMsg(id, tmo, _) =>
      if InRange(id, CFN_MAX_MBXID) { BlockFits(s, Join(s, s.current, MbxQ(id - 1), MbxInfo(None)), MBX, tmo); }
    case DeleteMbx(id) =>
      if InRange(id, CFN_MAX_MBXID) {
        var m: MbxId := id - 1;
        var r := DropFrom(s, Waiters(s, MbxQ(m)));
        DropUnits(s, Waiters(s, MbxQ(m)));
        ReschedFits(s, r.(mbx := r.mbx[m := NO_MBX], waits := r.waits.Clear(MbxQ(m)), freeMbx := r.freeMbx + [m]));
      }
    case _ =>
  }

  lemma SendFits(s: KState, m: MbxId, msg: Msg)
    ensures RequestFits(s, SndMbx(s, m + 1, msg).0)
  {
    hide RequestFits, Resched, PopFrom, MakeReady, MsgPos;
    QuietFits(s, SndMbx(s, m + 1, msg).0);
    var w := Waiters(s, MbxQ(m));
    PopUnits(s, w);
    var (p, t) := PopFrom(s, w);
    if t.Some? {
      ReadyUnits(p, t.value, E_OK, Some(msg));
      ReschedFits(s, MakeReady(p, t.value, E_OK, Some(msg)).(hist := HandedOver(Sent(s.hist, m, msg), m, msg, t.value)));
    }
  }

  lemma StepFits(s: KState, step: Step)
    requires Inv(s) && Enabled(s, step) && step != SwitchTask
    ensures RequestFits(s, Exec(s, step).0)
  {
    hide Inv, Enabled, RequestFits, TaskExec, TimeExec, SemExec, FlgExec, MbxExec;
    match PartOf(step)
    case TaskPart => TaskPartFits(s, step);
    case TimePart => TimePartFits(s, step);
    case SemPart => SemPartFits(s, step);
    case FlgPart => FlgPartFits(s, step);
    case MbxPart => MbxPartFits(s, step);
  }

  /** After any step but the switch itself a switch is pending if and only if one was pending or the running task is not,
      or no longer, the first choice; and the switch clears the request. */
  lemma SwitchAskedExactly(s: KState, step: Step)
    requires Inv(s) && Enabled(s, step)
    ensures var r := Exec(s, step).0;
            r.msip <==> step != SwitchTask && (s.msip || Highest(r) != Some(r.current))
  {
    hide Inv, Enabled, Exec;
    StepKeepsInv(s, step);
    if step == SwitchTask { SwitchClears(s); } else { StepFits(s, step); }
    FirstIsReady(Exec(s, step).0);
    InvTimed(Exec(s, step).0);
    hide Highest;
  }

  lemma SwitchClears(s: KState)
    ensures !Exec(s, SwitchTask).0.msip
  {
    hide TaskExec, SemExec, FlgExec, MbxExec;
  }

  lemma FirstIsReady(s: KState)
    requires Inv(s)
    ensures Highest(s).Some? && Runnable(s, Highest(s).value)
  {
    hide Inv, Core;
    InvGives(s);
    HighestExists(s);
  }
}
