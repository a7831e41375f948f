/** The checks every call makes before it does anything, as a table: a call answers with the code of the first check that
    fails and changes nothing, and one that passes them all does what it is for. */
module Checks {
  import opened Types
  import opened Rings
  import opened KernelState
  import opened KernelOps
  import opened Frames
  import opened Objects
  import opened CallResults
  import opened Runs

  /** A check: whether it fails, and the code it fails with. */
  type Check = (bool, ER)

  function FirstFailing(checks: seq<Check>): Option<ER> {
    if checks == [] then None else if checks[0].0 then Some(checks[0].1) else FirstFailing(checks[1..])
  }

  /** The table has at most six rows. */
  lemma RowByRow(c: seq<Check>)
    requires |c| <= 6
    ensures FirstFailing(c) == RowFrom(c, 0)
  {
    hide RowFrom;
    TailRows(c, 0);
    assert c[0..] == c;
  }

  function RowFrom(c: seq<Check>, i: nat): Option<ER>
    requires i <= |c| <= 6
  {
    if i == |c| then None else if c[i].0 then Some(c[i].1)
    else if i + 1 == |c| then None else if c[i + 1].0 then Some(c[i + 1].1)
    else if i + 2 == |c| then None else if c[i + 2].0 then Some(c[i + 2].1)
    else if i + 3 == |c| then None else if c[i + 3].0 then Some(c[i + 3].1)
    else if i + 4 == |c| then None else if c[i + 4].0 then Some(c[i + 4].1)
    else if i + 5 == |c| then None else if c[i + 5].0 then Some(c[i + 5].1)
    else None
  }

  lemma {:induction false} TailRows(c: seq<Check>, i: nat)
    requires i <= |c| <= 6
    ensures FirstFailing(c[i..]) == RowFrom(c, i)
    decreases |c| - i
  {
    if i < |c| {
      TailRows(c, i + 1);
      assert c[i..][1..] == c[i + 1..] && c[i..][0] == c[i];
    }
  }

  function StatOf(s: KState, id: int): Stat {
    if InRange(id, CFN_MAX_TSKID) then s.tcb[id - 1].tskstat else NOEXS
  }

  predicate LiveSem(s: KState, id: int) {
    InRange(id, CFN_MAX_SEMID) && s.sem[id - 1].live
  }

  predicate LiveFlg(s: KState, id: int) {
    InRange(id, CFN_MAX_FLGID) && s.flg[id - 1].live
  }

  predicate LiveMbx(s: KState, id: int) {
    InRange(id, CFN_MAX_MBXID) && s.mbx[id - 1].live
  }

  /** There are the units, and nobody who waits for some comes first. */
  ghost predicate UnitsFree(s: KState, id: int, cnt: int) {
    LiveSem(s, id) ==>
      && s.sem[id - 1].semcnt >= cnt
      && forall u :: u in Waiters(s, SemQ(id - 1)) ==>
           s.sem[id - 1].cntOrder || (s.sem[id - 1].tpri && s.tcb[s.current].itskpri < s.tcb[u].itskpri)
  }

  /** The pattern satisfies the wait. */
  ghost predicate PatternThere(s: KState, id: int, waiptn: Ptn, wfmode: Mode) {
    LiveFlg(s, id) ==>
      if wfmode.orw then exists b :: b in waiptn && b in s.flg[id - 1].flgptn else forall b :: b in waiptn ==> b in s.flg[id - 1].flgptn
  }

  ghost function TaskChecks(s: KState, step: Step): seq<Check> {
    match step
    case CreateTask(pri) =>
      [(!InRange(pri, CFN_MAX_PRI), E_PAR), (forall t: TaskId :: s.tcb[t].tskstat != NOEXS, E_LIMIT)]
    case StartTask(id) => [(!InRange(id, CFN_MAX_TSKID), E_ID), (StatOf(s, id) == NOEXS, E_NOEXS), (StatOf(s, id) != DMT, E_OBJ)]
    case ReleaseWait(id) =>
      [(!InRange(id, CFN_MAX_TSKID), E_ID), (StatOf(s, id) == NOEXS, E_NOEXS), (id - 1 == s.current || StatOf(s, id) != WAI, E_OBJ)]
    case WakeUp(id, inIsr) =>
      [(!InRange(id, CFN_MAX_TSKID), E_ID), (id - 1 == s.current && !inIsr, E_OBJ), (StatOf(s, id) == NOEXS, E_NOEXS),
       (StatOf(s, id) == DMT, E_OBJ),
       (InRange(id, CFN_MAX_TSKID) && !Asleep(s, id - 1) && s.tcb[id - 1].wupcnt == TK_WAKEUP_MAXCNT, E_QOVR)]
    case _ => []
  }

  ghost function TimeChecks(s: KState, step: Step): seq<Check> {
    match step
    case Delay(_, canBlock) => [(!canBlock, E_CTX)]
    case Sleep(tmo, canBlock) =>
      [(tmo < TMO_FEVR, E_PAR), (!canBlock, E_CTX), (tmo == TMO_POL && s.tcb[s.current].wupcnt == 0, E_TMOUT)]
    case _ => []
  }

  ghost function SemChecks(s: KState, step: Step): seq<Check> {
    match step
    case CreateSem(_, _, isemcnt, maxsem) =>
      [(!(0 <= isemcnt <= maxsem && 1 <= maxsem <= TK_SEMAPHORE_MAXCNT), E_PAR), (forall q: SemId :: s.sem[q].live, E_LIMIT)]
    case WaitSem(id, cnt, tmo, canBlock) =>
      [(!InRange(id, CFN_MAX_SEMID), E_ID), (cnt <= 0 || tmo < TMO_FEVR, E_PAR), (!canBlock, E_CTX), (!LiveSem(s, id), E_NOEXS),
       (LiveSem(s, id) && cnt > s.sem[id - 1].maxsem, E_PAR), (tmo == TMO_POL && !UnitsFree(s, id, cnt), E_TMOUT)]
    case SignalSem(id, cnt) =>
      [(!InRange(id, CFN_MAX_SEMID), E_ID), (cnt <= 0, E_PAR), (!LiveSem(s, id), E_NOEXS),
       (LiveSem(s, id) && s.sem[id - 1].semcnt + cnt > s.sem[id - 1].maxsem, E_QOVR)]
    case DeleteSem(id) => [(!InRange(id, CFN_MAX_SEMID), E_ID), (!LiveSem(s, id), E_NOEXS)]
    case _ => []
  }

  ghost function FlgChecks(s: KState, step: Step): seq<Check> {
    match step
    case CreateFlg(_, _, _) => [(forall f: FlgId :: s.flg[f].live, E_LIMIT)]
    case WaitFlg(id, waiptn, wfmode, tmo, canBlock) =>
      [(!InRange(id, CFN_MAX_FLGID), E_ID), (waiptn == {} || tmo < TMO_FEVR, E_PAR), (!canBlock, E_CTX), (!LiveFlg(s, id), E_NOEXS),
       (LiveFlg(s, id) && !s.flg[id - 1].wmul && Waiters(s, FlgQ(id - 1)) != [], E_OBJ),
       (tmo == TMO_POL && !PatternThere(s, id, waiptn, wfmode), E_TMOUT)]
    case SetFlag(id, _) => [(!InRange(id, CFN_MAX_FLGID), E_ID), (!LiveFlg(s, id), E_NOEXS)]
    case ClearFlag(id, _) => [(!InRange(id, CFN_MAX_FLGID), E_ID), (!LiveFlg(s, id), E_NOEXS)]
    case _ => []
  }

  ghost function MbxChecks(s: KState, step: Step): seq<Check> {
    match step
    case CreateMbx(_, _) => [(forall m: MbxId :: s.mbx[m].live, E_LIMIT)]
    case SendMsg(id, msg) =>
      [(!InRange(id, CFN_MAX_MBXID), E_ID), (!LiveMbx(s, id), E_NOEXS), (LiveMbx(s, id) && s.mbx[id - 1].mpri && msg.msgpri <= 0, E_PAR)]
    case ReceiveMsg(id, tmo, canBlock) =>
      [(!InRange(id, CFN_MAX_MBXID), E_ID), (tmo < TMO_FEVR, E_PAR), (!canBlock, E_CTX), (!LiveMbx(s, id), E_NOEXS),
       (LiveMbx(s, id) && tmo == TMO_POL && s.mbx[id - 1].msgs == [], E_TMOUT)]
    case DeleteMbx(id) => [(!InRange(id, CFN_MAX_MBXID), E_ID), (!LiveMbx(s, id), E_NOEXS)]
    case _ => []
  }

  /** What a call that passes its checks answers: a wait call at once, if what it asks for is there, and else through
      the rest of the call; every other with E_OK or with the new ID. */
  ghost predicate Answer(s: KState, step: Step, y: Reply) {
    match step
    case ExitTask | ExitAndDeleteTask => y == Blocks
    case CreateTask(_) | CreateSem(_, _, _, _) | CreateFlg(_, _, _) | CreateMbx(_, _) => y.NewId?
    case Delay(ms, _) => y == if ms == 0 then Er(E_OK) else Blocks
    case Sleep(_, _) => y == if s.tcb[s.current].wupcnt > 0 then Er(E_OK) else Blocks
    case WaitSem(id, cnt, _, _) => y == if UnitsFree(s, id, cnt) then Er(E_OK) else Blocks
    case WaitFlg(id, waiptn, wfmode, _, _) =>
      if PatternThere(s, id, waiptn, wfmode) then LiveFlg(s, id) && y == Pattern(s.flg[id - 1].flgptn) else y == Blocks
    case ReceiveMsg(id, _, _) =>
      LiveMbx(s, id) && y == if s.mbx[id - 1].msgs != [] then Received(s.mbx[id - 1].msgs[0]) else Blocks
    case ResumeCall => true
    case _ => y == Er(E_OK)
  }

  /** The table is right for step, which has the result (r, y). */
  ghost predicate Decides(s: KState, step: Step, checks: seq<Check>, r: KState, y: Reply) {
    match FirstFailing(checks)
    case Some(e) => r == s && y == Er(e)
    case None => Answer(s, step, y)
  }

  lemma TaskDecides(s: KState, step: Step)
    requires Inv(s) && PartOf(step) == TaskPart
    ensures Decides(s, step, TaskChecks(s, step), TaskExec(s, step).0, TaskExec(s, step).1)
  {
    hide Inv, FirstFailing, Resched, Woken, Started, CompleteWait, Yield, ExtTsk, ExdTsk;
    RowByRow(TaskChecks(s, step));
    match step
    case CreateTask(pri) => if InRange(pri, CFN_MAX_PRI) { CreateTaskTakesFree(s, pri); }
    case WakeUp(id, _) => if InRange(id, CFN_MAX_TSKID) { WakeUpOk(s, id - 1); }
    case _ =>
  }

  lemma WakeUpOk(s: KState, t: TaskId)
    requires Inv(s)
    ensures s.tcb[t].wupcnt <= TK_WAKEUP_MAXCNT
  {
    hide Inv;
    InvGivesTask(s, t);
  }

  lemma TimeDecides(s: KState, step: Step)
    requires Inv(s) && PartOf(step) == TimePart && (step == ResumeCall ==> s.tcb[s.current].pc.InWait?)
    ensures step != ResumeCall ==> Decides(s, step, TimeChecks(s, step), TimeExec(s, step).0, TimeExec(s, step).1)
  {
    hide Inv, FirstFailing, Block, Yield, Handled, Schedule, Resume;
    RowByRow(TimeChecks(s, step));
  }

  lemma SemDecides(s: KState, step: Step)
    requires Inv(s) && PartOf(step) == SemPart
    ensures Decides(s, step, SemChecks(s, step), SemExec(s, step).0, SemExec(s, step).1)
  {
    hide Inv, FirstFailing, Resched, Serve, ReleaseAll, Join, Block, TakeUnits, AddUnits, MayTake, UnitsFree;
    RowByRow(SemChecks(s, step));
    match step
    case CreateSem(tpri, cntOrder, n, max) =>
      if 0 <= n <= max <= TK_SEMAPHORE_MAXCNT && 1 <= max { CreateSemTakesFree(s, tpri, cntOrder, n, max); }
    case WaitSem(id, cnt, _, _) => if LiveSem(s, id) { MayTakeIs(s, id, cnt); }
    case _ =>
  }

  lemma MayTakeIs(s: KState, id: int, cnt: int)
    requires Inv(s) && LiveSem(s, id)
    ensures MayTake(s, id - 1, cnt) <==> UnitsFree(s, id, cnt)
  {
    hide Inv;
    var q: SemId := id - 1;
    QueueGives(s, q);
    hide QueueOk;
    var w := Waiters(s, SemQ(q));
    forall u | u in w && s.sem[q].tpri ensures s.tcb[w[0]].itskpri <= s.tcb[u].itskpri { HeadOutranks(s, q, w, u); }
    if w != [] { assert w[0] in w; }
  }

  lemma HeadOutranks(s: KState, q: SemId, w: seq<TaskId>, u: TaskId)
    requires QueueOk(s, SemQ(q)) && w == Waiters(s, SemQ(q)) && u in w && s.sem[q].tpri
    ensures s.tcb[w[0]].itskpri <= s.tcb[u].itskpri
  {
    var i := Index(w, u);
    if i > 0 { assert Before(s, s.sem[q].tpri, w[0], w[i]); }
  }

  lemma QueueGives(s: KState, q: SemId)
    requires Inv(s)
    ensures QueueOk(s, SemQ(q))
  {
    hide Core, QueueOk;
    assert Core(s);
    CoreParts(s);
  }

  lemma FlgDecides(s: KState, step: Step)
    requires Inv(s) && PartOf(step) == FlgPart
    ensures Decides(s, step, FlgChecks(s, step), FlgExec(s, step).0, FlgExec(s, step).1)
  {
    hide Inv, FirstFailing, Resched, SetFrom, Join, Block, Consume, Match, PatternThere;
    RowByRow(FlgChecks(s, step));
    match step
    case CreateFlg(tpri, wmul, p) => CreateFlgTakesFree(s, tpri, wmul, p);
    case WaitFlg(id, waiptn, wfmode, _, _) => if LiveFlg(s, id) { MatchIs(s, id, waiptn, wfmode); }
    case _ =>
  }

  lemma MatchIs(s: KState, id: int, waiptn: Ptn, wfmode: Mode)
    requires LiveFlg(s, id)
    ensures Match(s.flg[id - 1].flgptn, waiptn, wfmode) <==> PatternThere(s, id, waiptn, wfmode)
  {
    MatchBits(s.flg[id - 1].flgptn, waiptn, wfmode);
  }

  lemma MbxDecides(s: KState, step: Step)
    requires Inv(s) && PartOf(step) == MbxPart
    ensures Decides(s, step, MbxChecks(s, step), MbxExec(s, step).0, MbxExec(s, step).1)
  {
    hide Inv, FirstFailing, Resched, PopFrom, MakeReady, DropFrom, Join, Block, MsgPos;
    RowByRow(MbxChecks(s, step));
    match step
    case CreateMbx(tpri, mpri) => CreateMbxTakesFree(s, tpri, mpri);
    case _ =>
  }

  ghost function ChecksOf(s: KState, step: Step): seq<Check> {
    match PartOf(step)
    case TaskPart => TaskChecks(s, step)
    case TimePart => TimeChecks(s, step)
    case SemPart => SemChecks(s, step)
    case FlgPart => FlgChecks(s, step)
    case MbxPart => MbxChecks(s, step)
  }

  /** Every call answers with the code of the first check that fails, and then nothing has changed; if none fails, it
      succeeds, with the answer it is for, or it blocks exactly because what it asks for is not there. */
  lemma FirstCheckDecides(s: KState, step: Step)
    requires Inv(s) && Enabled(s, step) && step != ResumeCall
    ensures Decides(s, step, ChecksOf(s, step), Exec(s, step).0, Exec(s, step).1)
  {
    hide Inv, Enabled, Decides, TaskExec, TimeExec, SemExec, FlgExec, MbxExec, TaskChecks, TimeChecks, SemChecks, FlgChecks, MbxChecks;
    match PartOf(step)
    case TaskPart => TaskDecides(s, step);
    case TimePart => TimeDecides(s, step);
    case SemPart => SemDecides(s, step);
    case FlgPart => FlgDecides(s, step);
    case MbxPart => MbxDecides(s, step);
  }
}
