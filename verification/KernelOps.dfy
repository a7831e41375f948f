/** The kernel calls, the timer handler and the scheduler as functions on the state. Each is one atomic step:
    the source runs it with interrupts disabled. A blocking call is two: up to the switch, and Resume. */
module KernelOps {
  import opened Types
  import opened Rings
  import opened KernelState

  /** What a step returns to its caller; Blocks means the caller returns only through Resume. */
  datatype Reply = Er(ercd: ER) | NewId(id: int) | Pattern(ptn: Ptn) | Received(msg: Msg) | Blocks

  /* ---- scheduling ---- */

  /** The highest-priority ready task is chosen, and a switch is asked for if it is not the current one. */
  function Resched(s: KState): KState {
    s.(next := Highest(s), msip := s.msip || Highest(s) != Some(s.current))
  }

  function Dispatch(s: KState): KState {
    s.(next := Highest(s), msip := true)
  }

  /** The trap that serves MSIP: clears it, then schedule(). */
  function Schedule(s: KState): KState {
    match s.next
    case None => s.(msip := false)
    case Some(n) =>
      var tcb := if s.tcb[s.current].tskstat == RUN then s.tcb[s.current := s.tcb[s.current].(tskstat := RDY)] else s.tcb;
      s.(tcb := tcb[n := tcb[n].(tskstat := RUN)], current := n, msip := false)
  }

  /* ---- the end of a wait ---- */

  /** tkmc_complete_wait without its call of tkmc_sem_serve_waiters. */
  function Release(s: KState, t: TaskId, cause: ER): KState {
    var h := if s.heads.at[t].Detached? then s.heads else s.heads.Del(t);
    var w := if s.waits.at[t].Detached? then s.waits else s.waits.Del(t).Init(t);
    s.(heads := h.AddTail(t, ReadyQ(s.tcb[t].itskpri)), waits := w,
       tcb := s.tcb[t := s.tcb[t].(delay := 0, tskwait := NoWait, wupcause := cause, tskstat := RDY)])
  }

  /** Units go to a waiter: its wait is complete, and the count is down by its request. */
  function Grant(s: KState, q: SemId, t: TaskId): KState {
    var r := Release(s, t, E_OK);
    r.(sem := r.sem[q := r.sem[q].(semcnt := r.sem[q].semcnt - Req(s, t))],
       hist := r.hist.(sem := r.hist.sem[q := r.hist.sem[q].(granted := r.hist.sem[q].granted + Req(s, t))]))
  }

  /** The walk of tkmc_sem_serve_waiters over the part of the queue it has not reached. */
  function ServeFrom(s: KState, q: SemId, rest: seq<TaskId>): KState
    decreases rest
  {
    if rest == [] then s
    else if s.sem[q].semcnt < Req(s, rest[0]) then
      if s.sem[q].cntOrder then ServeFrom(s, q, rest[1..]) else s
    else
      var g := Grant(s, q, rest[0]);
      if g.sem[q].semcnt <= 0 then g else ServeFrom(g, q, rest[1..])
  }

  function Serve(s: KState, q: SemId): KState {
    ServeFrom(s, q, Waiters(s, SemQ(q)))
  }

  /** The semaphore whose other waiters a departure must look at, if any. */
  function LeavesUnserved(s: KState, t: TaskId, cause: ER): Option<SemId> {
    if s.tcb[t].tskwait == SEM && cause in {E_TMOUT, E_RLWAI} && s.tcb[t].winfo.SemInfo?
    then Some(s.tcb[t].winfo.semcb) else None
  }

  /** tkmc_complete_wait */
  function CompleteWait(s: KState, t: TaskId, cause: ER): KState {
    var r := Release(s, t, cause);
    match LeavesUnserved(s, t, cause)
    case None => r
    case Some(q) => Serve(r, q)
  }

  /** The wait queue of a deleted object is released from the head. */
  function ReleaseAll(s: KState, rest: seq<TaskId>): KState
    decreases rest
  {
    if rest == [] then s else ReleaseAll(Release(s, rest[0], E_DLT), rest[1..])
  }

  /* ---- the start of a wait ---- */

  /** The place of a task of priority p on a queue: before the first of a lower priority. */
  function PriPos(tcb: Tcbs, q: seq<TaskId>, p: Pri): (i: nat)
    ensures i <= |q|
  {
    if q == [] || p < tcb[q[0]].itskpri then 0 else 1 + PriPos(tcb, q[1..], p)
  }

  function JoinPos(s: KState, t: TaskId, w: WQ): (i: nat)
    ensures i <= |Waiters(s, w)|
  {
    if PriorityOrdered(s, w) then PriPos(s.tcb, Waiters(s, w), s.tcb[t].itskpri) else |Waiters(s, w)|
  }

  /** The task joins the wait queue of an object, with its wait data. */
  function Join(s: KState, t: TaskId, w: WQ, info: WInfo): KState {
    s.(tcb := s.tcb[t := s.tcb[t].(winfo := info)],
       waits := s.waits.Init(t).Put(t, w, JoinPos(s, t, w)),
       hist := s.hist.(arrivals := s.hist.arrivals + 1,
                       task := s.hist.task[t := s.hist.task[t].(ticket := s.hist.arrivals)]))
  }

  /** tkmc_ms_to_ticks */
  function MsToTicks(ms: nat): nat {
    ms / 10 + (if ms % 10 != 0 then 1 else 0) + 1
  }

  /** The count of pass_elapsed_periods: the edges from cmp up to the machine time. */
  function Pending(cmp: nat, now: nat): nat
    decreases if now >= cmp then now - cmp + 1 else 0
  {
    if now >= cmp then 1 + Pending(cmp + TICK_COUNTS, now) else 0
  }

  /** tkmc_schedule_timer up to its choice of the next task. */
  function StartTimer(s: KState, t: TaskId, ms: nat, kind: Kind): KState {
    var d := MsToTicks(ms) + Pending(s.mtimecmp, s.now);
    s.(tcb := s.tcb[t := s.tcb[t].(tskstat := WAI, tskwait := kind, delay := d, pc := InWait(kind))],
       heads := s.heads.Del(t).AddTail(t, TimerQ),
       hist := s.hist.(task := s.hist.task[t := s.hist.task[t].(
         since := s.now, ms := ms, deadline := s.mtimecmp + (d - 1) * TICK_COUNTS)]))
  }

  /** A wait without a limit. */
  function WaitForEver(s: KState, t: TaskId, kind: Kind): KState {
    s.(tcb := s.tcb[t := s.tcb[t].(tskstat := WAI, tskwait := kind, delay := 0, pc := InWait(kind))],
       heads := s.heads.Del(t).Init(t))
  }

  function Block(s: KState, kind: Kind, tmo: int): KState {
    if tmo > 0 then Dispatch(StartTimer(s, s.current, tmo, kind))
    else Dispatch(WaitForEver(s, s.current, kind))
  }

  /* ---- tasks ---- */

  function CreTsk(s: KState, pri: int): (KState, Reply) {
    if !InRange(pri, CFN_MAX_PRI) then (s, Er(E_PAR))
    else if s.heads.Get(FreeQ) == [] then (s, Er(E_LIMIT))
    else
      var t := s.heads.Get(FreeQ)[0];
      (s.(heads := s.heads.Del(t).Init(t), waits := s.waits.Init(t),
          tcb := s.tcb[t := Tcb(pri, DMT, NoWait, 0, E_OK, 0, NoInfo, Outside)],
          hist := s.hist.(task := s.hist.task[t := s.hist.task[t].(accepted := 0, used := 0)])),
       NewId((t as int) + 1))
  }

  function Started(s: KState, t: TaskId): KState {
    s.(tcb := s.tcb[t := s.tcb[t].(tskstat := RDY, tskwait := NoWait, delay := 0, wupcnt := 0,
                                   wupcause := E_OK, winfo := NoInfo, pc := Outside)],
       waits := s.waits.Init(t),
       heads := s.heads.Init(t).AddTail(t, ReadyQ(s.tcb[t].itskpri)),
       hist := s.hist.(task := s.hist.task[t := s.hist.task[t].(accepted := 0, used := 0)]))
  }

  function StaTsk(s: KState, id: int): (KState, Reply) {
    if !InRange(id, CFN_MAX_TSKID) then (s, Er(E_ID))
    else
      var t: TaskId := id - 1;
      if s.tcb[t].tskstat == NOEXS then (s, Er(E_NOEXS))
      else if s.tcb[t].tskstat != DMT then (s, Er(E_OBJ))
      else
        (Resched(Started(s, t)), Er(E_OK))
  }

  /** tkmc_yield */
  function Yield(s: KState): KState {
    Resched(Rotated(s))
  }

  function Rotated(s: KState): KState {
    s.(heads := s.heads.Del(s.current).AddTail(s.current, ReadyQ(s.tcb[s.current].itskpri)))
  }

  function ExtTsk(s: KState): KState {
    Dispatch(Exited(s))
  }

  function Exited(s: KState): KState {
    var t := s.current;
    s.(heads := s.heads.Del(t), tcb := s.tcb[t := s.tcb[t].(tskstat := DMT, tskwait := NoWait)])
  }

  function ExdTsk(s: KState): KState {
    Dispatch(Deleted(s))
  }

  function Deleted(s: KState): KState {
    var t := s.current;
    s.(heads := s.heads.Del(t).AddTail(t, FreeQ), tcb := s.tcb[t := s.tcb[t].(tskstat := NOEXS)])
  }

  function RelWai(s: KState, id: int): (KState, Reply) {
    if !InRange(id, CFN_MAX_TSKID) then (s, Er(E_ID))
    else
      var t: TaskId := id - 1;
      if s.tcb[t].tskstat == NOEXS then (s, Er(E_NOEXS))
      else if t == s.current || s.tcb[t].tskstat != WAI then (s, Er(E_OBJ))
      else (Resched(CompleteWait(s, t, E_RLWAI)), Er(E_OK))
  }

  function QueueWakeup(s: KState, t: TaskId): (KState, Reply) {
    if s.tcb[t].wupcnt < TK_WAKEUP_MAXCNT then
      (s.(tcb := s.tcb[t := s.tcb[t].(wupcnt := s.tcb[t].wupcnt + 1)],
          hist := s.hist.(task := s.hist.task[t := s.hist.task[t].(accepted := s.hist.task[t].accepted + 1)])),
       Er(E_OK))
    else (s, Er(E_QOVR))
  }

  /** A sleep ends with a wake-up. */
  function Woken(s: KState, t: TaskId): KState {
    CompleteWait(s, t, E_OK).(hist := s.hist.(task := s.hist.task[t := s.hist.task[t].(
      accepted := s.hist.task[t].accepted + 1, used := s.hist.task[t].used + 1)]))
  }

  function WupTsk(s: KState, id: int, inIsr: bool): (KState, Reply) {
    if !InRange(id, CFN_MAX_TSKID) then (s, Er(E_ID))
    else
      var t: TaskId := id - 1;
      if t == s.current && !inIsr then (s, Er(E_OBJ))
      else match s.tcb[t].tskstat
           case WAI =>
             if s.tcb[t].tskwait == SLP then
               (Resched(Woken(s, t)), Er(E_OK))
             else QueueWakeup(s, t)
           case NOEXS => (s, Er(E_NOEXS))
           case DMT => (s, Er(E_OBJ))
           case _ => QueueWakeup(s, t)
  }

  function DlyTsk(s: KState, dlytm: nat, canBlock: bool): (KState, Reply) {
    if !canBlock then (s, Er(E_CTX))
    else if dlytm == 0 then (Yield(s), Er(E_OK))
    else (Block(s, DLY, dlytm), Blocks)
  }

  function SlpTsk(s: KState, tmo: int, canBlock: bool): (KState, Reply) {
    if tmo < TMO_FEVR then (s, Er(E_PAR))
    else if !canBlock then (s, Er(E_CTX))
    else
      var t := s.current;
      if s.tcb[t].wupcnt > 0 then
        (s.(tcb := s.tcb[t := s.tcb[t].(wupcnt := s.tcb[t].wupcnt - 1)],
            hist := s.hist.(task := s.hist.task[t := s.hist.task[t].(used := s.hist.task[t].used + 1)])),
         Er(E_OK))
      else if tmo == TMO_POL then (s, Er(E_TMOUT))
      else (Block(s, SLP, tmo), Blocks)
  }

  /** The part of a wait call after the switch: report the cause, and what was delivered with it. */
  function Resume(s: KState): (KState, Reply)
    requires s.tcb[s.current].pc.InWait?
  {
    var t := s.current;
    var c := s.tcb[t];
    var back := s.(tcb := s.tcb[t := c.(wupcause := E_OK, pc := Outside)]);
    match c.pc.kind
    case DLY => (back, Er(if c.wupcause == E_TMOUT then E_OK else c.wupcause))
    case FLG =>
      (back, if c.wupcause == E_OK && c.winfo.FlgInfo? then Pattern(c.winfo.flgptn) else Er(c.wupcause))
    case MBX =>
      (back.(tcb := s.tcb[t := c.(wupcause := E_OK, pc := Outside, winfo := MbxInfo(None), delay := 0, tskwait := NoWait)],
             waits := if s.waits.at[t].Detached? then s.waits else s.waits.Del(t).Init(t)),
       if c.wupcause == E_OK && c.winfo.MbxInfo? && c.winfo.msg.Some? then Received(c.winfo.msg.value) else Er(c.wupcause))
    case _ => (back, Er(c.wupcause))
  }

  /* ---- semaphores ---- */

  function CreSem(s: KState, tpri: bool, cntOrder: bool, isemcnt: int, maxsem: int): (KState, Reply) {
    if maxsem < 1 || maxsem > TK_SEMAPHORE_MAXCNT || isemcnt < 0 || isemcnt > maxsem then (s, Er(E_PAR))
    else if s.freeSem == [] then (s, Er(E_LIMIT))
    else
      var q := s.freeSem[0];
      (s.(freeSem := s.freeSem[1..], waits := s.waits.Clear(SemQ(q)),
          sem := s.sem[q := Semcb(true, tpri, cntOrder, isemcnt, maxsem)],
          hist := s.hist.(sem := s.hist.sem[q := SemHist(isemcnt, 0)])),
       NewId((q as int) + 1))
  }

  /** Enough units, and no waiter that comes first. */
  predicate MayTake(s: KState, q: SemId, cnt: int) {
    var w := Waiters(s, SemQ(q));
    && s.sem[q].semcnt >= cnt
    && (w == [] || s.sem[q].cntOrder
        || (s.sem[q].tpri && s.tcb[s.current].itskpri < s.tcb[w[0]].itskpri))
  }

  function TakeUnits(s: KState, q: SemId, cnt: int): KState {
    s.(sem := s.sem[q := s.sem[q].(semcnt := s.sem[q].semcnt - cnt)],
       hist := s.hist.(sem := s.hist.sem[q := s.hist.sem[q].(granted := s.hist.sem[q].granted + cnt)]))
  }

  function WaiSem(s: KState, id: int, cnt: int, tmo: int, canBlock: bool): (KState, Reply) {
    if !InRange(id, CFN_MAX_SEMID) then (s, Er(E_ID))
    else if cnt <= 0 || tmo < TMO_FEVR then (s, Er(E_PAR))
    else if !canBlock then (s, Er(E_CTX))
    else
      var q: SemId := id - 1;
      if !s.sem[q].live then (s, Er(E_NOEXS))
      else if cnt > s.sem[q].maxsem then (s, Er(E_PAR))
      else if MayTake(s, q, cnt) then (TakeUnits(s, q, cnt), Er(E_OK))
      else if tmo == TMO_POL then (s, Er(E_TMOUT))
      else (Block(Join(s, s.current, SemQ(q), SemInfo(cnt, q)), SEM, tmo), Blocks)
  }

  function AddUnits(s: KState, q: SemId, cnt: int): KState {
    s.(sem := s.sem[q := s.sem[q].(semcnt := s.sem[q].semcnt + cnt)],
       hist := s.hist.(sem := s.hist.sem[q := s.hist.sem[q].(given := s.hist.sem[q].given + cnt)]))
  }

  function SigSem(s: KState, id: int, cnt: int): (KState, Reply) {
    if !InRange(id, CFN_MAX_SEMID) then (s, Er(E_ID))
    else if cnt <= 0 then (s, Er(E_PAR))
    else
      var q: SemId := id - 1;
      if !s.sem[q].live then (s, Er(E_NOEXS))
      else if cnt > s.sem[q].maxsem - s.sem[q].semcnt then (s, Er(E_QOVR))
      else (Resched(Serve(AddUnits(s, q, cnt), q)), Er(E_OK))
  }

  function DelSem(s: KState, id: int): (KState, Reply) {
    if !InRange(id, CFN_MAX_SEMID) then (s, Er(E_ID))
    else
      var q: SemId := id - 1;
      if !s.sem[q].live then (s, Er(E_NOEXS))
      else
        var w := Waiters(s, SemQ(q));
        var r := ReleaseAll(s, w);
        var d := r.(sem := r.sem[q := NO_SEM], freeSem := r.freeSem + [q]);
        (if w != [] then Resched(d) else d, Er(E_OK))
  }

  /* ---- event flags ---- */

  function CreFlg(s: KState, tpri: bool, wmul: bool, iflgptn: Ptn): (KState, Reply) {
    if s.freeFlg == [] then (s, Er(E_LIMIT))
    else
      var f := s.freeFlg[0];
      (s.(freeFlg := s.freeFlg[1..], waits := s.waits.Clear(FlgQ(f)),
          flg := s.flg[f := Flgcb(true, tpri, wmul, iflgptn)]),
       NewId((f as int) + 1))
  }

  /** What a satisfied wait leaves of the pattern. */
  function Consume(flgptn: Ptn, waiptn: Ptn, wfmode: Mode): Ptn {
    if wfmode.clr then {} else if wfmode.bitclr then flgptn - waiptn else flgptn
  }

  function WaiFlg(s: KState, id: int, waiptn: Ptn, wfmode: Mode, tmo: int, canBlock: bool): (KState, Reply) {
    if !InRange(id, CFN_MAX_FLGID) then (s, Er(E_ID))
    else if waiptn == {} || tmo < TMO_FEVR then (s, Er(E_PAR))
    else if !canBlock then (s, Er(E_CTX))
    else
      var f: FlgId := id - 1;
      var c := s.flg[f];
      if !c.live then (s, Er(E_NOEXS))
      else if !c.wmul && Waiters(s, FlgQ(f)) != [] then (s, Er(E_OBJ))
      else if Match(c.flgptn, waiptn, wfmode) then
        (s.(flg := s.flg[f := c.(flgptn := Consume(c.flgptn, waiptn, wfmode))]), Pattern(c.flgptn))
      else if tmo == TMO_POL then (s, Er(E_TMOUT))
      else (Block(Join(s, s.current, FlgQ(f), FlgInfo(waiptn, wfmode, {})), FLG, tmo), Blocks)
  }

  /** A satisfied waiter gets the pattern and leaves; what it consumes goes. */
  function Deliver(s: KState, f: FlgId, t: TaskId): KState
    requires s.tcb[t].winfo.FlgInfo?
  {
    var p := s.flg[f].flgptn;
    var i := s.tcb[t].winfo;
    Release(s.(tcb := s.tcb[t := s.tcb[t].(winfo := i.(flgptn := p))],
               flg := s.flg[f := s.flg[f].(flgptn := Consume(p, i.waiptn, i.wfmode))]), t, E_OK)
  }

  /** The walk of tk_set_flg over the part of the queue it has not reached. */
  function SetFrom(s: KState, f: FlgId, rest: seq<TaskId>): KState
    decreases rest
  {
    if rest == [] then s
    else SetFrom(if Satisfied(s, s.flg[f].flgptn, rest[0]) then Deliver(s, f, rest[0]) else s, f, rest[1..])
  }

  function SetFlg(s: KState, id: int, setptn: Ptn): (KState, Reply) {
    if !InRange(id, CFN_MAX_FLGID) then (s, Er(E_ID))
    else
      var f: FlgId := id - 1;
      if !s.flg[f].live then (s, Er(E_NOEXS))
      else
        var u := s.(flg := s.flg[f := s.flg[f].(flgptn := s.flg[f].flgptn + setptn)]);
        var w := Waiters(s, FlgQ(f));
        (if w == [] then u else Resched(SetFrom(u, f, w)), Er(E_OK))
  }

  function ClrFlg(s: KState, id: int, clrptn: Ptn): (KState, Reply) {
    if !InRange(id, CFN_MAX_FLGID) then (s, Er(E_ID))
    else
      var f: FlgId := id - 1;
      if !s.flg[f].live then (s, Er(E_NOEXS))
      else (s.(flg := s.flg[f := s.flg[f].(flgptn := s.flg[f].flgptn * clrptn)]), Er(E_OK))
  }

  /* ---- mailboxes ---- */

  function CreMbx(s: KState, tpri: bool, mpri: bool): (KState, Reply) {
    if s.freeMbx == [] then (s, Er(E_LIMIT))
    else
      var m := s.freeMbx[0];
      (s.(freeMbx := s.freeMbx[1..], waits := s.waits.Clear(MbxQ(m)),
          mbx := s.mbx[m := Mbxcb(true, tpri, mpri, [])],
          hist := s.hist.(mbx := s.hist.mbx[m := MbxHist([], [])])),
       NewId((m as int) + 1))
  }

  /** pop_waiting_receiver: the first waiter that still waits for a mailbox; any before it are dropped. */
  function PopFrom(s: KState, rest: seq<TaskId>): (KState, Option<TaskId>)
    decreases rest
  {
    if rest == [] then (s, None)
    else
      var p := s.(waits := s.waits.Del(rest[0]).Init(rest[0]));
      if s.tcb[rest[0]].tskstat == WAI && s.tcb[rest[0]].tskwait == MBX then (p, Some(rest[0]))
      else PopFrom(p, rest[1..])
  }

  /** make_waiter_ready */
  function MakeReady(s: KState, t: TaskId, cause: ER, msg: Option<Msg>): KState {
    CompleteWait(s.(tcb := s.tcb[t := s.tcb[t].(winfo := MbxInfo(msg))]), t, cause)
  }

  /** The receivers of a deleted mailbox, popped one by one. */
  function DropFrom(s: KState, rest: seq<TaskId>): KState
    decreases rest
  {
    if rest == [] then s
    else
      var t := rest[0];
      var p := s.(waits := s.waits.Del(t).Init(t));
      DropFrom(if s.tcb[t].tskstat == WAI && s.tcb[t].tskwait == MBX then MakeReady(p, t, E_DLT, None) else p, rest[1..])
  }

  /** The place of a message of priority p: before the first of a lower priority. */
  function MsgPos(q: seq<Msg>, p: int): (i: nat)
    ensures i <= |q|
  {
    if q == [] || p < q[0].msgpri then 0 else 1 + MsgPos(q[1..], p)
  }

  function Sent(h: Hist, m: MbxId, msg: Msg): Hist {
    h.(mbx := h.mbx[m := h.mbx[m].(sent := h.mbx[m].sent + [msg])])
  }

  function HandedOver(h: Hist, m: MbxId, msg: Msg, t: TaskId): Hist {
    h.(mbx := h.mbx[m := h.mbx[m].(handed := h.mbx[m].handed + [(msg, t)])])
  }

  function SndMbx(s: KState, id: int, msg: Msg): (KState, Reply) {
    if !InRange(id, CFN_MAX_MBXID) then (s, Er(E_ID))
    else
      var m: MbxId := id - 1;
      var c := s.mbx[m];
      if !c.live then (s, Er(E_NOEXS))
      else if c.mpri && msg.msgpri <= 0 then (s, Er(E_PAR))
      else match PopFrom(s, Waiters(s, MbxQ(m)))
           case (p, Some(t)) =>
             (Resched(MakeReady(p, t, E_OK, Some(msg)).(hist := HandedOver(Sent(s.hist, m, msg), m, msg, t))), Er(E_OK))
           case (p, None) =>
             var i := if c.mpri then MsgPos(c.msgs, msg.msgpri) else |c.msgs|;
             (p.(mbx := p.mbx[m := c.(msgs := InsertAt(c.msgs, i, msg))], hist := Sent(s.hist, m, msg)), Er(E_OK))
  }

  function RcvMbx(s: KState, id: int, tmo: int, canBlock: bool): (KState, Reply) {
    if !InRange(id, CFN_MAX_MBXID) then (s, Er(E_ID))
    else if tmo < TMO_FEVR then (s, Er(E_PAR))
    else if !canBlock then (s, Er(E_CTX))
    else
      var m: MbxId := id - 1;
      var c := s.mbx[m];
      if !c.live then (s, Er(E_NOEXS))
      else if c.msgs != [] then
        (s.(mbx := s.mbx[m := c.(msgs := c.msgs[1..])], hist := HandedOver(s.hist, m, c.msgs[0], s.current)),
         Received(c.msgs[0]))
      else if tmo == TMO_POL then (s, Er(E_TMOUT))
      else (Block(Join(s, s.current, MbxQ(m), MbxInfo(None)), MBX, tmo), Blocks)
  }

  function DelMbx(s: KState, id: int): (KState, Reply) {
    if !InRange(id, CFN_MAX_MBXID) then (s, Er(E_ID))
    else
      var m: MbxId := id - 1;
      if !s.mbx[m].live then (s, Er(E_NOEXS))
      else
        var r := DropFrom(s, Waiters(s, MbxQ(m)));
        (Resched(r.(mbx := r.mbx[m := NO_MBX], waits := r.waits.Clear(MbxQ(m)), freeMbx := r.freeMbx + [m])), Er(E_OK))
  }
}
