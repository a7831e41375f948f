/** The state the kernel keeps between two calls, and the invariant of that state. A predicate written (...) == true is
    one the verifier need not take apart wherever it is proved. */
module KernelState {
  import opened Types
  import opened Rings

  const TICK_COUNTS: nat := 100000
  const TICK_MS: nat := 10
  const TK_WAKEUP_MAXCNT: nat := 4095
  const TK_SEMAPHORE_MAXCNT: nat := 32767
  const TMO_POL: int := 0
  const TMO_FEVR: int := -1

  // The launch creates the initial task first and the idle task second.
  const INI: TaskId := 0
  const IDLE: TaskId := 1

  /** The rings a TCB's `head` can be on, and those its `winfo.wait_queue` can be on. */
  datatype HQ = FreeQ | ReadyQ(p: Pri) | TimerQ
  datatype WQ = SemQ(sem: SemId) | FlgQ(flg: FlgId) | MbxQ(mbx: MbxId)

  /** A UINT bit pattern, as the set of the bits that are 1. */
  type Bit = b: nat | b < 32
  type Ptn = set<Bit>

  datatype Msg = Msg(id: nat, msgpri: int)
  datatype Mode = Mode(orw: bool, clr: bool, bitclr: bool)

  /** The union in WaitInfo. It keeps its value after the wait, for the resumed call to read. */
  datatype WInfo =
    | NoInfo
    | SemInfo(cnt: int, semcb: SemId)
    | FlgInfo(waiptn: Ptn, wfmode: Mode, flgptn: Ptn)
    | MbxInfo(msg: Option<Msg>)

  /** Where the task's own code is: inside a wait call it has not returned from, or not. */
  datatype Phase = Outside | InWait(kind: Kind)

  datatype Tcb = Tcb(itskpri: Pri, tskstat: Stat, tskwait: Kind, delay: nat,
                     wupcause: ER, wupcnt: nat, winfo: WInfo, pc: Phase)

  datatype Semcb = Semcb(live: bool, tpri: bool, cntOrder: bool, semcnt: int, maxsem: int)
  datatype Flgcb = Flgcb(live: bool, tpri: bool, wmul: bool, flgptn: Ptn)
  datatype Mbxcb = Mbxcb(live: bool, tpri: bool, mpri: bool, msgs: seq<Msg>)

  const FRESH_TCB: Tcb := Tcb(1, NOEXS, NoWait, 0, E_OK, 0, NoInfo, Outside)
  const NO_SEM: Semcb := Semcb(false, false, false, 0, 0)
  const NO_FLG: Flgcb := Flgcb(false, false, false, {})
  const NO_MBX: Mbxcb := Mbxcb(false, false, false, [])

  type Tcbs = s: seq<Tcb> | |s| == CFN_MAX_TSKID witness seq(CFN_MAX_TSKID, _ => FRESH_TCB)
  type Sems = s: seq<Semcb> | |s| == CFN_MAX_SEMID witness seq(CFN_MAX_SEMID, _ => NO_SEM)
  type Flgs = s: seq<Flgcb> | |s| == CFN_MAX_FLGID witness seq(CFN_MAX_FLGID, _ => NO_FLG)
  type Mbxs = s: seq<Mbxcb> | |s| == CFN_MAX_MBXID witness seq(CFN_MAX_MBXID, _ => NO_MBX)

  /* History: what has happened, which no kernel code reads. */

  /** Of a task: when it last joined a wait queue (a count of arrivals), the start, length and absolute
      deadline of its last timed wait, and the wake-ups accepted and used since it was started. */
  datatype TaskHist = TaskHist(ticket: nat, since: nat, ms: nat, deadline: int, accepted: nat, used: nat)

  /** Of a semaphore: the units put in (initial count and signals) and the units handed out. */
  datatype SemHist = SemHist(given: int, granted: int)

  /** Of a mailbox: the messages accepted, and the messages handed over with their receivers. */
  datatype MbxHist = MbxHist(sent: seq<Msg>, handed: seq<(Msg, TaskId)>)

  type TaskHists = s: seq<TaskHist> | |s| == CFN_MAX_TSKID witness seq(CFN_MAX_TSKID, _ => TaskHist(0, 0, 0, 0, 0, 0))
  type SemHists = s: seq<SemHist> | |s| == CFN_MAX_SEMID witness seq(CFN_MAX_SEMID, _ => SemHist(0, 0))
  type MbxHists = s: seq<MbxHist> | |s| == CFN_MAX_MBXID witness seq(CFN_MAX_MBXID, _ => MbxHist([], []))

  datatype Hist = Hist(arrivals: nat, task: TaskHists, sem: SemHists, mbx: MbxHists)

  datatype KState = K(
    tcb: Tcbs, heads: Rings<HQ>, waits: Rings<WQ>,
    sem: Sems, flg: Flgs, mbx: Mbxs,
    freeSem: seq<SemId>, freeFlg: seq<FlgId>, freeMbx: seq<MbxId>,
    current: TaskId, next: Option<TaskId>, msip: bool,
    mtimecmp: nat, now: nat, hist: Hist)

  function Waiters(s: KState, w: WQ): seq<TaskId> {
    s.waits.Get(w)
  }

  function ReadyAt(s: KState, p: Pri): seq<TaskId> {
    s.heads.Get(ReadyQ(p))
  }

  function Timed(s: KState): seq<TaskId> {
    s.heads.Get(TimerQ)
  }

  /** The units a semaphore waiter asks for. */
  function Req(s: KState, t: TaskId): int {
    if s.tcb[t].winfo.SemInfo? then s.tcb[t].winfo.cnt else 0
  }

  predicate Waiting(s: KState, t: TaskId) {
    s.tcb[t].tskstat == WAI
  }

  predicate Runnable(s: KState, t: TaskId) {
    s.tcb[t].tskstat == RDY || s.tcb[t].tskstat == RUN
  }

  /** tkmc_get_highest_priority_task: the head of the first ready queue, from priority p on, that has one. */
  function HighestFrom(h: Rings<HQ>, p: Pri): Option<TaskId>
    decreases CFN_MAX_PRI - p
  {
    if h.Get(ReadyQ(p)) != [] then Some(h.Get(ReadyQ(p))[0])
    else if p < CFN_MAX_PRI then HighestFrom(h, p + 1)
    else None
  }

  function Highest(s: KState): Option<TaskId> {
    HighestFrom(s.heads, 1)
  }

  /* ---- invariant: links ---- */

  predicate Exists(s: KState, w: WQ) {
    match w
    case SemQ(q) => s.sem[q].live
    case FlgQ(f) => s.flg[f].live
    case MbxQ(m) => s.mbx[m].live
  }

  /** The wait data of a task in, or just out of, a wait of the given kind. */
  predicate InfoFits(k: Kind, i: WInfo) {
    match k
    case SEM => i.SemInfo?
    case FLG => i.FlgInfo?
    case MBX => i.MbxInfo?
    case NoWait => false
    case _ => true
  }

  /** The wait link agrees with what the task waits for. */
  predicate WaitLinkOk(s: KState, t: TaskId) {
    var l := s.waits.at[t];
    match s.tcb[t].tskwait
    case NoWait => false
    case SLP => l.Detached? && s.tcb[t].wupcnt == 0
    case DLY => l.Detached? && s.heads.at[t] == On(TimerQ)
    case SEM => s.tcb[t].winfo.SemInfo? && l == On(SemQ(s.tcb[t].winfo.semcb)) && Exists(s, l.q)
    case FLG => l.On? && l.q.FlgQ? && Exists(s, l.q)
    case MBX => l.On? && l.q.MbxQ? && Exists(s, l.q) && s.tcb[t].winfo == MbxInfo(None)
  }

  predicate TaskOk(s: KState, t: TaskId) {
    var c := s.tcb[t];
    && c.wupcnt <= TK_WAKEUP_MAXCNT
    && (c.pc == Outside || c.tskstat == WAI ==> c.wupcause == E_OK)
    && (c.pc.InWait? ==> InfoFits(c.pc.kind, c.winfo) && c.tskstat !in {NOEXS, DMT})
    && match c.tskstat
       case NOEXS => s.heads.at[t] == On(FreeQ) && s.waits.at[t].Detached?
       case DMT => !s.heads.at[t].On? && s.waits.at[t].Detached?
       case WAI =>
         && c.pc == InWait(c.tskwait)
         && InfoFits(c.tskwait, c.winfo)
         && (s.heads.at[t] == On(TimerQ) || (s.heads.at[t].Detached? && c.delay == 0))
         && WaitLinkOk(s, t)
       case _ =>
         && s.heads.at[t] == On(ReadyQ(c.itskpri)) && s.waits.at[t].Detached?
         && c.tskwait == NoWait && c.delay == 0
  }

  ghost predicate LinksOk(s: KState) {
    (&& Coherent(s.heads) && Coherent(s.waits)
     && forall t: TaskId :: TaskOk(s, t)) == true
  }

  /* ---- invariant: wait objects ---- */

  /** a comes before b on a queue ordered by arrival, or by priority and then arrival. */
  predicate Before(s: KState, tpri: bool, a: TaskId, b: TaskId) {
    if tpri && s.tcb[a].itskpri != s.tcb[b].itskpri then s.tcb[a].itskpri < s.tcb[b].itskpri
    else s.hist.task[a].ticket < s.hist.task[b].ticket
  }

  predicate PriorityOrdered(s: KState, w: WQ) {
    match w
    case SemQ(q) => s.sem[q].tpri
    case FlgQ(f) => s.flg[f].tpri
    case MbxQ(m) => s.mbx[m].tpri
  }

  ghost predicate Ordered(s: KState, tpri: bool, q: seq<TaskId>) {
    && (forall i, j :: 0 <= i < j < |q| ==> Before(s, tpri, q[i], q[j]))
    && (forall t :: t in q ==> s.hist.task[t].ticket < s.hist.arrivals)
  }

  ghost predicate QueueOk(s: KState, w: WQ) {
    Ordered(s, PriorityOrdered(s, w), Waiters(s, w))
  }

  /** What every step of a call keeps of a semaphore. */
  ghost predicate SemOk(s: KState, q: SemId) {
    var c := s.sem[q];
    && (c.live ==> 0 <= c.semcnt <= c.maxsem <= TK_SEMAPHORE_MAXCNT && 1 <= c.maxsem
                   && s.hist.sem[q].given == c.semcnt + s.hist.sem[q].granted)
    && forall t :: t in Waiters(s, SemQ(q)) ==> 1 <= Req(s, t) <= c.maxsem
  }

  /** What a finished call leaves besides: no waiter is held back by units it could have. */
  ghost predicate Settled(s: KState, q: SemId) {
    var c := s.sem[q];
    var w := Waiters(s, SemQ(q));
    if c.cntOrder then forall t :: t in w ==> Req(s, t) > c.semcnt
    else w != [] ==> Req(s, w[0]) > c.semcnt
  }

  /** check_ptn */
  predicate Match(flgptn: Ptn, waiptn: Ptn, wfmode: Mode) {
    if wfmode.orw then flgptn * waiptn != {} else flgptn * waiptn == waiptn
  }

  predicate Satisfied(s: KState, flgptn: Ptn, t: TaskId) {
    var i := s.tcb[t].winfo;
    i.FlgInfo? && Match(flgptn, i.waiptn, i.wfmode)
  }

  ghost predicate FlgOk(s: KState, f: FlgId) {
    s.flg[f].live && !s.flg[f].wmul ==> |Waiters(s, FlgQ(f))| <= 1
  }

  /** What a finished call leaves besides: no waiter is satisfied by the pattern. */
  ghost predicate FlgSettled(s: KState, f: FlgId) {
    forall t :: t in Waiters(s, FlgQ(f)) ==> !Satisfied(s, s.flg[f].flgptn, t)
  }

  /** Nobody waits for what is there. */
  ghost predicate AllSettled(s: KState) {
    && (forall q: SemId :: Settled(s, q))
    && (forall f: FlgId :: FlgSettled(s, f))
  }

  ghost predicate MsgOrdered(q: seq<Msg>) {
    forall i, j :: 0 <= i < j < |q| ==> q[i].msgpri <= q[j].msgpri
  }

  /** The messages of one priority, in order. */
  function OfPri(q: seq<Msg>, p: int): seq<Msg> {
    if q == [] then []
    else (if q[0].msgpri == p then [q[0]] else []) + OfPri(q[1..], p)
  }

  function Handed(h: seq<(Msg, TaskId)>): seq<Msg> {
    seq(|h|, i requires 0 <= i < |h| => h[i].0)
  }

  ghost predicate MbxOk(s: KState, m: MbxId) {
    var c := s.mbx[m];
    var h := s.hist.mbx[m];
    && (c.msgs == [] || Waiters(s, MbxQ(m)) == [])
    && (c.live && c.mpri ==> MsgOrdered(c.msgs))
    && (c.live && !c.mpri ==> h.sent == Handed(h.handed) + c.msgs)
    && (c.live ==> forall p: int :: OfPri(h.sent, p) == OfPri(Handed(h.handed) + c.msgs, p))
  }

  /* ---- invariant: free lists ---- */

  ghost predicate FreeOk(s: KState) {
    && NoDup(s.freeSem) && NoDup(s.freeFlg) && NoDup(s.freeMbx)
    && (forall q: SemId :: q in s.freeSem <==> !s.sem[q].live)
    && (forall f: FlgId :: f in s.freeFlg <==> !s.flg[f].live)
    && (forall m: MbxId :: m in s.freeMbx <==> !s.mbx[m].live)
  }

  /* ---- invariant: time ---- */

  /** The absolute time of the edge that takes a timed waiter's count to zero. */
  function Deadline(s: KState, t: TaskId): int {
    s.mtimecmp + (s.tcb[t].delay - 1) * TICK_COUNTS
  }

  /** The ticks that fit ms, rounded up, without the tick tkmc_ms_to_ticks adds. */
  function CeilTicks(ms: nat): nat {
    ms / TICK_MS + (if ms % TICK_MS != 0 then 1 else 0)
  }

  /** A deadline strictly after the time asked for, and at most one tick after it is rounded up. */
  predicate InWindow(h: TaskHist) {
    && h.since + h.ms * (TICK_COUNTS / TICK_MS) < h.deadline
    && h.deadline <= h.since + (CeilTicks(h.ms) + 1) * TICK_COUNTS
  }

  predicate HistOk(s: KState, t: TaskId) {
    && s.hist.task[t].accepted == s.tcb[t].wupcnt + s.hist.task[t].used
    && (s.heads.at[t] == On(TimerQ) ==>
          InWindow(s.hist.task[t]) && s.hist.task[t].since <= s.now)
  }

  /** In a finished call each timed waiter has ticks left, and they lead to the deadline fixed when it began. */
  predicate TimedOk(s: KState, t: TaskId) {
    s.heads.at[t] == On(TimerQ) ==>
      s.tcb[t].delay > 0 && Deadline(s, t) == s.hist.task[t].deadline
  }

  /* ---- invariant: scheduling ---- */

  ghost predicate SchedOk(s: KState) {
    && (forall t: TaskId :: s.tcb[t].tskstat == RUN ==> t == s.current)
    && (if s.msip then s.next == Highest(s)
        else Highest(s) == Some(s.current) && s.tcb[s.current].tskstat == RUN)
  }

  predicate IdleOk(s: KState) {
    Runnable(s, IDLE) && s.tcb[IDLE].itskpri == CFN_MAX_PRI
  }

  ghost predicate ObjectsOk(s: KState) {
    (&& (forall w: WQ :: QueueOk(s, w))
     && (forall q: SemId :: SemOk(s, q))
     && (forall f: FlgId :: FlgOk(s, f))
     && (forall m: MbxId :: MbxOk(s, m))) == true
  }

  /** What every step inside a call keeps. */
  ghost predicate Core(s: KState) {
    (&& LinksOk(s) && ObjectsOk(s)
     && (forall t: TaskId :: HistOk(s, t))
     && FreeOk(s) && IdleOk(s)
     && s.mtimecmp <= s.now + TICK_COUNTS) == true
  }

  /** The invariant of the kernel between two calls. */
  ghost predicate Inv(s: KState) {
    (&& Core(s)
     && AllSettled(s)
     && (forall t: TaskId :: TimedOk(s, t))
     && SchedOk(s)) == true
  }
}
