/** The calls as their callers make them: packets and pointers that may be NULL, attribute and mode words. What their
    checks let through is a step of the kernel; what they refuse changes nothing. */
module Packets {
  import opened Types
  import opened KernelState
  import opened KernelOps
  import opened TaskCalls
  import opened Runs
  import opened Checks

  type Address = a: nat | a < 0x1_0000_0000

  const NULL: Address := 0

  // Attribute and mode words are the sets of their 1 bits, as patterns are; an attribute of value 0 is no bit.
  const TA_USERBUF: Bit := 5
  const TA_TPRI: Bit := 0
  const TA_WMUL: Bit := 3
  const TA_CNT: Bit := 1
  const TA_MPRI: Bit := 1
  const VALID_TSKATR: Ptn := {0, TA_USERBUF, 8, 9}
  const VALID_SEMATR: Ptn := {TA_TPRI, TA_CNT}
  const VALID_FLGATR: Ptn := {TA_TPRI, TA_WMUL}
  const VALID_MBXATR: Ptn := {TA_TPRI, TA_MPRI}
  const TWF_ORW: Bit := 0
  const TWF_CLR: Bit := 4
  const TWF_BITCLR: Bit := 5
  const VALID_WFMODE: Ptn := {TWF_ORW, TWF_CLR, TWF_BITCLR}

  const FRAME_SIZE: nat := 128
  const STACK_ALIGN: nat := 16

  datatype TaskPacket = TaskPacket(tskatr: Ptn, task: Address, bufptr: Address, itskpri: int, stksz: int)
  datatype SemPacket = SemPacket(sematr: Ptn, isemcnt: int, maxsem: int)
  datatype FlgPacket = FlgPacket(flgatr: Ptn, iflgptn: Ptn)
  datatype MbxPacket = MbxPacket(mbxatr: Ptn)

  /** The saved frame fits on the stack with room left, the stack fits in the address space, and its end is aligned. */
  predicate StackOk(k: TaskPacket) {
    && k.bufptr != NULL && k.stksz > FRAME_SIZE
    && k.bufptr + k.stksz < 0x1_0000_0000 && (k.bufptr + k.stksz) % STACK_ALIGN == 0
  }

  function TkCreTsk(s: KState, pk: Option<TaskPacket>): (KState, Reply) {
    match pk
    case None => (s, Er(E_PAR))
    case Some(k) =>
      if !(k.tskatr <= VALID_TSKATR) || TA_USERBUF !in k.tskatr then (s, Er(E_RSATR))
      else if k.task == NULL || !StackOk(k) then (s, Er(E_PAR))
      else CreTsk(s, k.itskpri)
  }

  function TkCreSem(s: KState, pk: Option<SemPacket>): (KState, Reply) {
    match pk
    case None => (s, Er(E_PAR))
    case Some(k) =>
      if !(k.sematr <= VALID_SEMATR) then (s, Er(E_RSATR))
      else CreSem(s, TA_TPRI in k.sematr, TA_CNT in k.sematr, k.isemcnt, k.maxsem)
  }

  function TkCreFlg(s: KState, pk: Option<FlgPacket>): (KState, Reply) {
    match pk
    case None => (s, Er(E_PAR))
    case Some(k) =>
      if !(k.flgatr <= VALID_FLGATR) then (s, Er(E_RSATR))
      else CreFlg(s, TA_TPRI in k.flgatr, TA_WMUL in k.flgatr, k.iflgptn)
  }

  function TkCreMbx(s: KState, pk: Option<MbxPacket>): (KState, Reply) {
    match pk
    case None => (s, Er(E_PAR))
    case Some(k) =>
      if !(k.mbxatr <= VALID_MBXATR) then (s, Er(E_RSATR))
      else CreMbx(s, TA_TPRI in k.mbxatr, TA_MPRI in k.mbxatr)
  }

  function ModeOf(wfmode: Ptn): Mode {
    Mode(TWF_ORW in wfmode, TWF_CLR in wfmode, TWF_BITCLR in wfmode)
  }

  /** tk_wai_flg; `out` says whether there is a place for the pattern. */
  function TkWaiFlg(s: KState, id: int, waiptn: Ptn, wfmode: Ptn, out: bool, tmo: int, canBlock: bool): (KState, Reply) {
    if !InRange(id, CFN_MAX_FLGID) then (s, Er(E_ID))
    else if !out || !(wfmode <= VALID_WFMODE) then (s, Er(E_PAR))
    else WaiFlg(s, id, waiptn, ModeOf(wfmode), tmo, canBlock)
  }

  function TkSndMbx(s: KState, id: int, pk: Option<Msg>): (KState, Reply) {
    if !InRange(id, CFN_MAX_MBXID) then (s, Er(E_ID))
    else match pk
         case None => (s, Er(E_PAR))
         case Some(msg) => SndMbx(s, id, msg)
  }

  /** tk_rcv_mbx; `out` says whether there is a place for the message. */
  function TkRcvMbx(s: KState, id: int, out: bool, tmo: int, canBlock: bool): (KState, Reply) {
    if !InRange(id, CFN_MAX_MBXID) then (s, Er(E_ID))
    else if !out then (s, Er(E_PAR))
    else RcvMbx(s, id, tmo, canBlock)
  }

  /* ---- the calls and the steps ---- */

  datatype Call =
    | MakeTask(task: Option<TaskPacket>) | MakeSem(sem: Option<SemPacket>) | MakeFlg(flg: Option<FlgPacket>)
    | MakeMbx(mbx: Option<MbxPacket>)
    | AwaitFlg(id: int, waiptn: Ptn, wfmode: Ptn, out: bool, tmo: int, canBlock: bool)
    | Post(id: int, msg: Option<Msg>) | Fetch(id: int, out: bool, tmo: int, canBlock: bool)

  function Called(s: KState, call: Call): (KState, Reply) {
    match call
    case MakeTask(pk) => TkCreTsk(s, pk)
    case MakeSem(pk) => TkCreSem(s, pk)
    case MakeFlg(pk) => TkCreFlg(s, pk)
    case MakeMbx(pk) => TkCreMbx(s, pk)
    case AwaitFlg(id, waiptn, wfmode, out, tmo, c) => TkWaiFlg(s, id, waiptn, wfmode, out, tmo, c)
    case Post(id, pk) => TkSndMbx(s, id, pk)
    case Fetch(id, out, tmo, c) => TkRcvMbx(s, id, out, tmo, c)
  }

  /** The caller can block only as a task, and the idle task never does. */
  predicate Allowed(s: KState, call: Call) {
    (call.AwaitFlg? || call.Fetch?) && call.canBlock ==> TaskContext(s) && s.current != IDLE
  }

  /** What a packet is checked for before its step, in the order of the checks. Of the attributes of a task bit 0 is
      TA_HLNG, bit 5 TA_USERBUF, and bits 8 and 9 are the protection level. */
  ghost function PacketChecks(call: Call): seq<Check> {
    match call
    case MakeTask(None) | MakeSem(None) | MakeFlg(None) | MakeMbx(None) => [(true, E_PAR)]
    case MakeTask(Some(k)) =>
      [(exists b :: b in k.tskatr && b !in {0, 5, 8, 9}, E_RSATR), (5 !in k.tskatr, E_RSATR),
       (k.task == 0 || k.bufptr == 0 || k.stksz <= 128, E_PAR),
       (k.bufptr + k.stksz > 0xFFFF_FFFF || (k.bufptr + k.stksz) % 16 != 0, E_PAR)]
    case MakeSem(Some(k)) => [(exists b :: b in k.sematr && b !in {0, 1}, E_RSATR)]
    case MakeFlg(Some(k)) => [(exists b :: b in k.flgatr && b !in {0, 3}, E_RSATR)]
    case MakeMbx(Some(k)) => [(exists b :: b in k.mbxatr && b !in {0, 1}, E_RSATR)]
    case AwaitFlg(id, _, wfmode, out, _, _) =>
      [(!InRange(id, CFN_MAX_FLGID), E_ID), (!out || exists b :: b in wfmode && b !in {0, 4, 5}, E_PAR)]
    case Post(id, pk) => [(!InRange(id, CFN_MAX_MBXID), E_ID), (pk.None?, E_PAR)]
    case Fetch(id, out, _, _) => [(!InRange(id, CFN_MAX_MBXID), E_ID), (!out, E_PAR)]
  }

  /** The step a call comes to, if its packet passes. Bit 0 is TA_TPRI or TWF_ORW, bit 1 TA_CNT or TA_MPRI, bit 3 TA_WMUL,
      bit 4 TWF_CLR and bit 5 TWF_BITCLR. */
  function StepOf(call: Call): Step {
    match call
    case MakeTask(Some(k)) => CreateTask(k.itskpri)
    case MakeSem(Some(k)) => CreateSem(0 in k.sematr, 1 in k.sematr, k.isemcnt, k.maxsem)
    case MakeFlg(Some(k)) => CreateFlg(0 in k.flgatr, 3 in k.flgatr, k.iflgptn)
    case MakeMbx(Some(k)) => CreateMbx(0 in k.mbxatr, 1 in k.mbxatr)
    case AwaitFlg(id, waiptn, wfmode, _, tmo, c) =>
      WaitFlg(id, waiptn, Mode(0 in wfmode, 4 in wfmode, 5 in wfmode), tmo, c)
    case Post(id, Some(msg)) => SendMsg(id, msg)
    case Fetch(id, _, tmo, c) => ReceiveMsg(id, tmo, c)
    case _ => SwitchTask
  }

  /** Whatever a caller passes, the call answers with the code of the first check of its packet that fails, and changes
      nothing; if none fails it is a step of the kernel, with its result. So what holds of all steps holds of the calls. */
  lemma CallsAreSteps(s: KState, call: Call)
    requires Allowed(s, call)
    ensures match FirstFailing(PacketChecks(call))
            case Some(e) => Called(s, call) == (s, Er(e))
            case None => Enabled(s, StepOf(call)) && Called(s, call) == Exec(s, StepOf(call))
  {
    hide Called, StepOf, FirstFailing, PacketChecks, Enabled;
    if call.MakeTask? || call.MakeSem? || call.MakeFlg? || call.MakeMbx? { CreationsAreSteps(s, call); } else { UsesAreSteps(s, call); }
  }

  lemma CreationsAreSteps(s: KState, call: Call)
    requires call.MakeTask? || call.MakeSem? || call.MakeFlg? || call.MakeMbx?
    ensures match FirstFailing(PacketChecks(call))
            case Some(e) => Called(s, call) == (s, Er(e))
            case None => Enabled(s, StepOf(call)) && Called(s, call) == Exec(s, StepOf(call))
  {
    hide CreTsk, CreSem, CreFlg, CreMbx, TimeExec, FirstFailing;
    RowByRow(PacketChecks(call));
  }

  lemma UsesAreSteps(s: KState, call: Call)
    requires Allowed(s, call) && (call.AwaitFlg? || call.Post? || call.Fetch?)
    ensures match FirstFailing(PacketChecks(call))
            case Some(e) => Called(s, call) == (s, Er(e))
            case None => Enabled(s, StepOf(call)) && Called(s, call) == Exec(s, StepOf(call))
  {
    hide WaiFlg, SndMbx, RcvMbx, TaskExec, TimeExec, SemExec, TaskContext, FirstFailing;
    RowByRow(PacketChecks(call));
  }

  /** E_RSATR is for the attributes, which are looked at before anything else in a packet: some bit is not supported, or
      a task brings no stack of its own. */
  lemma AttributesFirst(s: KState, t: Option<TaskPacket>, q: Option<SemPacket>, f: Option<FlgPacket>, m: Option<MbxPacket>)
    ensures TkCreTsk(s, t).1 == Er(E_RSATR) <==>
              t.Some? && (TA_USERBUF !in t.value.tskatr || exists b :: b in t.value.tskatr && b !in {0, 5, 8, 9})
    ensures TkCreSem(s, q).1 == Er(E_RSATR) <==> q.Some? && exists b :: b in q.value.sematr && b !in {TA_TPRI, TA_CNT}
    ensures TkCreFlg(s, f).1 == Er(E_RSATR) <==> f.Some? && exists b :: b in f.value.flgatr && b !in {TA_TPRI, TA_WMUL}
    ensures TkCreMbx(s, m).1 == Er(E_RSATR) <==> m.Some? && exists b :: b in m.value.mbxatr && b !in {TA_TPRI, TA_MPRI}
  {
  }
}
