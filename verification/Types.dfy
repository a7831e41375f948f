/** Identifiers, sizes and small value types shared by the whole model. */
module Types {

  // include/sys/config.h. Proofs use of these numbers that they are positive, and that there is more than one
  // priority and room for the initial task, the idle task and (module LateRun) two more.
  const CFN_MAX_PRI: nat := 16
  const CFN_MAX_TSKID: nat := 32
  const CFN_MAX_SEMID: nat := 16
  const CFN_MAX_FLGID: nat := 16
  const CFN_MAX_MBXID: nat := 8

  // Table indices: an ID of the source minus one.
  type TaskId = t: nat | t < CFN_MAX_TSKID
  type SemId = q: nat | q < CFN_MAX_SEMID
  type FlgId = f: nat | f < CFN_MAX_FLGID
  type MbxId = m: nat | m < CFN_MAX_MBXID
  type Pri = p: nat | 1 <= p <= CFN_MAX_PRI witness 1

  datatype Option<+T> = None | Some(value: T)

  /** The result codes the model uses. */
  datatype ER = E_OK | E_PAR | E_ID | E_CTX | E_LIMIT | E_OBJ | E_NOEXS | E_QOVR | E_RSATR | E_RLWAI | E_TMOUT | E_DLT

  /** tskstat */
  datatype Stat = NOEXS | DMT | RDY | RUN | WAI

  /** tskwait */
  datatype Kind = NoWait | SLP | DLY | SEM | FLG | MBX

  predicate InRange(id: int, max: nat) {
    1 <= id <= max
  }
}
