/** The records of units and messages against what the steps do: every entry is there because of one step, and every step
    of that kind makes its entry. With module Footprints that ties the counts and queues themselves to the calls. */
module Ledgers {
  import opened Types
  import opened Rings
  import opened KernelState
  import opened KernelOps
  import opened Frames
  import opened WaitEnd
  import opened Timer
  import opened MbxCalls
  import opened Messages
  import opened Units
  import opened Objects
  import opened Runs
  import opened WaitEndings
  import opened Footprints

  /* ---- units ---- */

  /** The units a step puts into semaphore q. */
  function PutIn(step: Step, y: Reply, q: SemId): int {
    if step.SignalSem? && step.id == q + 1 && y == Er(E_OK) then step.cnt else 0
  }

  /** The units a request takes out of q at once. */
  function TakenAtOnce(step: Step, y: Reply, q: SemId): int {
    if step.WaitSem? && step.id == q + 1 && y == Er(E_OK) then step.cnt else 0
  }

  /** A request that is granted at once takes what it asks for off the count, and does nothing else. */
  lemma TakesUnits(s: KState, id: int, cnt: int, tmo: int, canBlock: bool)
    requires WaiSem(s, id, cnt, tmo, canBlock).1 == Er(E_OK)
    ensures InRange(id, CFN_MAX_SEMID)
    ensures var q: SemId := id - 1;
            var r := WaiSem(s, id, cnt, tmo, canBlock).0;
            && r == s.(sem := s.sem[q := s.sem[q].(semcnt := s.sem[q].semcnt - cnt)], hist := s.hist.(sem := r.hist.sem))
            && r.hist.sem == s.hist.sem[q := s.hist.sem[q].(granted := s.hist.sem[q].granted + cnt)]
  {
    hide Join, Block, MayTake;
  }

  /** Only a signal, a forced release or the timer hands units of q to those who wait for them. */
  lemma NoneGot(s: KState, step: Step, q: SemId, t: TaskId)
    requires Inv(s) && Enabled(s, step) && !step.ReleaseWait? && step != TimerInterrupt && !(step.SignalSem? && step.id == q + 1)
    ensures GotBy(s, Exec(s, step).0, q, t) == 0
  {
    hide Inv, Enabled, Exec, LinksOk;
    InvGives(s);
    if t in Waiters(s, SemQ(q)) && !Waiting(Exec(s, step).0, t) {
      WaiterWaits(s, SemQ(q), t);
      WaitEndsByItsEvent(s, step, t);
      NotThisQueue(s, step, Exec(s, step).0, q, t);
    }
  }

  lemma NotThisQueue(s: KState, step: Step, r: KState, q: SemId, t: TaskId)
    requires LinksOk(s) && t in Waiters(s, SemQ(q)) && EndedBy(s, step, r, t)
    requires !step.ReleaseWait? && step != TimerInterrupt && !(step.SignalSem? && step.id == q + 1)
    ensures r.tcb[t].wupcause != E_OK
  {
    SemWaiter(s, q, t);
    assert forall w: WQ :: t in s.waits.Get(w) ==> s.waits.at[t] == On(w);
    assert t in s.waits.Get(SemQ(q));
    hide LinksOk, GivenPattern;
    assert forall w: WQ :: t in Waiters(s, w) ==> w == SemQ(q);
  }

  lemma NothingGot(s: KState, step: Step, q: SemId)
    requires Inv(s) && Enabled(s, step) && !step.ReleaseWait? && step != TimerInterrupt && !(step.SignalSem? && step.id == q + 1)
    ensures Got(s, Exec(s, step).0, q, CFN_MAX_TSKID) == 0
  {
    hide Inv, Enabled, Exec, GotBy;
    forall t: TaskId ensures GotBy(s, Exec(s, step).0, q, t) == 0 { NoneGot(s, step, q, t); }
    GotOne(s, Exec(s, step).0, q, 0, CFN_MAX_TSKID);
  }

  /** The account of a semaphore over one step: what was there and what the step puts in is what is there after it, what
      waiters were handed, and what a request took at once. */
  ghost predicate Accounted(s: KState, step: Step, r: KState, y: Reply, q: SemId) {
    s.sem[q].semcnt + PutIn(step, y, q) == r.sem[q].semcnt + Got(s, r, q, CFN_MAX_TSKID) + TakenAtOnce(step, y, q)
  }

  /** A semaphore that is live is not the one a creation takes. */
  lemma NotMade(s: KState, step: Step, q: SemId)
    requires Inv(s) && s.sem[q].live
    ensures !MakesSem(step, Exec(s, step).1, q)
  {
    hide Inv, TaskExec, TimeExec, FlgExec, MbxExec, WaiSem, SigSem, DelSem;
    InvGives(s);
    CoreGives(s);
    hide Core, LinksOk, ObjectsOk, TaskOk, HistOk;
    if step.CreateSem? && s.freeSem != [] { assert s.freeSem[0] in s.freeSem; }
  }

  lemma Ledger(s: KState, q: SemId)
    requires Inv(s) && s.sem[q].live
    ensures s.hist.sem[q].given == s.sem[q].semcnt + s.hist.sem[q].granted
  {
    hide Inv;
    UnitsConserved(s, q);
  }

  lemma PutTold(s: KState, step: Step, q: SemId)
    requires Inv(s) && Enabled(s, step) && s.sem[q].live && !(step.DeleteSem? && step.id == q + 1)
    ensures Exec(s, step).0.hist.sem[q].given == s.hist.sem[q].given + PutIn(step, Exec(s, step).1, q)
    ensures Exec(s, step).0.sem[q].live
  {
    hide Inv, Enabled, Exec;
    NotMade(s, step, q);
    StepFootprint(s, step);
    if step.SignalSem? && step.id == q + 1 { SignalPuts(s, step.id, step.cnt); SignalStep(s, step); }
  }

  lemma SignalStep(s: KState, step: Step)
    requires step.SignalSem?
    ensures Exec(s, step) == SigSem(s, step.id, step.cnt)
  {
    hide SigSem;
  }

  lemma SignalPuts(s: KState, id: int, cnt: int)
    ensures var (r, y) := SigSem(s, id, cnt);
            if y == Er(E_OK) then InRange(id, CFN_MAX_SEMID) && r.hist.sem[id - 1].given == s.hist.sem[id - 1].given + cnt else r == s
  {
    hide ServeFrom, HighestFrom;
    if SigSem(s, id, cnt).1 == Er(E_OK) {
      var a := AddUnits(s, id - 1, cnt);
      ServeUnits(a, id - 1, Waiters(a, SemQ(id - 1)));
    }
  }

  /** The account, by what the step does to waiters. */
  lemma SignalTold(s: KState, step: Step, q: SemId)
    requires Inv(s) && Enabled(s, step) && step.SignalSem? && step.id == q + 1 && s.sem[q].live
    ensures Accounted(s, step, Exec(s, step).0, Exec(s, step).1, q)
  {
    hide Inv, Enabled, Exec, SigSem, Got;
    SignalStep(s, step);
    SignalPuts(s, step.id, step.cnt);
    if SigSem(s, step.id, step.cnt).1 == Er(E_OK) {
      SignalConserves(s, step.id, step.cnt);
    } else {
      hide LinksOk;
      InvGives(s);
      NoOneServed(s, q);
    }
  }

  lemma MovedTold(s: KState, step: Step, q: SemId)
    requires Inv(s) && Enabled(s, step) && (step.ReleaseWait? || step == TimerInterrupt)
    ensures Accounted(s, step, Exec(s, step).0, Exec(s, step).1, q)
  {
    hide Inv, RelWai, TimerHandler, Got, Core, LinksOk;
    InvGives(s);
    if step.ReleaseWait? { ForcedConserves(s, step.id, q); } else { TimeoutsConserve(s, q); }
  }

  lemma RequestTold(s: KState, step: Step, q: SemId)
    requires Inv(s) && Enabled(s, step) && step.WaitSem? && step.id == q + 1
    ensures Accounted(s, step, Exec(s, step).0, Exec(s, step).1, q)
  {
    NothingGot(s, step, q);
    RequestCount(s, step.id, step.cnt, step.tmo, step.canBlock);
    hide Inv, Enabled, Got, WaiSem;
  }

  lemma RequestCount(s: KState, id: int, cnt: int, tmo: int, canBlock: bool)
    requires InRange(id, CFN_MAX_SEMID)
    ensures var (r, y) := WaiSem(s, id, cnt, tmo, canBlock);
            s.sem[id - 1].semcnt == r.sem[id - 1].semcnt + if y == Er(E_OK) then cnt else 0
  {
    hide MayTake, HighestFrom;
  }

  lemma OthersTold(s: KState, step: Step, q: SemId)
    requires Inv(s) && Enabled(s, step) && s.sem[q].live && !step.ReleaseWait? && step != TimerInterrupt && !OfSem(step, q)
    ensures Accounted(s, step, Exec(s, step).0, Exec(s, step).1, q)
  {
    hide Inv, Enabled, Exec, Got;
    NothingGot(s, step, q);
    NotMade(s, step, q);
    StepFootprint(s, step);
  }

  /** Every step accounts for the units of every live semaphore that it does not delete, and the record says what was
      put in and handed out. */
  lemma UnitsTold(s: KState, step: Step, q: SemId)
    requires Inv(s) && Enabled(s, step) && s.sem[q].live && !(step.DeleteSem? && step.id == q + 1)
    ensures var (r, y) := Exec(s, step);
            && Accounted(s, step, r, y, q)
            && r.hist.sem[q].given == s.hist.sem[q].given + PutIn(step, y, q)
            && r.hist.sem[q].granted == s.hist.sem[q].granted + Got(s, r, q, CFN_MAX_TSKID) + TakenAtOnce(step, y, q)
  {
    hide Inv, Enabled, Exec, Got;
    StepKeepsInv(s, step);
    PutTold(s, step, q);
    Ledger(s, q);
    Ledger(Exec(s, step).0, q);
    if step.ReleaseWait? || step == TimerInterrupt {
      MovedTold(s, step, q);
    } else if !OfSem(step, q) {
      OthersTold(s, step, q);
    } else if step.SignalSem? {
      SignalTold(s, step, q);
    } else {
      RequestTold(s, step, q);
    }
  }

  /* ---- messages ---- */

  /** The messages a step sends to mailbox m. */
  function SentBy(step: Step, y: Reply, m: MbxId): seq<Msg> {
    if step.SendMsg? && step.id == m + 1 && y == Er(E_OK) then [step.msg] else []
  }

  /** The record of messages sent to a mailbox grows exactly with an accepted send, by its message; and a mailbox that is
      created holds none and has a record of none. */
  lemma SentTold(s: KState, step: Step, m: MbxId)
    requires Inv(s) && Enabled(s, step)
    ensures var (r, y) := Exec(s, step);
            if step.CreateMbx? && y == NewId((m as int) + 1) then
              r.hist.mbx[m] == MbxHist([], []) && r.mbx[m] == Mbxcb(true, step.tpri, step.mpri, [])
            else r.hist.mbx[m].sent == s.hist.mbx[m].sent + SentBy(step, y, m)
  {
    hide Inv, Enabled, Footprint, Exec;
    StepFootprint(s, step);
    if OfMbx(step, m) || step.CreateMbx? { MbxSends(s, step, m); } else { KeptMbx(s, step, Exec(s, step).0, Exec(s, step).1, m); }
  }

  lemma KeptMbx(s: KState, step: Step, r: KState, y: Reply, m: MbxId)
    requires Footprint(s, step, r, y) && !OfMbx(step, m) && !step.CreateMbx?
    ensures r.hist.mbx[m].sent == s.hist.mbx[m].sent + SentBy(step, y, m)
  {
    hide SemFootprint, FlgFootprint, RegisterFootprint, TaskFootprint;
  }

  lemma MbxSends(s: KState, step: Step, m: MbxId)
    requires OfMbx(step, m) || step.CreateMbx?
    ensures var (r, y) := Exec(s, step);
            if step.CreateMbx? && y == NewId((m as int) + 1) then
              r.hist.mbx[m] == MbxHist([], []) && r.mbx[m] == Mbxcb(true, step.tpri, step.mpri, [])
            else r.hist.mbx[m].sent == s.hist.mbx[m].sent + SentBy(step, y, m)
  {
    hide TaskExec, TimeExec, SemExec, FlgExec, CreMbx, SndMbx, RcvMbx, DelMbx;
    match step
    case SendMsg(id, msg) => SendRecorded(s, id, msg);
    case DeleteMbx(id) => DeleteRecorded(s, id);
    case ReceiveMsg(id, tmo, c) => ReceiveRecorded(s, id, tmo, c);
    case CreateMbx(tpri, mpri) => CreationRecorded(s, tpri, mpri, m);
  }

  lemma DeleteRecorded(s: KState, id: int)
    ensures DelMbx(s, id).0.hist == s.hist
  {
    hide DropFrom, HighestFrom;
    if InRange(id, CFN_MAX_MBXID) { DropUnits(s, Waiters(s, MbxQ(id - 1))); }
  }

  lemma CreationRecorded(s: KState, tpri: bool, mpri: bool, m: MbxId)
    ensures var (r, y) := CreMbx(s, tpri, mpri);
            if y == NewId((m as int) + 1) then r.hist.mbx[m] == MbxHist([], []) && r.mbx[m] == Mbxcb(true, tpri, mpri, [])
            else r.hist.mbx[m] == s.hist.mbx[m]
  {
  }

  lemma ReceiveRecorded(s: KState, id: int, tmo: int, canBlock: bool)
    requires InRange(id, CFN_MAX_MBXID)
    ensures RcvMbx(s, id, tmo, canBlock).0.hist.mbx[id - 1].sent == s.hist.mbx[id - 1].sent
  {
    hide Join, Block;
    BlockRecorded(Join(s, s.current, MbxQ(id - 1), MbxInfo(None)), tmo);
    JoinRecorded(s, id - 1);
  }

  lemma BlockRecorded(s: KState, tmo: int)
    ensures Block(s, MBX, tmo).hist.mbx == s.hist.mbx
  {
  }

  lemma JoinRecorded(s: KState, m: MbxId)
    ensures Join(s, s.current, MbxQ(m), MbxInfo(None)).hist.mbx == s.hist.mbx
  {
  }

  lemma SendRecorded(s: KState, id: int, msg: Msg)
    ensures var (r, y) := SndMbx(s, id, msg);
            if y == Er(E_OK) then InRange(id, CFN_MAX_MBXID) && r.hist.mbx[id - 1].sent == s.hist.mbx[id - 1].sent + [msg] else r == s
  {
    hide PopFrom, MakeReady, MsgPos, HighestFrom;
  }

  /** A message sent where nobody waits is queued: at the tail, or under TA_MPRI behind all of its own or a higher
      priority and ahead of the others; and nothing else has changed but the record. */
  lemma SendQueues(s: KState, id: int, msg: Msg)
    requires Inv(s) && SndMbx(s, id, msg).1 == Er(E_OK) && Waiters(s, MbxQ(id - 1)) == []
    ensures InRange(id, CFN_MAX_MBXID)
    ensures var m: MbxId := id - 1;
            var r := SndMbx(s, id, msg).0;
            var q := s.mbx[m].msgs;
            && r == s.(mbx := s.mbx[m := s.mbx[m].(msgs := r.mbx[m].msgs)], hist := s.hist.(mbx := r.hist.mbx))
            && exists i: nat :: i <= |q| && r.mbx[m].msgs == q[..i] + [msg] + q[i..]
                 && (!s.mbx[m].mpri ==> i == |q|)
                 && (s.mbx[m].mpri ==> (forall x :: x in q[..i] ==> x.msgpri <= msg.msgpri) && forall x :: x in q[i..] ==> msg.msgpri < x.msgpri)
  {
    hide Inv, LinksOk, MakeReady, MsgPos;
    var m: MbxId := id - 1;
    var q := s.mbx[m].msgs;
    var i: nat := if s.mbx[m].mpri then MsgPos(q, msg.msgpri) else |q|;
    CoreGivesMbxOf(s, m);
    if s.mbx[m].mpri { PlaceIs(q, msg.msgpri); }
    assert SndMbx(s, id, msg).0.mbx[m].msgs == q[..i] + [msg] + q[i..];
  }

  lemma CoreGivesMbxOf(s: KState, m: MbxId)
    requires Inv(s)
    ensures MbxOk(s, m)
  {
    hide Inv, Core;
    InvGives(s);
    CoreGivesMbx(s, m);
  }

  lemma PlaceIs(q: seq<Msg>, p: int)
    requires MsgOrdered(q)
    ensures forall x :: x in q[..MsgPos(q, p)] ==> x.msgpri <= p
    ensures forall x :: x in q[MsgPos(q, p)..] ==> p < x.msgpri
  {
    MsgPosIs(q, p);
    var i := MsgPos(q, p);
    forall x | x in q[i..] ensures p < x.msgpri {
      var k :| 0 <= k < |q[i..]| && q[i..][k] == x;
      assert q[i + k] == x;
    }
  }
}
