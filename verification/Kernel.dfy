/** The kernel as the C code writes it: control blocks updated in place, loops over the queues. Every method is
    proved to take the state to what the specification function of the same name says; interrupts are disabled
    throughout each method, so a method is one atomic step. A walk over a queue that deletes the entry it is on is a
    walk over the queue as it was when the walk began: module LinkedRings proves that of the C macro. */
module Kernels {
  import opened Types
  import opened Rings
  import opened KernelState
  import Ops = KernelOps
  import opened KernelOps
  import T = Timer
  import M = Messages
  import TR = TimerRuns
  import TL = TimerLate
  import WE = WaitEnd
  import MC = MbxCalls
  import R = Runs
  import EF = EventFlags
  import SC = SemCalls
  import G = Guarantees
  import P = Packets

  class Kernel {
    const tcb: array<Tcb>
    const sem: array<Semcb>
    const flg: array<Flgcb>
    const mbx: array<Mbxcb>
    var heads: Rings<HQ>
    var waits: Rings<WQ>
    var freeSem: seq<SemId>
    var freeFlg: seq<FlgId>
    var freeMbx: seq<MbxId>
    var current: TaskId
    var next: Option<TaskId>
    var msip: bool
    var mtimecmp: nat
    var mtime: nat
    ghost var hist: Hist

    ghost predicate Valid()
      reads this
    {
      tcb.Length == CFN_MAX_TSKID && sem.Length == CFN_MAX_SEMID && flg.Length == CFN_MAX_FLGID && mbx.Length == CFN_MAX_MBXID
    }

    ghost function State(): KState
      requires Valid()
      reads this, tcb, sem, flg, mbx
    {
      K(tcb[..], heads, waits, sem[..], flg[..], mbx[..], freeSem, freeFlg, freeMbx,
        current, next, msip, mtimecmp, mtime, hist)
    }

    /** The invariant of a step, as one fact. */
    ghost predicate Sound()
      reads this, tcb, sem, flg, mbx
    {
      Valid() && Core(State()) == true
    }

    /** The state in which tkmc_start launches the initial task. */
    constructor (now: nat)
      ensures Valid() && State() == R.Launch(now)
      ensures fresh(tcb) && fresh(sem) && fresh(flg) && fresh(mbx)
    {
      var launch := R.Launch(now);
      tcb := new Tcb[CFN_MAX_TSKID](t requires 0 <= t < CFN_MAX_TSKID => R.LaunchTcb(t));
      sem := new Semcb[CFN_MAX_SEMID](_ => NO_SEM);
      flg := new Flgcb[CFN_MAX_FLGID](_ => NO_FLG);
      mbx := new Mbxcb[CFN_MAX_MBXID](_ => NO_MBX);
      heads, waits := launch.heads, launch.waits;
      freeSem, freeFlg, freeMbx := launch.freeSem, launch.freeFlg, launch.freeMbx;
      current, next, msip := INI, None, false;
      mtimecmp, mtime, hist := now + TICK_COUNTS, now, launch.hist;
    }

    /* ---- task.c: scheduling and the end of a wait ---- */

    method GetHighestPriorityTask() returns (r: Option<TaskId>)
      requires Valid()
      ensures r == Highest(State())
    {
      for i := 1 to CFN_MAX_PRI + 1
        invariant i <= CFN_MAX_PRI ==> Highest(State()) == HighestFrom(heads, i)
        invariant i == CFN_MAX_PRI + 1 ==> Highest(State()) == None
      {
        if heads.Get(ReadyQ(i)) != [] {
          return Some(heads.Get(ReadyQ(i))[0]);
        }
      }
      return None;
    }

    /** The highest-priority ready task is chosen, and a switch is asked for if it is not the current one. */
    method ChooseNext()
      requires Valid()
      modifies this`next, this`msip
      ensures Valid() && State() == Resched(old(State()))
    {
      next := GetHighestPriorityTask();
      if next != Some(current) {
        msip := true;
      }
    }

    /** The highest-priority ready task is chosen, and a switch is asked for whichever it is. */
    method ChooseAndDispatch()
      requires Valid()
      modifies this`next, this`msip
      ensures Valid() && State() == Dispatch(old(State()))
    {
      next := GetHighestPriorityTask();
      msip := true;
    }

    /** The part of tkmc_complete_wait before its last if: the task leaves its queues and becomes ready. */
    method LeaveQueues(t: TaskId, cause: ER)
      requires Valid()
      modifies this`heads, this`waits, tcb
      ensures Valid() && State() == Release(old(State()), t, cause)
    {
      ghost var r := Release(State(), t, cause);
      if !heads.at[t].Detached? {
        heads := heads.Del(t);
      }
      if !waits.at[t].Detached? {
        waits := waits.Del(t);
        waits := waits.Init(t);
      }
      tcb[t] := tcb[t].(delay := 0, tskwait := NoWait, wupcause := cause, tskstat := RDY);
      heads := heads.AddTail(t, ReadyQ(tcb[t].itskpri));
      assert tcb[..] == r.tcb && heads == r.heads && waits == r.waits;
    }

    /** The one place where waits end. It is applied to waiting tasks only; where it may go on to serve a semaphore, the
        invariant of a step holds. */
    method CompleteWait(t: TaskId, cause: ER)
      requires Valid() && tcb[t].tskstat == WAI
      requires cause == E_TMOUT || cause == E_RLWAI ==> Sound()
      modifies this, tcb, sem
      ensures Valid() && State() == Ops.CompleteWait(old(State()), t, cause)
      decreases if cause in {E_TMOUT, E_RLWAI} then 2 else 0
    {
      var tskwait := tcb[t].tskwait;
      ghost var s := State();
      LeaveQueues(t, cause);
      if tskwait == SEM && (cause == E_TMOUT || cause == E_RLWAI) {
        WE.ReleaseCore(s, t, cause);
        match tcb[t].winfo
        case SemInfo(_, semcb) => SemServeWaiters(semcb);
        case _ =>
      }
    }

    /** A satisfied request: its wait is complete, and the count is down by it. */
    method GrantTo(q: SemId, t: TaskId, req: int)
      requires Valid() && req == Req(State(), t) && tcb[t].tskstat == WAI
      modifies this, tcb, sem
      ensures Valid() && State() == Grant(old(State()), q, t)
      decreases 1, 0
    {
      hide Ops.CompleteWait, Release, Grant, Core;
      WE.OnlyReleases(State(), t, E_OK);
      WE.GrantIs(State(), q, t);
      ghost var g := Grant(State(), q, t);
      CompleteWait(t, E_OK);
      sem[q] := sem[q].(semcnt := sem[q].semcnt - req);
      hist := hist.(sem := hist.sem[q := hist.sem[q].(granted := hist.sem[q].granted + req)]);
      assert tcb[..] == g.tcb && sem[..] == g.sem && hist == g.hist;
    }

    method SemServeWaiters(q: SemId)
      requires Sound()
      modifies this, tcb, sem
      ensures Valid() && State() == Serve(old(State()), q)
      decreases 1, 1
    {
      var w := waits.Get(SemQ(q));
      var i := 0;
      ghost var goal := Serve(State(), q);
      WE.AllToPass(State(), q);
      assert w[0..] == w;
      while i < |w|
        invariant 0 <= i <= |w| && Sound()
        invariant ServeFrom(State(), q, w[i..]) == goal && WE.Passed(State(), q, w[i..]) == true
      {
        var pos := w[i];
        var req := if tcb[pos].winfo.SemInfo? then tcb[pos].winfo.cnt else 0;
        ghost var s := State();
        assert w[i..][0] == pos && w[i..][1..] == w[i + 1..];
        if sem[q].semcnt < req {
          if !sem[q].cntOrder {
            return;
          }
          WE.SkipPasses(s, q, w[i..]);
        } else {
          WE.GrantKeepsPassed(s, q, w[i..], pos);
          GrantTo(q, pos, req);
          if sem[q].semcnt <= 0 {
            return;
          }
        }
        i := i + 1;
      }
    }

    /* ---- timer.c ---- */

    method FirstDeadline() returns (first: Option<TaskId>)
      requires Valid()
      ensures first == if Timed(State()) == [] then None else Some(T.First(State()))
    {
      first := None;
      var q := heads.Get(TimerQ);
      for i := 0 to |q|
        invariant first == if i == 0 then None else Some(q[T.FirstAt(tcb[..], q[..i])])
      {
        var t := q[i];
        assert q[..i + 1][..i] == q[..i];
        if first.None? || tcb[t].delay < tcb[first.value].delay {
          first := Some(t);
        }
      }
      assert q[..|q|] == q;
    }

    /** The loop that takes the step off every entry of the timer queue; no count on it is less. */
    method TakeOff(step: nat)
      requires Valid() && Coherent(heads)
      requires forall t :: t in Timed(State()) ==> step <= tcb[t].delay
      modifies tcb
      ensures Valid() && State() == T.Elapse(old(State()), step)
    {
      var q := heads.Get(TimerQ);
      ghost var was := tcb[..];
      assert NoDup(q) && q == Timed(State());
      assert forall t :: t in q ==> step <= was[t].delay;
      for i := 0 to |q|
        invariant forall t: TaskId :: tcb[t] == if t in q[..i] then was[t].(delay := T.Minus(was[t].delay, step)) else was[t]
      {
        var t := q[i];
        assert t in q && t !in q[..i] && tcb[t] == was[t];
        tcb[t] := tcb[t].(delay := tcb[t].delay - step);
        assert forall u :: u in q[..i + 1] <==> u in q[..i] || u == t;
      }
      assert q[..|q|] == q;
      assert tcb[..] == T.Elapse(old(State()), step).tcb;
    }

    /** The edges from cmp up to the machine time, and the first edge still ahead. */
    method PassElapsedPeriods(cmp: nat) returns (periods: nat, ahead: nat)
      requires Valid()
      ensures periods == Pending(cmp, mtime) && ahead == cmp + periods * TICK_COUNTS
    {
      periods, ahead := 0, cmp;
      while mtime >= ahead
        invariant ahead == cmp + periods * TICK_COUNTS
        invariant periods + Pending(ahead, mtime) == Pending(cmp, mtime)
        decreases if mtime >= ahead then mtime - ahead + 1 else 0
      {
        ahead := ahead + TICK_COUNTS;
        periods := periods + 1;
      }
    }

    /** One round of the handler's loop: f is the first deadline, p the periods left. */
    method ExpireRound(f: TaskId, p: nat) returns (left: nat, reached: bool)
      requires Sound() && Timed(State()) != [] && f == T.First(State())
      modifies this, tcb, sem
      ensures Sound() && |Timed(State())| <= |Timed(old(State()))|
      ensures reached ==> |Timed(State())| < |Timed(old(State()))| && T.Expire(old(State()), p).1
                          && T.Expire(old(State()), p).0 == T.Expire(State(), left).0
      ensures !reached ==> T.Expire(old(State()), p).0 == State() && !T.Expire(old(State()), p).1
    {
      var ticks := tcb[f].delay;
      var step := if ticks < p then ticks else p;
      ghost var s := State();
      assert forall t :: t in Timed(s) ==> step <= tcb[t].delay by {
        forall t | t in Timed(s) ensures ticks <= tcb[t].delay { assert Timed(s)[Index(Timed(s), t)] == t; }
      }
      TakeOff(step);
      left := p - step;
      ghost var e := State();
      if ticks > step {
        T.ExpireStops(s, p, e);
        T.ElapsedTimed(s, step);
        reached := false;
      } else {
        assert step == ticks;
        ghost var c := Ops.CompleteWait(e, f, E_TMOUT);
        T.ExpireReaches(s, f, ticks, c, p, left);
        T.ExpireStep(s, step);
        CompleteWait(f, E_TMOUT);
        reached := true;
      }
    }

    /** The loop of the handler, up to its choice of the next task. */
    method ExpireWaits(periods: nat) returns (ended: bool)
      requires Sound()
      modifies this, tcb, sem
      ensures Valid() && State() == T.Expire(old(State()), periods).0 && ended == T.Expire(old(State()), periods).1
    {
      hide Core, T.Expire, T.First;
      ghost var goal, any := T.Expire(State(), periods).0, T.Expire(State(), periods).1;
      var left: nat := periods;
      ended := false;
      var first := FirstDeadline();
      var reached := true;
      while first.Some? && reached
        invariant Sound()
        invariant first == if Timed(State()) == [] then None else Some(T.First(State()))
        invariant reached ==> goal == T.Expire(State(), left).0 && any == (ended || T.Expire(State(), left).1)
        invariant !reached ==> goal == State() && any == ended
        decreases |Timed(State())|, reached
      {
        left, reached := ExpireRound(first.value, left);
        if reached {
          ended := true;
        }
        first := FirstDeadline();
      }
      if Timed(State()) == [] {
        T.ExpireNothing(State(), left);
      }
    }

    method TimerHandler()
      requires Sound()
      modifies this, tcb, sem
      ensures Valid() && State() == T.TimerHandler(old(State()))
    {
      var periods: nat, ahead: nat := PassElapsedPeriods(mtimecmp);
      if periods == 0 {
        return;
      }
      ghost var s := State();
      T.ElapsedCore(s, periods);
      mtimecmp := ahead;
      ghost var a := State();
      assert a == TR.Advanced(s);
      var ended := ExpireWaits(periods);
      ghost var e := State();
      TL.HandlerIs(s, a, periods, e, ended);
      if ended {
        ChooseNext();
      }
    }

    /** tkmc_schedule_timer for a wait of ms, given as ticks. */
    method ScheduleTimer(t: TaskId, ticks: nat, kind: Kind, ghost ms: nat)
      requires Valid() && ticks == MsToTicks(ms)
      modifies this, tcb
      ensures Valid() && State() == Dispatch(StartTimer(old(State()), t, ms, kind))
    {
      hide Pending, MsToTicks;
      ghost var goal := StartTimer(State(), t, ms, kind);
      var passed: nat, ahead: nat := PassElapsedPeriods(mtimecmp);
      tcb[t] := tcb[t].(tskstat := WAI, tskwait := kind, delay := ticks + passed, pc := InWait(kind));
      heads := heads.Del(t);
      heads := heads.AddTail(t, TimerQ);
      hist := hist.(task := hist.task[t := hist.task[t].(
        since := mtime, ms := ms, deadline := mtimecmp + (ticks + passed - 1) * TICK_COUNTS)]);
      assert tcb[..] == goal.tcb && heads == goal.heads && hist == goal.hist;
      hide StartTimer;
      ChooseAndDispatch();
    }

    /** The end of every wait call up to the switch: a timed wait, or one without a limit. */
    method BlockCaller(kind: Kind, tmo: int)
      requires Valid()
      modifies this, tcb
      ensures Valid() && State() == Block(old(State()), kind, tmo)
    {
      var t := current;
      if tmo > 0 {
        ScheduleTimer(t, MsToTicks(tmo), kind, tmo);
      } else {
        tcb[t] := tcb[t].(tskstat := WAI, tskwait := kind, delay := 0, pc := InWait(kind));
        heads := heads.Del(t);
        heads := heads.Init(t);
        ChooseAndDispatch();
      }
    }

    method DlyTsk(dlytm: nat, canBlock: bool) returns (r: Reply)
      requires Valid()
      modifies this, tcb
      ensures Valid() && (State(), r) == Ops.DlyTsk(old(State()), dlytm, canBlock)
    {
      if !canBlock {
        return Er(E_CTX);
      }
      if dlytm == 0 {
        YieldCpu();
        return Er(E_OK);
      }
      BlockCaller(DLY, dlytm);
      r := Blocks;
    }

    method SlpTsk(tmo: int, canBlock: bool) returns (r: Reply)
      requires Valid()
      modifies this, tcb
      ensures Valid() && (State(), r) == Ops.SlpTsk(old(State()), tmo, canBlock)
    {
      if tmo < TMO_FEVR {
        return Er(E_PAR);
      }
      if !canBlock {
        return Er(E_CTX);
      }
      if tcb[current].wupcnt > 0 {
        tcb[current] := tcb[current].(wupcnt := tcb[current].wupcnt - 1);
        hist := hist.(task := hist.task[current := hist.task[current].(used := hist.task[current].used + 1)]);
        return Er(E_OK);
      }
      if tmo == TMO_POL {
        return Er(E_TMOUT);
      }
      BlockCaller(SLP, tmo);
      r := Blocks;
    }

    /** The part of a wait call after the switch. */
    method ResumeCall() returns (r: Reply)
      requires Valid() && tcb[current].pc.InWait?
      modifies this, tcb
      ensures Valid() && (State(), r) == Resume(old(State()))
    {
      var t := current;
      var kind := tcb[t].pc.kind;
      var ercd := tcb[t].wupcause;
      r := Er(ercd);
      match kind {
        case DLY =>
          if ercd == E_TMOUT {
            r := Er(E_OK);
          }
        case FLG =>
          if ercd == E_OK && tcb[t].winfo.FlgInfo? {
            r := Pattern(tcb[t].winfo.flgptn);
          }
        case MBX =>
          if !waits.at[t].Detached? {
            waits := waits.Del(t);
            waits := waits.Init(t);
          }
          if ercd == E_OK && tcb[t].winfo.MbxInfo? && tcb[t].winfo.msg.Some? {
            r := Received(tcb[t].winfo.msg.value);
          }
          tcb[t] := tcb[t].(winfo := MbxInfo(None), delay := 0, tskwait := NoWait);
        case _ =>
      }
      tcb[t] := tcb[t].(wupcause := E_OK, pc := Outside);
      assert tcb[..] == Resume(old(State())).0.tcb;
    }

    /* ---- task.c: the calls ---- */

    method CreTsk(pk: Option<P.TaskPacket>) returns (r: Reply)
      requires Valid()
      modifies this, tcb
      ensures Valid() && (State(), r) == P.TkCreTsk(old(State()), pk)
    {
      if pk.None? {
        return Er(E_PAR);
      }
      var k := pk.value;
      var tskatr, task, bufptr, pri, stksz := k.tskatr, k.task, k.bufptr, k.itskpri, k.stksz;
      if tskatr - P.VALID_TSKATR != {} {
        return Er(E_RSATR);
      }
      if P.TA_USERBUF !in tskatr {
        return Er(E_RSATR);
      }
      if task == P.NULL || bufptr == P.NULL {
        return Er(E_PAR);
      }
      if pri < 1 || pri > CFN_MAX_PRI {
        return Er(E_PAR);
      }
      if stksz <= P.FRAME_SIZE {
        return Er(E_PAR);
      }
      if stksz > 0xFFFF_FFFF - bufptr || (bufptr + stksz) % P.STACK_ALIGN != 0 {
        return Er(E_PAR);
      }
      r := TakeTcb(pri);
    }

    /** The part of tk_cre_tsk with interrupts disabled: the first free control block is reset. */
    method TakeTcb(pri: Pri) returns (r: Reply)
      requires Valid()
      modifies this, tcb
      ensures Valid() && (State(), r) == Ops.CreTsk(old(State()), pri)
    {
      if heads.Get(FreeQ) == [] {
        return Er(E_LIMIT);
      }
      var t := heads.Get(FreeQ)[0];
      heads := heads.Del(t);
      heads := heads.Init(t);
      tcb[t] := Tcb(pri, DMT, NoWait, 0, E_OK, 0, NoInfo, Outside);
      waits := waits.Init(t);
      hist := hist.(task := hist.task[t := hist.task[t].(accepted := 0, used := 0)]);
      r := NewId((t as int) + 1);
    }

    method StaTsk(id: int) returns (r: Reply)
      requires Valid()
      modifies this, tcb
      ensures Valid() && (State(), r) == Ops.StaTsk(old(State()), id)
    {
      if !InRange(id, CFN_MAX_TSKID) {
        return Er(E_ID);
      }
      var t: TaskId := id - 1;
      if tcb[t].tskstat == NOEXS {
        return Er(E_NOEXS);
      }
      if tcb[t].tskstat != DMT {
        return Er(E_OBJ);
      }
      ghost var started := Started(State(), t);
      tcb[t] := tcb[t].(tskwait := NoWait, delay := 0, wupcnt := 0, wupcause := E_OK, winfo := NoInfo);
      waits := waits.Init(t);
      tcb[t] := tcb[t].(tskstat := RDY, pc := Outside);
      heads := heads.Init(t);
      heads := heads.AddTail(t, ReadyQ(tcb[t].itskpri));
      hist := hist.(task := hist.task[t := hist.task[t].(accepted := 0, used := 0)]);
      assert State() == started;
      hide Started;
      ChooseNext();
      r := Er(E_OK);
    }

    method YieldCpu()
      requires Valid()
      modifies this
      ensures Valid() && State() == Yield(old(State()))
    {
      heads := heads.Del(current);
      heads := heads.AddTail(current, ReadyQ(tcb[current].itskpri));
      ChooseNext();
    }

    method ExitTask()
      requires Valid()
      modifies this, tcb
      ensures Valid() && State() == ExtTsk(old(State()))
    {
      heads := heads.Del(current);
      tcb[current] := tcb[current].(tskstat := DMT, tskwait := NoWait);
      ChooseAndDispatch();
    }

    method ExitAndDeleteTask()
      requires Valid()
      modifies this, tcb
      ensures Valid() && State() == ExdTsk(old(State()))
    {
      heads := heads.Del(current);
      tcb[current] := tcb[current].(tskstat := NOEXS);
      heads := heads.AddTail(current, FreeQ);
      ChooseAndDispatch();
    }

    method RelWai(id: int) returns (r: Reply)
      requires Sound()
      modifies this, tcb, sem
      ensures Valid() && (State(), r) == Ops.RelWai(old(State()), id)
    {
      if !InRange(id, CFN_MAX_TSKID) {
        return Er(E_ID);
      }
      var t: TaskId := id - 1;
      if tcb[t].tskstat == NOEXS {
        return Er(E_NOEXS);
      } else if t == current || tcb[t].tskstat != WAI {
        return Er(E_OBJ);
      }
      CompleteWait(t, E_RLWAI);
      ChooseNext();
      r := Er(E_OK);
    }

    method CountWakeup(t: TaskId) returns (r: Reply)
      requires Valid()
      modifies this, tcb
      ensures Valid() && (State(), r) == QueueWakeup(old(State()), t)
    {
      if tcb[t].wupcnt < TK_WAKEUP_MAXCNT {
        tcb[t] := tcb[t].(wupcnt := tcb[t].wupcnt + 1);
        hist := hist.(task := hist.task[t := hist.task[t].(accepted := hist.task[t].accepted + 1)]);
        r := Er(E_OK);
      } else {
        r := Er(E_QOVR);
      }
    }

    method WakeSleeper(t: TaskId)
      requires Valid() && tcb[t].tskstat == WAI
      modifies this, tcb, sem
      ensures Valid() && State() == Resched(Woken(old(State()), t))
    {
      ghost var h := hist;
      CompleteWait(t, E_OK);
      hist := h.(task := h.task[t := h.task[t].(accepted := h.task[t].accepted + 1, used := h.task[t].used + 1)]);
      ChooseNext();
    }

    method WupTsk(id: int, inIsr: bool) returns (r: Reply)
      requires Valid()
      modifies this, tcb, sem
      ensures Valid() && (State(), r) == Ops.WupTsk(old(State()), id, inIsr)
    {
      if !InRange(id, CFN_MAX_TSKID) {
        return Er(E_ID);
      }
      hide Resched, Woken, QueueWakeup;
      var t: TaskId := id - 1;
      var tskstat := tcb[t].tskstat;
      if t == current && !inIsr {
        r := Er(E_OBJ);
      } else if tskstat == WAI {
        if tcb[t].tskwait == SLP {
          WakeSleeper(t);
          r := Er(E_OK);
        } else {
          r := CountWakeup(t);
        }
      } else if tskstat == RDY || tskstat == RUN {
        r := CountWakeup(t);
      } else if tskstat == NOEXS {
        r := Er(E_NOEXS);
      } else {
        r := Er(E_OBJ);
      }
    }

    /** Asked by the idle task it is true exactly when no other task is ready. The two links of the queue head are the
        first and the last entry, or both the head itself. */
    method IdleCanHalt() returns (r: bool)
      requires Valid() && Inv(State()) == true && current == IDLE
      ensures r <==> forall t: TaskId :: Runnable(State(), t) ==> t == IDLE
    {
      var h := GetHighestPriorityTask();
      var q := heads.Get(ReadyQ(CFN_MAX_PRI));
      r := h == Some(current) && (q == [] || q[0] == q[|q| - 1]);
      G.OneLink(State());
      G.IdleHaltsAlone(State());
    }

    /** The software interrupt: MSIP is cleared, and schedule() switches to the task chosen. */
    method SwitchTask()
      requires Valid()
      modifies this, tcb
      ensures Valid() && State() == Schedule(old(State()))
    {
      msip := false;
      if next.Some? {
        if tcb[current].tskstat == RUN {
          tcb[current] := tcb[current].(tskstat := RDY);
        }
        tcb[next.value] := tcb[next.value].(tskstat := RUN);
        current := next.value;
      }
    }

    /* ---- semaphore.c ---- */

    method CreSem(pk: Option<P.SemPacket>) returns (r: Reply)
      requires Valid()
      modifies this, sem
      ensures Valid() && (State(), r) == P.TkCreSem(old(State()), pk)
    {
      if pk.None? {
        return Er(E_PAR);
      }
      var sematr, isemcnt, maxsem := pk.value.sematr, pk.value.isemcnt, pk.value.maxsem;
      if sematr - P.VALID_SEMATR != {} {
        return Er(E_RSATR);
      }
      if maxsem < 1 || maxsem > TK_SEMAPHORE_MAXCNT || isemcnt < 0 || isemcnt > maxsem {
        return Er(E_PAR);
      }
      if freeSem == [] {
        return Er(E_LIMIT);
      }
      var q := freeSem[0];
      freeSem := freeSem[1..];
      waits := waits.Clear(SemQ(q));
      sem[q] := Semcb(true, P.TA_TPRI in sematr, P.TA_CNT in sematr, isemcnt, maxsem);
      hist := hist.(sem := hist.sem[q := SemHist(isemcnt, 0)]);
      r := NewId((q as int) + 1);
    }

    /** The insertion of tk_wai_sem: an empty queue is a case of its own, a scan stops before the first waiter of a
        lower priority. */
    method JoinSemQueue(t: TaskId, q: SemId, info: WInfo)
      requires Valid()
      modifies this, tcb
      ensures Valid() && State() == Join(old(State()), t, SemQ(q), info)
    {
      ghost var j := Join(State(), t, SemQ(q), info);
      var p := tcb[t].itskpri;
      var w := waits.Get(SemQ(q));
      tcb[t] := tcb[t].(winfo := info);
      waits := waits.Init(t);
      AddTailIsPut(waits, t, SemQ(q));
      if sem[q].tpri {
        if w == [] {
          waits := waits.AddTail(t, SemQ(q));
        } else {
          var inserted := false;
          var i := 0;
          while i < |w| && !inserted
            invariant 0 <= i <= |w| && (inserted ==> i < |w|)
            invariant PriPos(old(tcb[..]), w, p) == if inserted then i else i + PriPos(old(tcb[..]), w[i..], p)
            decreases |w| - i, !inserted
          {
            assert w[i..][0] == w[i] && w[i..][1..] == w[i + 1..];
            if p < tcb[w[i]].itskpri {
              inserted := true;
            } else {
              i := i + 1;
            }
          }
          if inserted {
            waits := waits.Put(t, SemQ(q), i);
          } else {
            assert w[i..] == [];
            waits := waits.AddTail(t, SemQ(q));
          }
        }
      } else {
        waits := waits.AddTail(t, SemQ(q));
      }
      hist := hist.(arrivals := hist.arrivals + 1, task := hist.task[t := hist.task[t].(ticket := hist.arrivals)]);
      assert tcb[..] == j.tcb && waits == j.waits && hist == j.hist;
    }

    method WaiSem(id: int, cnt: int, tmo: int, canBlock: bool) returns (r: Reply)
      requires Valid()
      modifies this, tcb, sem
      ensures Valid() && (State(), r) == Ops.WaiSem(old(State()), id, cnt, tmo, canBlock)
    {
      if !InRange(id, CFN_MAX_SEMID) {
        return Er(E_ID);
      }
      if cnt <= 0 || tmo < TMO_FEVR {
        return Er(E_PAR);
      }
      if !canBlock {
        return Er(E_CTX);
      }
      var q: SemId := id - 1;
      if !sem[q].live {
        return Er(E_NOEXS);
      }
      if cnt > sem[q].maxsem {
        return Er(E_PAR);
      }
      var mayTake := sem[q].semcnt >= cnt;
      if mayTake && waits.Get(SemQ(q)) != [] && !sem[q].cntOrder {
        var head := waits.Get(SemQ(q))[0];
        mayTake := sem[q].tpri && tcb[current].itskpri < tcb[head].itskpri;
      }
      assert mayTake == MayTake(State(), q, cnt);
      if mayTake {
        sem[q] := sem[q].(semcnt := sem[q].semcnt - cnt);
        hist := hist.(sem := hist.sem[q := hist.sem[q].(granted := hist.sem[q].granted + cnt)]);
        return Er(E_OK);
      }
      if tmo == TMO_POL {
        return Er(E_TMOUT);
      }
      JoinSemQueue(current, q, SemInfo(cnt, q));
      BlockCaller(SEM, tmo);
      r := Blocks;
    }

    method SigSem(id: int, cnt: int) returns (r: Reply)
      requires Sound()
      modifies this, tcb, sem
      ensures Valid() && (State(), r) == Ops.SigSem(old(State()), id, cnt)
    {
      if !InRange(id, CFN_MAX_SEMID) {
        return Er(E_ID);
      }
      if cnt <= 0 {
        return Er(E_PAR);
      }
      var q: SemId := id - 1;
      if !sem[q].live {
        return Er(E_NOEXS);
      }
      if cnt > sem[q].maxsem - sem[q].semcnt {
        return Er(E_QOVR);
      }
      ghost var s := State();
      sem[q] := sem[q].(semcnt := sem[q].semcnt + cnt);
      hist := hist.(sem := hist.sem[q := hist.sem[q].(given := hist.sem[q].given + cnt)]);
      SC.AddUnitsCore(s, q, cnt);
      assert State() == AddUnits(s, q, cnt);
      SemServeWaiters(q);
      ChooseNext();
      r := Er(E_OK);
    }

    method DelSem(id: int) returns (r: Reply)
      requires Sound()
      modifies this, tcb, sem
      ensures Valid() && (State(), r) == Ops.DelSem(old(State()), id)
    {
      if !InRange(id, CFN_MAX_SEMID) {
        return Er(E_ID);
      }
      var q: SemId := id - 1;
      if !sem[q].live {
        return Er(E_NOEXS);
      }
      var released := ReleaseWaiters(SemQ(q));
      sem[q] := NO_SEM;
      freeSem := freeSem + [q];
      if released {
        ChooseNext();
      }
      r := Er(E_OK);
    }

    /** The loop of tk_del_sem: the head of the queue is released until there is none. */
    method ReleaseWaiters(w: WQ) returns (released: bool)
      requires Sound()
      modifies this, tcb, sem
      ensures Valid() && State() == ReleaseAll(old(State()), Waiters(old(State()), w))
      ensures released == (Waiters(old(State()), w) != [])
    {
      ghost var goal := ReleaseAll(State(), Waiters(State(), w));
      released := false;
      while waits.Get(w) != []
        invariant Sound() && goal == ReleaseAll(State(), Waiters(State(), w))
        invariant released || Waiters(State(), w) == Waiters(old(State()), w)
        invariant released ==> Waiters(old(State()), w) != []
        decreases |Waiters(State(), w)|
      {
        hide Core, Ops.CompleteWait, Release;
        ghost var s := State();
        WE.HeadReleased(s, w, waits.Get(w)[0]);
        CompleteWait(waits.Get(w)[0], E_DLT);
        released := true;
      }
    }

    /* ---- event_flag.c ---- */

    method CreFlg(pk: Option<P.FlgPacket>) returns (r: Reply)
      requires Valid()
      modifies this, flg
      ensures Valid() && (State(), r) == P.TkCreFlg(old(State()), pk)
    {
      if pk.None? {
        return Er(E_PAR);
      }
      var flgatr, iflgptn := pk.value.flgatr, pk.value.iflgptn;
      if flgatr - P.VALID_FLGATR != {} {
        return Er(E_RSATR);
      }
      if freeFlg == [] {
        return Er(E_LIMIT);
      }
      var f := freeFlg[0];
      freeFlg := freeFlg[1..];
      waits := waits.Clear(FlgQ(f));
      flg[f] := Flgcb(true, P.TA_TPRI in flgatr, P.TA_WMUL in flgatr, iflgptn);
      r := NewId((f as int) + 1);
    }

    /** The insertion of tk_wai_flg, with a plain traversal. */
    method JoinFlgQueue(t: TaskId, f: FlgId, info: WInfo)
      requires Valid()
      modifies this, tcb
      ensures Valid() && State() == Join(old(State()), t, FlgQ(f), info)
    {
      ghost var j := Join(State(), t, FlgQ(f), info);
      ghost var place := JoinPos(State(), t, FlgQ(f));
      assert j.waits == waits.Init(t).Put(t, FlgQ(f), place);
      var p := tcb[t].itskpri;
      var w := waits.Get(FlgQ(f));
      tcb[t] := tcb[t].(winfo := info);
      waits := waits.Init(t);
      AddTailIsPut(waits, t, FlgQ(f));
      if flg[f].tpri && w != [] {
        var i := 0;
        while i < |w| && p >= tcb[w[i]].itskpri
          invariant 0 <= i <= |w|
          invariant place == i + PriPos(old(tcb[..]), w[i..], p)
        {
          assert w[i..][0] == w[i] && w[i..][1..] == w[i + 1..];
          i := i + 1;
        }
        if i < |w| {
          assert w[i..][0] == w[i] && place == i;
          waits := waits.Put(t, FlgQ(f), i);
        } else {
          assert w[i..] == [];
          waits := waits.AddTail(t, FlgQ(f));
        }
      } else {
        waits := waits.AddTail(t, FlgQ(f));
      }
      hist := hist.(arrivals := hist.arrivals + 1, task := hist.task[t := hist.task[t].(ticket := hist.arrivals)]);
      assert tcb[..] == j.tcb && waits == j.waits && hist == j.hist;
    }

    method WaiFlg(id: int, waiptn: Ptn, mode: Ptn, out: bool, tmo: int, canBlock: bool) returns (r: Reply)
      requires Valid()
      modifies this, tcb, flg
      ensures Valid() && (State(), r) == P.TkWaiFlg(old(State()), id, waiptn, mode, out, tmo, canBlock)
    {
      if !InRange(id, CFN_MAX_FLGID) {
        return Er(E_ID);
      }
      if !out || waiptn == {} {
        return Er(E_PAR);
      }
      if mode - P.VALID_WFMODE != {} {
        return Er(E_PAR);
      }
      if tmo < TMO_FEVR {
        return Er(E_PAR);
      }
      var wfmode := P.ModeOf(mode);
      if !canBlock {
        return Er(E_CTX);
      }
      var f: FlgId := id - 1;
      if !flg[f].live {
        return Er(E_NOEXS);
      }
      if !flg[f].wmul && waits.Get(FlgQ(f)) != [] {
        return Er(E_OBJ);
      }
      var flgptn := flg[f].flgptn;
      if Match(flgptn, waiptn, wfmode) {
        if wfmode.clr {
          flg[f] := flg[f].(flgptn := {});
        } else if wfmode.bitclr {
          flg[f] := flg[f].(flgptn := flg[f].flgptn - waiptn);
        }
        assert flg[..] == old(flg[..])[f := old(flg[f]).(flgptn := Consume(flgptn, waiptn, wfmode))];
        return Pattern(flgptn);
      }
      if tmo == TMO_POL {
        return Er(E_TMOUT);
      }
      JoinFlgQueue(current, f, FlgInfo(waiptn, wfmode, {}));
      BlockCaller(FLG, tmo);
      r := Blocks;
    }

    /** A satisfied waiter of tk_set_flg. */
    method DeliverTo(f: FlgId, t: TaskId)
      requires Valid() && tcb[t].winfo.FlgInfo? && tcb[t].tskstat == WAI
      modifies this, tcb, sem, flg
      ensures Valid() && State() == Deliver(old(State()), f, t)
    {
      var i := tcb[t].winfo;
      tcb[t] := tcb[t].(winfo := i.(flgptn := flg[f].flgptn));
      if i.wfmode.clr {
        flg[f] := flg[f].(flgptn := {});
      } else if i.wfmode.bitclr {
        flg[f] := flg[f].(flgptn := flg[f].flgptn - i.waiptn);
      }
      assert flg[..] == old(flg[..])[f := old(flg[f]).(flgptn := Consume(old(flg[f]).flgptn, i.waiptn, i.wfmode))];
      CompleteWait(t, E_OK);
    }

    method SetFlg(id: int, setptn: Ptn) returns (r: Reply)
      requires Sound()
      modifies this, tcb, sem, flg
      ensures Valid() && (State(), r) == Ops.SetFlg(old(State()), id, setptn)
    {
      if !InRange(id, CFN_MAX_FLGID) {
        return Er(E_ID);
      }
      var f: FlgId := id - 1;
      if !flg[f].live {
        return Er(E_NOEXS);
      }
      ghost var s := State();
      flg[f] := flg[f].(flgptn := flg[f].flgptn + setptn);
      EF.SetUnvisited(s, f, flg[f], State());
      var w := waits.Get(FlgQ(f));
      if w != [] {
        WalkFlg(f, w);
        ChooseNext();
      }
      r := Er(E_OK);
    }

    method WalkFlg(f: FlgId, w: seq<TaskId>)
      requires Sound() && EF.Unvisited(State(), f, w) == true
      modifies this, tcb, sem, flg
      ensures Valid() && State() == SetFrom(old(State()), f, w)
    {
      ghost var goal := SetFrom(State(), f, w);
      assert w[0..] == w;
      for i := 0 to |w|
        invariant Sound() && SetFrom(State(), f, w[i..]) == goal && EF.Unvisited(State(), f, w[i..]) == true
      {
        var t := w[i];
        ghost var s := State();
        assert w[i..][0] == t && w[i..][1..] == w[i + 1..];
        EF.VisitOne(s, f, w[i..], t);
        if tcb[t].winfo.FlgInfo? && Match(flg[f].flgptn, tcb[t].winfo.waiptn, tcb[t].winfo.wfmode) {
          DeliverTo(f, t);
        }
      }
    }

    method ClrFlg(id: int, clrptn: Ptn) returns (r: Reply)
      requires Valid()
      modifies flg
      ensures Valid() && (State(), r) == Ops.ClrFlg(old(State()), id, clrptn)
    {
      if !InRange(id, CFN_MAX_FLGID) {
        return Er(E_ID);
      }
      var f: FlgId := id - 1;
      if !flg[f].live {
        return Er(E_NOEXS);
      }
      flg[f] := flg[f].(flgptn := flg[f].flgptn * clrptn);
      r := Er(E_OK);
    }

    /* ---- mailbox.c ---- */

    /** insert_msg_pri: a message that is not ahead of the last one goes at the tail, any other is placed by a scan
        from the head. */
    method InsertMsgPri(m: MbxId, msg: Msg)
      requires Valid() && MsgOrdered(mbx[m].msgs)
      modifies mbx
      ensures Valid()
      ensures mbx[..] == old(mbx[..])[m := old(mbx[m]).(msgs := M.Insert(old(mbx[m]).msgs, msg))]
    {
      var q := mbx[m].msgs;
      M.MsgPosIs(q, msg.msgpri);
      if q != [] && msg.msgpri >= q[|q| - 1].msgpri {
        assert M.Insert(q, msg) == q + [msg];
        mbx[m] := mbx[m].(msgs := q + [msg]);
        return;
      }
      var pos := 0;
      while pos < |q| && msg.msgpri >= q[pos].msgpri
        invariant 0 <= pos <= |q| && MsgPos(q, msg.msgpri) == pos + MsgPos(q[pos..], msg.msgpri)
      {
        assert q[pos..][0] == q[pos] && q[pos..][1..] == q[pos + 1..];
        pos := pos + 1;
      }
      assert MsgPos(q[pos..], msg.msgpri) == 0 by { if pos < |q| { assert q[pos..][0] == q[pos]; } }
      mbx[m] := mbx[m].(msgs := InsertAt(q, pos, msg));
    }

    /** insert_waiter: a scan with a cursor, which falls through to the tail. */
    method JoinMbxQueue(t: TaskId, m: MbxId, info: WInfo)
      requires Valid()
      modifies this, tcb
      ensures Valid() && State() == Join(old(State()), t, MbxQ(m), info)
    {
      ghost var j := Join(State(), t, MbxQ(m), info);
      ghost var place := JoinPos(State(), t, MbxQ(m));
      assert j.waits == waits.Init(t).Put(t, MbxQ(m), place);
      var p := tcb[t].itskpri;
      var w := waits.Get(MbxQ(m));
      tcb[t] := tcb[t].(winfo := info);
      waits := waits.Init(t);
      AddTailIsPut(waits, t, MbxQ(m));
      hist := hist.(arrivals := hist.arrivals + 1, task := hist.task[t := hist.task[t].(ticket := hist.arrivals)]);
      if mbx[m].tpri {
        var pos := 0;
        while pos < |w|
          invariant 0 <= pos <= |w| && Valid()
          invariant place == pos + PriPos(old(tcb[..]), w[pos..], p)
        {
          assert w[pos..][0] == w[pos] && w[pos..][1..] == w[pos + 1..];
          if p < tcb[w[pos]].itskpri {
            waits := waits.Put(t, MbxQ(m), pos);
            assert tcb[..] == j.tcb && waits == j.waits && hist == j.hist;
            return;
          }
          pos := pos + 1;
        }
        assert w[pos..] == [];
      }
      waits := waits.AddTail(t, MbxQ(m));
      assert tcb[..] == j.tcb && waits == j.waits && hist == j.hist;
    }

    /** pop_waiting_receiver: entries that no longer wait for a mailbox would be dropped. */
    method PopWaitingReceiver(m: MbxId) returns (r: Option<TaskId>)
      requires Valid() && Coherent(waits)
      modifies this`waits
      ensures Valid() && (State(), r) == PopFrom(old(State()), Waiters(old(State()), MbxQ(m)))
      ensures r.Some? ==> tcb[r.value].tskstat == WAI
    {
      ghost var goal := PopFrom(State(), Waiters(State(), MbxQ(m)));
      while waits.Get(MbxQ(m)) != []
        invariant Valid() && Coherent(waits)
        invariant goal == PopFrom(State(), Waiters(State(), MbxQ(m)))
        decreases |waits.Get(MbxQ(m))|
      {
        var w := waits.Get(MbxQ(m));
        var t := w[0];
        assert t in w && NoDup(waits.Get(MbxQ(m)));
        DelCoherent(waits, t);
        InitCoherent(waits.Del(t), t);
        WE.WithoutHead(w, t, true);
        waits := waits.Del(t);
        waits := waits.Init(t);
        if tcb[t].tskstat == WAI && tcb[t].tskwait == MBX {
          return Some(t);
        }
      }
      r := None;
    }

    method MakeWaiterReady(t: TaskId, cause: ER, msg: Option<Msg>)
      requires Valid() && tcb[t].tskstat == WAI && cause in {E_OK, E_DLT}
      modifies this, tcb, sem
      ensures Valid() && State() == MakeReady(old(State()), t, cause, msg)
    {
      tcb[t] := tcb[t].(winfo := MbxInfo(msg));
      CompleteWait(t, cause);
    }

    method CreMbx(pk: Option<P.MbxPacket>) returns (r: Reply)
      requires Valid()
      modifies this, mbx
      ensures Valid() && (State(), r) == P.TkCreMbx(old(State()), pk)
    {
      if pk.None? {
        return Er(E_PAR);
      }
      var mbxatr := pk.value.mbxatr;
      if mbxatr - P.VALID_MBXATR != {} {
        return Er(E_RSATR);
      }
      if freeMbx == [] {
        return Er(E_LIMIT);
      }
      var m := freeMbx[0];
      freeMbx := freeMbx[1..];
      waits := waits.Clear(MbxQ(m));
      mbx[m] := Mbxcb(true, P.TA_TPRI in mbxatr, P.TA_MPRI in mbxatr, []);
      hist := hist.(mbx := hist.mbx[m := MbxHist([], [])]);
      r := NewId((m as int) + 1);
    }

    method SndMbx(id: int, pk: Option<Msg>) returns (r: Reply)
      requires Valid() && Coherent(waits)
      requires forall m: MbxId :: mbx[m].live && mbx[m].mpri ==> MsgOrdered(mbx[m].msgs)
      modifies this, tcb, sem, mbx
      ensures Valid() && (State(), r) == P.TkSndMbx(old(State()), id, pk)
    {
      if !InRange(id, CFN_MAX_MBXID) {
        return Er(E_ID);
      }
      if pk.None? {
        return Er(E_PAR);
      }
      var msg := pk.value;
      var m: MbxId := id - 1;
      if !mbx[m].live {
        return Er(E_NOEXS);
      }
      if mbx[m].mpri && msg.msgpri <= 0 {
        return Er(E_PAR);
      }
      ghost var h := hist;
      var t := PopWaitingReceiver(m);
      if t.Some? {
        MakeWaiterReady(t.value, E_OK, Some(msg));
        hist := HandedOver(Sent(h, m, msg), m, msg, t.value);
        ChooseNext();
      } else {
        if mbx[m].mpri {
          InsertMsgPri(m, msg);
        } else {
          assert InsertAt(mbx[m].msgs, |mbx[m].msgs|, msg) == mbx[m].msgs + [msg];
          mbx[m] := mbx[m].(msgs := mbx[m].msgs + [msg]);
        }
        hist := Sent(h, m, msg);
      }
      r := Er(E_OK);
    }

    method RcvMbx(id: int, out: bool, tmo: int, canBlock: bool) returns (r: Reply)
      requires Valid()
      modifies this, tcb, mbx
      ensures Valid() && (State(), r) == P.TkRcvMbx(old(State()), id, out, tmo, canBlock)
    {
      if !InRange(id, CFN_MAX_MBXID) {
        return Er(E_ID);
      }
      if !out || tmo < TMO_FEVR {
        return Er(E_PAR);
      }
      if !canBlock {
        return Er(E_CTX);
      }
      var m: MbxId := id - 1;
      if !mbx[m].live {
        return Er(E_NOEXS);
      }
      if mbx[m].msgs != [] {
        var msg := mbx[m].msgs[0];
        mbx[m] := mbx[m].(msgs := mbx[m].msgs[1..]);
        hist := HandedOver(hist, m, msg, current);
        return Received(msg);
      }
      if tmo == TMO_POL {
        return Er(E_TMOUT);
      }
      JoinMbxQueue(current, m, MbxInfo(None));
      BlockCaller(MBX, tmo);
      r := Blocks;
    }

    /** The loop of tk_del_mbx: receivers are popped and released until there is none. */
    method DropReceivers(m: MbxId)
      requires Sound()
      modifies this, tcb, sem
      ensures Valid() && State() == DropFrom(old(State()), Waiters(old(State()), MbxQ(m)))
    {
      ghost var goal := DropFrom(State(), Waiters(State(), MbxQ(m)));
      var more := true;
      while more
        invariant Sound() && goal == DropFrom(State(), Waiters(State(), MbxQ(m)))
        invariant !more ==> Waiters(State(), MbxQ(m)) == []
        decreases |Waiters(State(), MbxQ(m))|, more
      {
        ghost var s := State();
        MC.PopTakesFirst(s, m);
        var t := PopWaitingReceiver(m);
        if t.Some? {
          MC.DropStep(s, m);
          MakeWaiterReady(t.value, E_DLT, None);
        } else {
          more := false;
        }
      }
    }

    method DelMbx(id: int) returns (r: Reply)
      requires Sound()
      modifies this, tcb, sem, mbx
      ensures Valid() && (State(), r) == Ops.DelMbx(old(State()), id)
    {
      if !InRange(id, CFN_MAX_MBXID) {
        return Er(E_ID);
      }
      var m: MbxId := id - 1;
      if !mbx[m].live {
        return Er(E_NOEXS);
      }
      DropReceivers(m);
      mbx[m] := NO_MBX;
      waits := waits.Clear(MbxQ(m));
      freeMbx := freeMbx + [m];
      ChooseNext();
      r := Er(E_OK);
    }
  }
}
