/** What single calls answer and do, told without the steps they take: exactly when a call succeeds, and what its
    caller, the tasks it is about and the object can rely on. */
module CallResults {
  import opened Types
  import opened Rings
  import opened KernelState
  import opened KernelOps
  import opened Frames
  import opened WaitEnd
  import opened TaskCalls
  import opened MbxCalls

  /* ---- tasks ---- */

  /** tk_rel_wai succeeds exactly on another task that waits; then that task is ready with E_RLWAI, and a refused call
      changes nothing. */
  lemma ForcedRelease(s: KState, id: int)
    requires Inv(s)
    ensures var (r, y) := RelWai(s, id);
            && (y == Er(E_OK) <==> InRange(id, CFN_MAX_TSKID) && id - 1 != s.current && Waiting(s, id - 1))
            && (if y == Er(E_OK) then r.tcb[id - 1].tskstat == RDY && r.tcb[id - 1].wupcause == E_RLWAI else r == s)
  {
    hide Inv, Core, LinksOk, AllSettled, CompleteWait, HighestFrom;
    InvGives(s);
    if RelWai(s, id).1 == Er(E_OK) { CompleteWaitKeeps(s, id - 1, E_RLWAI); }
  }

  /** tk_wup_tsk refuses exactly a bad ID, a task that does not exist or is dormant, the caller itself, and a request
      beyond the limit; then nothing changes. */
  lemma WakeUpAccepted(s: KState, id: int, inIsr: bool)
    requires Inv(s)
    ensures var (r, y) := WupTsk(s, id, inIsr);
            && (y == Er(E_OK) <==>
                  InRange(id, CFN_MAX_TSKID) && (id - 1 != s.current || inIsr) && (Waiting(s, id - 1) || Runnable(s, id - 1))
                  && (Asleep(s, id - 1) || s.tcb[id - 1].wupcnt < TK_WAKEUP_MAXCNT))
            && (y != Er(E_OK) ==> r == s)
  {
  }

  /** One that is accepted ends a sleep without queuing a request, or queues one. */
  lemma WakeUpResult(s: KState, id: int, inIsr: bool)
    requires Inv(s) && WupTsk(s, id, inIsr).1 == Er(E_OK)
    ensures var r := WupTsk(s, id, inIsr).0;
            var t: TaskId := id - 1;
            if Asleep(s, t) then r.tcb[t].tskstat == RDY && r.tcb[t].wupcause == E_OK && r.tcb[t].wupcnt == 0
            else r.tcb == s.tcb[t := s.tcb[t].(wupcnt := s.tcb[t].wupcnt + 1)]
  {
    hide Inv, Woken, Resched;
    if Asleep(s, id - 1) { SleeperWoken(s, id - 1); }
  }

  predicate Asleep(s: KState, t: TaskId) {
    Waiting(s, t) && s.tcb[t].tskwait == SLP
  }

  lemma SleeperWoken(s: KState, t: TaskId)
    requires Inv(s) && Asleep(s, t)
    ensures var r := Resched(Woken(s, t)); r.tcb[t].tskstat == RDY && r.tcb[t].wupcause == E_OK && r.tcb[t].wupcnt == 0
  {
    hide Inv, Core, LinksOk, CompleteWait;
    InvGives(s);
    InvGivesTask(s, t);
    var c := CompleteWait(s, t, E_OK);
    CompleteWaitKeeps(s, t, E_OK);
    assert SameOrEnded(s, c, t);
  }

  /** A yield puts the caller behind all its peers and changes no other queue. */
  lemma YieldGoesLast(s: KState, p: Pri)
    requires Inv(s) && TaskContext(s)
    ensures var r := Yield(s);
            ReadyAt(r, p) == if p == s.tcb[s.current].itskpri then Without(ReadyAt(s, p), s.current) + [s.current] else ReadyAt(s, p)
    ensures Yield(s).tcb == s.tcb && Timed(Yield(s)) == Timed(s)
  {
    assert TaskOk(s, s.current);
    RotatedQueues(s, p);
    assert Yield(s).heads == Rotated(s).heads;
  }

  lemma RotatedQueues(s: KState, p: Pri)
    requires Coherent(s.heads) && s.heads.at[s.current] == On(ReadyQ(s.tcb[s.current].itskpri))
    ensures ReadyAt(Rotated(s), p)
         == if p == s.tcb[s.current].itskpri then Without(ReadyAt(s, p), s.current) + [s.current] else ReadyAt(s, p)
    ensures Timed(Rotated(s)) == Timed(s)
  {
    MoveHeads(s.heads, s.current, ReadyQ(s.tcb[s.current].itskpri));
  }

  /** A started task is ready behind its peers, with no request of an earlier run left to use up. */
  lemma StartGoesLast(s: KState, id: int)
    requires Inv(s)
    ensures var (r, y) := StaTsk(s, id);
            && (y == Er(E_OK) <==> InRange(id, CFN_MAX_TSKID) && s.tcb[id - 1].tskstat == DMT)
            && (y != Er(E_OK) ==> r == s)
            && (y == Er(E_OK) ==>
                  && r.tcb[id - 1].tskstat == RDY && r.tcb[id - 1].wupcnt == 0 && r.tcb[id - 1].pc == Outside
                  && ReadyAt(r, s.tcb[id - 1].itskpri) == ReadyAt(s, s.tcb[id - 1].itskpri) + [id - 1])
  {
    if StaTsk(s, id).1 == Er(E_OK) {
      var t: TaskId := id - 1;
      assert TaskOk(s, t);
      StartHeads(s.heads, t, s.tcb[t].itskpri);
    }
  }

  /** A delay of nothing is a yield. */
  lemma NoDelayIsYield(s: KState)
    ensures DlyTsk(s, 0, true) == (Yield(s), Er(E_OK))
  {
    hide Yield;
  }

  /** A task that exits is dormant, one that exits and is deleted exists no more and its control block is the last of the
      free list; either is off its ready queue, and every other task and queue is as it was. */
  lemma ExitLeaves(s: KState, p: Pri)
    requires Inv(s) && TaskContext(s)
    ensures var t := s.current;
            var e, d := ExtTsk(s), ExdTsk(s);
            && e.tcb[t].tskstat == DMT && d.tcb[t].tskstat == NOEXS
            && (forall u: TaskId :: u != t ==> e.tcb[u] == s.tcb[u] == d.tcb[u])
            && ReadyAt(e, p) == Without(ReadyAt(s, p), t) == ReadyAt(d, p) && Timed(e) == Timed(s) == Timed(d)
            && e.heads.Get(FreeQ) == s.heads.Get(FreeQ) && d.heads.Get(FreeQ) == s.heads.Get(FreeQ) + [t]
            && e.waits == s.waits == d.waits
  {
    hide Inv, Core, LinksOk, AllSettled, HighestFrom;
    InvGives(s);
    CoreGives(s);
    assert s.heads.at[s.current] == On(ReadyQ(s.tcb[s.current].itskpri)) by { assert TaskOk(s, s.current); }
    hide TaskOk, HistOk, ObjectsOk, FreeOk, Coherent;
    DelCoherent(s.heads, s.current);
    MoveHeads(s.heads, s.current, FreeQ);
    if p != s.tcb[s.current].itskpri { NotThere(s, p); }
  }

  lemma NotThere(s: KState, p: Pri)
    requires Coherent(s.heads) && s.heads.at[s.current] == On(ReadyQ(s.tcb[s.current].itskpri)) && p != s.tcb[s.current].itskpri
    ensures Without(ReadyAt(s, p), s.current) == ReadyAt(s, p)
  {
    WithoutAbsent(ReadyAt(s, p), s.current);
  }

  /** The rest of a wait call: the task has returned from it, with its state and place as they were, and nothing else has
      changed. */
  lemma ResumeReturns(s: KState)
    requires Inv(s) && s.tcb[s.current].tskstat == RUN && s.tcb[s.current].pc.InWait?
    ensures var t := s.current;
            var r := Resume(s).0;
            && r == s.(tcb := s.tcb[t := r.tcb[t]]) && r.tcb[t].pc == Outside && r.tcb[t].wupcause == E_OK
            && r.tcb[t].tskstat == RUN && r.tcb[t].wupcnt == s.tcb[t].wupcnt
  {
    hide Inv;
    InvGivesTask(s, s.current);
  }

  /* ---- semaphores ---- */

  /** A valid request is granted at once exactly when there are enough units and no waiter comes first: under TA_FIRST
      the caller has to outrank all of them, on a queue in the order of priorities. Else it polls in vain, or blocks. */
  lemma GrantedAtOnce(s: KState, id: int, cnt: int, tmo: int)
    requires Inv(s) && InRange(id, CFN_MAX_SEMID) && s.sem[id - 1].live && 0 < cnt <= s.sem[id - 1].maxsem && tmo >= TMO_FEVR
    ensures var q: SemId := id - 1;
            var y := WaiSem(s, id, cnt, tmo, true).1;
            && (y == Er(E_OK) <==>
                  && s.sem[q].semcnt >= cnt
                  && forall u :: u in Waiters(s, SemQ(q)) ==>
                       s.sem[q].cntOrder || (s.sem[q].tpri && s.tcb[s.current].itskpri < s.tcb[u].itskpri))
            && (y != Er(E_OK) ==> y == if tmo == TMO_POL then Er(E_TMOUT) else Blocks)
  {
    var q: SemId := id - 1;
    var w := Waiters(s, SemQ(q));
    assert QueueOk(s, SemQ(q));
    if MayTake(s, q, cnt) {
      forall u | u in w ensures s.sem[q].cntOrder || (s.sem[q].tpri && s.tcb[s.current].itskpri < s.tcb[u].itskpri) {
        var i := Index(w, u);
        if i > 0 { assert Before(s, s.sem[q].tpri, w[0], w[i]); }
      }
    } else if w != [] {
      assert w[0] in w;
    }
  }

  /* ---- event flags ---- */

  /** The wait condition, bit by bit. */
  lemma MatchBits(p: Ptn, waiptn: Ptn, wfmode: Mode)
    ensures Match(p, waiptn, wfmode) <==>
              if wfmode.orw then exists b :: b in waiptn && b in p else forall b :: b in waiptn ==> b in p
  {
    if wfmode.orw {
      if b :| b in waiptn && b in p { assert b in p * waiptn; }
      if b :| b in p * waiptn { assert b in waiptn && b in p; }
    } else {
      forall b | Match(p, waiptn, wfmode) && b in waiptn ensures b in p { assert b in p * waiptn; }
    }
  }

  /** A wait on a flag that is free to the caller ends at once exactly when the pattern satisfies it. It reports the
      pattern as it was, and the bits that go are all (TWF_CLR), those waited for (TWF_BITCLR) or none. */
  lemma FlagAtOnce(s: KState, id: int, waiptn: Ptn, wfmode: Mode, tmo: int)
    requires InRange(id, CFN_MAX_FLGID) && s.flg[id - 1].live && waiptn != {} && tmo >= TMO_FEVR
    requires s.flg[id - 1].wmul || Waiters(s, FlgQ(id - 1)) == []
    ensures var f: FlgId := id - 1;
            var p := s.flg[f].flgptn;
            var (r, y) := WaiFlg(s, id, waiptn, wfmode, tmo, true);
            if (if wfmode.orw then exists b :: b in waiptn && b in p else forall b :: b in waiptn ==> b in p) then
              && y == Pattern(p) && r == s.(flg := r.flg) && (forall g: FlgId :: g != f ==> r.flg[g] == s.flg[g])
              && forall b: Bit :: b in r.flg[f].flgptn <==> b in p && !wfmode.clr && !(wfmode.bitclr && b in waiptn)
            else y == if tmo == TMO_POL then Er(E_TMOUT) else Blocks
  {
    MatchBits(s.flg[id - 1].flgptn, waiptn, wfmode);
  }

  /** tk_clr_flg keeps exactly the bits of the pattern that are in clrptn, and releases nobody. */
  lemma ClearKeepsBits(s: KState, id: int, clrptn: Ptn)
    requires ClrFlg(s, id, clrptn).1 == Er(E_OK)
    ensures InRange(id, CFN_MAX_FLGID)
    ensures var f: FlgId := id - 1;
            var r := ClrFlg(s, id, clrptn).0;
            && r == s.(flg := s.flg[f := s.flg[f].(flgptn := r.flg[f].flgptn)])
            && forall b: Bit :: b in r.flg[f].flgptn <==> b in s.flg[f].flgptn && b in clrptn
  {
  }

  /* ---- mailboxes ---- */

  /** A message that is there is received at once: the first, which none of a higher priority waits behind; the
      others stay. */
  lemma ReceiveTakesFirst(s: KState, id: int, tmo: int)
    requires Inv(s) && InRange(id, CFN_MAX_MBXID) && s.mbx[id - 1].live && tmo >= TMO_FEVR
    ensures var m: MbxId := id - 1;
            var q := s.mbx[m].msgs;
            var (r, y) := RcvMbx(s, id, tmo, true);
            if q == [] then y == if tmo == TMO_POL then Er(E_TMOUT) else Blocks
            else
              && y.Received? && q == [y.msg] + r.mbx[m].msgs
              && r == s.(mbx := s.mbx[m := s.mbx[m].(msgs := r.mbx[m].msgs)], hist := r.hist)
              && (s.mbx[m].mpri ==> forall x :: x in q ==> y.msg.msgpri <= x.msgpri)
  {
    var m: MbxId := id - 1;
    var q := s.mbx[m].msgs;
    assert MbxOk(s, m);
    if q != [] && s.mbx[m].mpri {
      forall x | x in q ensures q[0].msgpri <= x.msgpri {
        var i :| 0 <= i < |q| && q[i] == x;
      }
    }
  }

  /** Deleting a mailbox releases everybody who waits for it, all of them with E_DLT, and no other task; its messages are
      not handed to anybody. */
  lemma DeleteMbxReleasesAll(s: KState, id: int)
    requires Inv(s) && DelMbx(s, id).1 == Er(E_OK)
    ensures var m: MbxId := id - 1;
            var r := DelMbx(s, id).0;
            && (forall t :: t in Waiters(s, MbxQ(m)) ==> r.tcb[t].tskstat == RDY && r.tcb[t].wupcause == E_DLT)
            && (forall t: TaskId :: t !in Waiters(s, MbxQ(m)) ==> r.tcb[t] == s.tcb[t])
            && r.mbx == s.mbx[m := NO_MBX] && r.freeMbx == s.freeMbx + [m] && r.hist == s.hist
  {
    var m: MbxId := id - 1;
    DropIsRelease(s, m, Waiters(s, MbxQ(m)));
    ReleaseAllKeeps(s, MbxQ(m), Waiters(s, MbxQ(m)));
  }
}
