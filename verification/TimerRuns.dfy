/** What a run of the timer handler does to every task, and over time. */
module TimerRuns {
  import opened Types
  import opened Rings
  import opened KernelState
  import opened KernelOps
  import opened Frames
  import opened WaitEnd
  import opened WaitStart
  import opened Timer
  import opened Scheduling

  predicate OnTimer(s: KState, t: TaskId) {
    s.heads.at[t] == On(TimerQ)
  }

  /** A task after p ticks of one handler run: its limit is p ticks nearer and still ahead, or its wait is over,
      by its time limit only if the ticks reached it; or it had no limit, and it is as it was or was handed what
      it waited for. */
  predicate TaskAfter(s: KState, e: KState, t: TaskId, p: nat) {
    if OnTimer(e, t) then
      && OnTimer(s, t) && s.tcb[t].delay > p && e.tcb[t] == s.tcb[t].(delay := s.tcb[t].delay - p)
      && e.waits.at[t] == s.waits.at[t]
    else
      && SameOrEnded(s, e, t)
      && (e.tcb[t].wupcause == E_TMOUT && e.tcb[t] != s.tcb[t] ==> OnTimer(s, t) && s.tcb[t].delay <= p)
      && (OnTimer(s, t) ==> e.tcb[t].tskstat == RDY && e.tcb[t].wupcause in {E_OK, E_TMOUT})
  }

  ghost predicate AfterTicks(s: KState, e: KState, p: nat) {
    && (forall t: TaskId :: TaskAfter(s, e, t, p))
    && (forall q: Pri :: ReadyAt(s, q) <= ReadyAt(e, q))
    && e.current == s.current && e.next == s.next && e.msip == s.msip
    && e.now == s.now && e.mtimecmp == s.mtimecmp && e.hist.task == s.hist.task
    && e.flg == s.flg && e.mbx == s.mbx
  }

  /** The causes of a handler step: the deadline's task times out, the tasks it hands units to get E_OK. */
  lemma CompleteCauses(s: KState, f: TaskId)
    requires Core(s) && Waiting(s, f)
    ensures var c := CompleteWait(s, f, E_TMOUT);
            forall t: TaskId :: t != f && c.tcb[t] != s.tcb[t] ==> c.tcb[t].wupcause == E_OK
  {
    var r := Release(s, f, E_TMOUT);
    var c := CompleteWait(s, f, E_TMOUT);
    ReleaseCore(s, f, E_TMOUT);
    if LeavesUnserved(s, f, E_TMOUT).Some? {
      ServeCauses(r, LeavesUnserved(s, f, E_TMOUT).value);
    }
  }

  lemma ServeCauses(s: KState, q: SemId)
    requires Core(s)
    ensures forall t: TaskId :: Serve(s, q).tcb[t] != s.tcb[t] ==> Serve(s, q).tcb[t].wupcause == E_OK
  {
    var r := Serve(s, q);
    ServeKeeps(s, q);
  }

  lemma ElapsedAfter(s: KState, p: nat)
    requires Core(s) && Timed(s) != [] && s.tcb[First(s)].delay > p
    ensures AfterTicks(s, Elapse(s, p), p)
  {
    var e := Elapse(s, p);
    forall t: TaskId ensures TaskAfter(s, e, t, p) {
      assert TaskOk(s, t);
      if OnTimer(s, t) {
        assert t in Timed(s);
        assert Timed(s)[Index(Timed(s), t)] == t;
      } else {
        assert t !in Timed(s);
      }
    }
  }

  lemma ElapsedTask(s: KState, d: nat, t: TaskId)
    requires Core(s) && Timed(s) != [] && d == s.tcb[First(s)].delay
    ensures var x := Elapse(s, d);
            && (OnTimer(s, t) ==> s.tcb[t].delay >= d && x.tcb[t] == s.tcb[t].(delay := s.tcb[t].delay - d))
            && (!OnTimer(s, t) ==> x.tcb[t] == s.tcb[t])
            && x.heads == s.heads && x.waits == s.waits
  {
    if OnTimer(s, t) {
      assert t in Timed(s);
      assert Timed(s)[Index(Timed(s), t)] == t;
    } else {
      assert t !in Timed(s);
    }
  }

  /** One task through a round: d ticks, the completion, and the rest of the run. */
  lemma TaskAfterRound(s: KState, x: KState, c: KState, e: KState, f: TaskId, t: TaskId, d: nat, r: nat, p: nat)
    requires OnTimer(s, t) ==> s.tcb[t].delay >= d && x.tcb[t] == s.tcb[t].(delay := s.tcb[t].delay - d)
    requires !OnTimer(s, t) ==> x.tcb[t] == s.tcb[t]
    requires x.heads == s.heads && x.waits == s.waits && p == d + r
    requires SameOrEnded(x, c, t) && TaskAfter(c, e, t, r)
    requires OnTimer(s, f) && s.tcb[f].delay == d && c.tcb[f].wupcause == E_TMOUT && c.tcb[f].tskstat == RDY
    requires t != f && c.tcb[t] != x.tcb[t] ==> c.tcb[t].wupcause == E_OK
    requires TaskOk(s, t) && TaskOk(c, t) && TaskOk(e, t)
    ensures TaskAfter(s, e, t, p)
  {
    if OnTimer(c, t) {
      assert c.tcb[t] == x.tcb[t];
    } else {
      assert SameOrEnded(c, e, t);
    }
  }

  /** A round that reaches the first deadline after d ticks, and the rest of the run from there. */
  lemma RoundAfter(s: KState, f: TaskId, d: nat, c: KState, e: KState, r: nat, p: nat)
    requires Core(s) && Reaches(s, f, d, c) && p == d + r
    requires AfterTicks(c, e, r) && Core(e) && Core(c)
    ensures AfterTicks(s, e, p)
  {
    var x := Elapse(s, d);
    ExpireStep(s, d);
    CompleteCauses(x, f);
    forall t: TaskId ensures TaskAfter(s, e, t, p) {
      ElapsedTask(s, d, t);
      ElapsedTask(s, d, f);
      assert f in Timed(s);
      TaskAfterRound(s, x, c, e, f, t, d, r, p);
    }
    forall q: Pri ensures ReadyAt(s, q) <= ReadyAt(e, q) {
      assert ReadyAt(x, q) <= ReadyAt(c, q) && ReadyAt(c, q) <= ReadyAt(e, q) && ReadyAt(s, q) == ReadyAt(x, q);
    }
    CompleteWaitFlgMbx(x, f);
  }

  lemma CompleteWaitFlgMbx(s: KState, f: TaskId)
    requires Core(s) && Waiting(s, f)
    ensures CompleteWait(s, f, E_TMOUT).flg == s.flg && CompleteWait(s, f, E_TMOUT).mbx == s.mbx
  {
    hide Core, Ends;
    if LeavesUnserved(s, f, E_TMOUT).Some? {
      ReleaseCore(s, f, E_TMOUT);
      ServeKeeps(Release(s, f, E_TMOUT), LeavesUnserved(s, f, E_TMOUT).value);
    }
  }

  /** What a handler run of p ticks does to every task. */
  lemma {:induction false} ExpireAfter(s: KState, p: nat)
    requires Core(s)
    ensures AfterTicks(s, Expire(s, p).0, p)
    decreases |Timed(s)|
  {
    if Timed(s) == [] {
      forall t: TaskId ensures TaskAfter(s, s, t, p) {
        assert t !in Timed(s);
      }
    } else {
      var f := First(s);
      var d := s.tcb[f].delay;
      if d <= p {
        var c := CompleteWait(Elapse(s, d), f, E_TMOUT);
        var r: nat := p - d;
        ExpireReaches(s, f, d, c, p, r);
        assert Expire(s, p) == (Expire(c, r).0, true);
        ExpireAfter(c, r);
        RoundAfter(s, f, d, c, Expire(c, r).0, r, p);
      } else {
        ExpireStops(s, p, Elapse(s, p));
        ElapsedAfter(s, p);
      }
    }
  }

  lemma {:induction false} ExpireSettled(s: KState, p: nat)
    requires Core(s) && AllSettled(s)
    ensures AllSettled(Expire(s, p).0)
    decreases |Timed(s)|
  {
    if Timed(s) != [] {
      var f := First(s);
      var d := s.tcb[f].delay;
      if d <= p {
        var c := CompleteWait(Elapse(s, d), f, E_TMOUT);
        var r: nat := p - d;
        ExpireStep(s, d);
        ExpireReaches(s, f, d, c, p, r);
        assert Expire(s, p) == (Expire(c, r).0, true);
        ExpireSettled(c, r);
      } else {
        ExpireStops(s, p, Elapse(s, p));
        ElapseCore(s, p);
      }
    }
  }

  /* ---- the handler ---- */

  /** The state in which the handler starts its loop: the compare value is moved to the first edge ahead. */
  function Advanced(s: KState): KState {
    s.(mtimecmp := s.mtimecmp + Pending(s.mtimecmp, s.now) * TICK_COUNTS)
  }

  lemma AdvancedSettled(s: KState)
    requires Core(s) && AllSettled(s)
    ensures Core(Advanced(s)) && AllSettled(Advanced(s))
  {
    ElapsedCore(s, Pending(s.mtimecmp, s.now));
    SameObjectsSettled(s, Advanced(s));
  }

  /** Through any run of the handler, the ticks left and the compare value lead to the same deadline. */
  lemma DeadlinesKept(s: KState, e: KState, p: nat)
    requires AllTimed(s) && p == Pending(s.mtimecmp, s.now) && AfterTicks(Advanced(s), e, p)
    ensures AllTimed(e)
  {
    forall t: TaskId ensures TimedOk(e, t) {
      assert TimedOk(s, t) && TaskAfter(Advanced(s), e, t, p);
    }
  }

  lemma AfterRunsAlone(s: KState, e: KState, p: nat)
    requires LinksOk(s) && LinksOk(e) && SchedOk(s) && AfterTicks(s, e, p)
    ensures RunsAlone(e)
    ensures forall t: TaskId :: e.tcb[t].tskstat == RUN <==> s.tcb[t].tskstat == RUN
  {
    forall t: TaskId ensures e.tcb[t].tskstat == RUN <==> s.tcb[t].tskstat == RUN {
      assert TaskAfter(s, e, t, p) && TaskOk(s, t) && TaskOk(e, t);
    }
  }

  /** A run that ends no wait leaves the ready queues as they were. */
  lemma QuietRun(s: KState, p: nat)
    requires Core(s) && !Expire(s, p).1
    ensures forall q: Pri :: ReadyAt(Expire(s, p).0, q) == ReadyAt(s, q)
    ensures Expire(s, p).0.heads == s.heads
  {
    if Timed(s) != [] {
      var f := First(s);
      var d := s.tcb[f].delay;
      if d <= p {
        var r: nat := p - d;
        ExpireReaches(s, f, d, CompleteWait(Elapse(s, d), f, E_TMOUT), p, r);
      } else {
        ExpireStops(s, p, Elapse(s, p));
      }
    }
  }

  /** The timer handler keeps the invariant of the kernel. */
  lemma TimerHandlerInv(s: KState)
    requires Inv(s)
    ensures Inv(TimerHandler(s))
  {
    InvGives(s);
    var p := Pending(s.mtimecmp, s.now);
    if p > 0 {
      var a := Advanced(s);
      AdvancedSettled(s);
      assert LinksOk(a) && SchedOk(a) by { CoreGives(a); }
      assert AllTimed(s);
      hide Inv, Core, AllSettled, AllTimed, LinksOk, SchedOk, RunsAlone;
      var e := Expire(a, p).0;
      ExpireAfter(a, p);
      ExpireSettled(a, p);
      hide Expire;
      CoreGives(e);
      DeadlinesKept(s, e, p);
      AfterRunsAlone(a, e, p);
      if Expire(a, p).1 {
        ReschedInv(e);
      } else {
        QuietRun(a, p);
        QuietInv(s, e);
      }
    }
  }

  /** A count is reached exactly if the clock has reached the deadline it stands for. */
  lemma ReachedIs(cmp: nat, now: nat, delay: nat)
    requires now >= cmp && delay > 0
    ensures delay <= Pending(cmp, now) <==> cmp + (delay - 1) * TICK_COUNTS <= now
  {
    PendingIs(cmp, now);
  }

  /** What a handler run at time s.now makes of a task's limit: it is still running and ahead of the clock, or the
      clock has reached it and the wait is over, timed out or with units handed over; and no wait times out
      before its deadline. */
  predicate TimesOut(s: KState, h: KState, t: TaskId) {
    var d := s.hist.task[t].deadline;
    && (OnTimer(h, t) ==> OnTimer(s, t) && h.hist.task[t].deadline == d && d > s.now)
    && (OnTimer(s, t) && d <= s.now ==> !OnTimer(h, t) && h.tcb[t].tskstat == RDY && h.tcb[t].wupcause in {E_TMOUT, E_OK})
    && (h.tcb[t].wupcause == E_TMOUT && h.tcb[t] != s.tcb[t] ==> OnTimer(s, t) && d <= s.now)
  }

  lemma TaskTimesOut(s: KState, h: KState, t: TaskId, p: nat)
    requires s.now >= s.mtimecmp && p == Pending(s.mtimecmp, s.now)
    requires TaskOk(s, t) && TimedOk(s, t) && TaskAfter(Advanced(s), h, t, p) && h.hist.task == s.hist.task
    ensures TimesOut(s, h, t)
  {
    if OnTimer(s, t) { ReachedIs(s.mtimecmp, s.now, s.tcb[t].delay); }
  }

  /** A handler run ends exactly the limits whose deadline the clock has reached, and leaves the compare value
      ahead of the clock. */
  lemma TimerHandlerTimes(s: KState)
    requires Inv(s)
    ensures TimerHandler(s).now == s.now < TimerHandler(s).mtimecmp
    ensures forall t: TaskId :: TimesOut(s, TimerHandler(s), t)
  {
    var p := Pending(s.mtimecmp, s.now);
    PendingIs(s.mtimecmp, s.now);
    if p == 0 {
      forall t: TaskId ensures TimesOut(s, s, t) { assert TimedOk(s, t); }
    } else {
      AdvancedSettled(s);
      var e := Expire(Advanced(s), p).0;
      var h := TimerHandler(s);
      ExpireAfter(Advanced(s), p);
      forall t: TaskId ensures TimesOut(s, h, t) {
        assert TaskOk(s, t) && TimedOk(s, t) && TaskAfter(Advanced(s), e, t, p);
        TaskTimesOut(s, e, t, p);
      }
    }
  }
}
