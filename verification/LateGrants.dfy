/** How every wait fares in a run of the timer handler, told from the state before it; and the order in which the run
    makes tasks ready. */
module LateGrants {
  import opened Types
  import opened Rings
  import opened KernelState
  import opened KernelOps
  import opened Frames
  import opened Timer
  import opened TimerRuns
  import opened TimerOrder
  import opened TimerLate
  import opened Forecast
  import opened WaitStart
  import opened Units
  import opened Runs
  import opened WaitEndings

  /** The log of a handler run. */
  ghost function LogOf(s: KState): seq<Expiry>
    requires Inv(s)
  {
    AdvancedSettled(s);
    Expiries(Advanced(s), Pending(s.mtimecmp, s.now))
  }

  /** t waits for units that the forecast for the semaphore gives it in this handler run. */
  predicate Served(s: KState, t: TaskId) {
    s.tcb[t].tskwait == SEM && s.tcb[t].winfo.SemInfo? && t in Lucky(s, s.tcb[t].winfo.semcb, Pending(s.mtimecmp, s.now))
  }

  /** The clock has reached the deadline of t. */
  predicate Reached(s: KState, t: TaskId) {
    OnTimer(s, t) && s.hist.task[t].deadline <= s.now
  }

  /** What a handler run makes of any wait, told from the state before it: it ends with E_OK exactly if the waiter is
      served, with E_TMOUT exactly if its deadline is reached and it is not, and else it goes on. Only waiters of a
      TA_FIRST semaphore are ever served. */
  lemma TimesOutExactly(s: KState, t: TaskId)
    requires Inv(s) && Waiting(s, t)
    ensures var r := Handled(s);
            && (EndsWith(r, t, E_OK) <==> Served(s, t))
            && (EndsWith(r, t, E_TMOUT) <==> Reached(s, t) && !Served(s, t))
            && (Waiting(r, t) <==> !Reached(s, t) && !Served(s, t))
    ensures Served(s, t) ==> !s.sem[s.tcb[t].winfo.semcb].cntOrder
  {
    hide Inv, Handled, Lucky, TaskOk, HistOk;
    HandlerFits(s, t);
    InvGivesTask(s, t);
    if !Waiting(Handled(s), t) { HandlerEnds(s, t); }
    UnitsOnly(s, t);
    if s.tcb[t].tskwait == SEM {
      OnItsQueue(s, t);
      ServedExactly(s, s.tcb[t].winfo.semcb, t);
    }
  }

  /** The timer ends a wait at its deadline, or one for units. */
  lemma UnitsOnly(s: KState, t: TaskId)
    requires Waiting(s, t) && (!Waiting(Handled(s), t) ==> EndedBy(s, TimerInterrupt, Handled(s), t))
    ensures !Waiting(Handled(s), t) ==>
              (EndsWith(Handled(s), t, E_TMOUT) && Reached(s, t)) || (EndsWith(Handled(s), t, E_OK) && s.tcb[t].tskwait == SEM)
  {
    hide Handled;
  }

  lemma OnItsQueue(s: KState, t: TaskId)
    requires Inv(s) && Waiting(s, t) && s.tcb[t].tskwait == SEM
    ensures s.tcb[t].winfo.SemInfo? && t in Waiters(s, SemQ(s.tcb[t].winfo.semcb))
  {
    hide Inv, Core;
    InvGives(s);
    CoreGives(s);
    assert TaskOk(s, t);
  }

  lemma ServedExactly(s: KState, q: SemId, t: TaskId)
    requires Inv(s) && Waiting(s, t) && s.tcb[t].tskwait == SEM && s.tcb[t].winfo.SemInfo? && s.tcb[t].winfo.semcb == q
    ensures EndsWith(Handled(s), t, E_OK) <==> Served(s, t)
    ensures Served(s, t) ==> !s.sem[q].cntOrder
  {
    hide Inv, Core, AllSettled, Settled, Lucky, Expire, TimerHandler, LinksOk;
    InvGives(s);
    OnItsQueue(s, t);
    var p := Pending(s.mtimecmp, s.now);
    var a := Advanced(s);
    AdvancedSettled(s);
    SettledGives(s, q);
    SettledGives(a, q);
    if s.sem[q].cntOrder { CntNever(s, q, p); }
    if p == 0 {
      forall u: TaskId ensures !Due(s, u, p) { NotYetDue(s, u); }
      NobodyDue(s, q, p);
      HandlerIdles(s);
    } else {
      ForecastHolds(a, p, q, t);
      AdvancedLucky(s, q, p);
      HandlerEndsAs(s, a, p);
    }
  }

  lemma SettledGives(s: KState, q: SemId)
    requires AllSettled(s)
    ensures Settled(s, q)
  {
    hide Settled;
  }

  /** Nobody is ever served late under TA_CNT: whom the units cover has them at once. */
  lemma CntNever(s: KState, q: SemId, p: nat)
    requires Settled(s, q) && s.sem[q].cntOrder
    ensures Lucky(s, q, p) == {}
  {
    NoneFreed(s, Waiters(s, SemQ(q)), Open, s.sem[q].semcnt, p);
  }

  lemma NotYetDue(s: KState, t: TaskId)
    requires Inv(s)
    ensures !Due(s, t, 0)
  {
    hide Inv, Core, LinksOk, AllSettled;
    InvGives(s);
    CoreGives(s);
    InvGivesTask(s, t);
    assert t in s.heads.Get(TimerQ) ==> OnTimer(s, t);
  }

  lemma AdvancedLucky(s: KState, q: SemId, p: nat)
    ensures Lucky(Advanced(s), q, p) == Lucky(s, q, p)
  {
    var w := Waiters(s, SemQ(q));
    FreedAgrees(s, p, Advanced(s), p, w, w, Open, s.sem[q].semcnt);
  }

  /** What the forecast reads is about deadlines: a limit is due in the run if its deadline is reached, and limits are
      in the order of their deadlines, with ties in the order of the timer queue. */
  lemma DueIsReached(s: KState, a: TaskId, b: TaskId)
    requires Inv(s)
    ensures Due(s, a, Pending(s.mtimecmp, s.now)) <==> Reached(s, a)
    ensures Sooner(s, a, b) <==>
              && OnTimer(s, a) && OnTimer(s, b)
              && var x, y := s.hist.task[a].deadline, s.hist.task[b].deadline;
                 x < y || (x == y && a in Timed(s) && b in Timed(s) && Index(Timed(s), a) < Index(Timed(s), b))
  {
    hide Inv, Core, LinksOk, AllSettled, TaskOk, HistOk, Pending, Index;
    InvGives(s);
    CoreGives(s);
    InvGivesTask(s, a);
    InvGivesTask(s, b);
    assert a in s.heads.Get(TimerQ) <==> OnTimer(s, a);
    assert b in s.heads.Get(TimerQ) <==> OnTimer(s, b);
    PendingIs(s.mtimecmp, s.now);
    if s.now >= s.mtimecmp && OnTimer(s, a) { ReachedIs(s.mtimecmp, s.now, s.tcb[a].delay); }
  }

  /** In a handler run tasks become ready in the order of their deadlines, each followed by those it made way for: that
      is the order of the newcomers on every ready queue. */
  lemma NewcomersInOrder(s: KState)
    requires Inv(s)
    ensures LogOk(Advanced(s), LogOf(s), Pending(s.mtimecmp, s.now)) && QueuesInLogOrder(LogOf(s), TimerHandler(s))
  {
    var p := Pending(s.mtimecmp, s.now);
    AdvancedSettled(s);
    ExpiriesInOrder(Advanced(s), p);
    QueuesFollowLog(Advanced(s), p);
    var e := Expire(Advanced(s), p).0;
    var h := TimerHandler(s);
    if p == 0 { NoTicksNoLog(s); }
    hide Inv, Core, LogOk;
    SameQueues(LogOf(s), e, h, p);
  }

  lemma NoTicksNoLog(s: KState)
    requires Inv(s) && Pending(s.mtimecmp, s.now) == 0
    ensures LogOf(s) == []
  {
    AdvancedSettled(s);
    assert Timed(Advanced(s)) == Timed(s);
    if Timed(s) != [] {
      var f := First(Advanced(s));
      assert f in s.heads.Get(TimerQ) && TimedOk(s, f);
    }
  }

  lemma SameQueues(l: seq<Expiry>, e: KState, h: KState, p: nat)
    requires QueuesInLogOrder(l, e) && (h.heads == e.heads || l == [])
    ensures QueuesInLogOrder(l, h)
  {
    assert h.heads == e.heads ==> forall q: Pri :: ReadyAt(h, q) == ReadyAt(e, q);
  }

  lemma HandlerFits(s: KState, t: TaskId)
    requires Inv(s)
    ensures TimesOut(s, Handled(s), t)
  {
    TimerHandlerTimes(s);
  }
}
