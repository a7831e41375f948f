/** Late timer interrupts compose: one run at a time does what runs before it would have done. */
module TimerLate {
  import opened Types
  import opened Rings
  import opened KernelState
  import opened KernelOps
  import opened Frames
  import opened Timer
  import opened TimerRuns
  import opened Scheduling

  /** s with the clock, the compare value, the choice of the next task and the switch request of x. */
  function Outer(s: KState, x: KState): KState {
    s.(now := x.now, mtimecmp := x.mtimecmp, next := x.next, msip := x.msip)
  }

  lemma {:induction false} ServeOuter(s: KState, x: KState, q: SemId, rest: seq<TaskId>)
    ensures ServeFrom(Outer(s, x), q, rest) == Outer(ServeFrom(s, q, rest), x)
    decreases rest
  {
    if rest != [] {
      if s.sem[q].semcnt < Req(s, rest[0]) {
        if s.sem[q].cntOrder { ServeOuter(s, x, q, rest[1..]); }
      } else {
        assert Grant(Outer(s, x), q, rest[0]) == Outer(Grant(s, q, rest[0]), x);
        ServeOuter(Grant(s, q, rest[0]), x, q, rest[1..]);
      }
    }
  }

  lemma CompleteOuter(s: KState, x: KState, t: TaskId, cause: ER)
    ensures CompleteWait(Outer(s, x), t, cause) == Outer(CompleteWait(s, t, cause), x)
  {
    var r := Release(s, t, cause);
    assert Release(Outer(s, x), t, cause) == Outer(r, x);
    match LeavesUnserved(s, t, cause)
    case None =>
    case Some(q) => ServeOuter(r, x, q, Waiters(r, SemQ(q)));
  }

  lemma ElapseOuter(s: KState, x: KState, step: nat)
    ensures Elapse(Outer(s, x), step) == Outer(Elapse(s, step), x)
  {
    assert Elapse(Outer(s, x), step).tcb == Elapse(s, step).tcb;
  }

  /** The loop of the handler reads neither the clock nor the choice of the next task. */
  lemma {:induction false} ExpireOuter(s: KState, x: KState, g: KState, p: nat)
    requires Core(s) && g == Outer(s, x) && Core(g)
    ensures Expire(g, p) == (Outer(Expire(s, p).0, x), Expire(s, p).1)
    decreases |Timed(s)|
  {
    assert Timed(g) == Timed(s);
    if Timed(s) != [] {
      var f := First(s);
      var d := s.tcb[f].delay;
      if d <= p {
        var r: nat := p - d;
        var c := CompleteWait(Elapse(s, d), f, E_TMOUT);
        var k := Outer(c, x);
        ElapseOuter(s, x, d);
        CompleteOuter(Elapse(s, d), x, f, E_TMOUT);
        ExpireReaches(s, f, d, c, p, r);
        ExpireReaches(g, f, d, k, p, r);
        assert Expire(s, p) == (Expire(c, r).0, true);
        assert Expire(g, p) == (Expire(k, r).0, true);
        ExpireOuter(c, x, k, r);
      } else {
        ElapseOuter(s, x, p);
        ExpireStops(s, p, Elapse(s, p));
        ExpireStops(g, p, Elapse(g, p));
      }
    }
  }

  /** The edges up to a later time are those up to an earlier one, and those from there. */
  lemma {:induction false} PendingSplits(cmp: nat, a: nat, b: nat)
    requires a <= b
    ensures Pending(cmp, b) == Pending(cmp, a) + Pending(cmp + Pending(cmp, a) * TICK_COUNTS, b)
    decreases if a >= cmp then a - cmp + 1 else 0
  {
    if a >= cmp {
      PendingSplits(cmp + TICK_COUNTS, a, b);
      assert cmp + Pending(cmp, a) * TICK_COUNTS
          == cmp + TICK_COUNTS + Pending(cmp + TICK_COUNTS, a) * TICK_COUNTS;
    }
  }

  /** The clock moves on, with no other step. */
  function At(s: KState, time: nat): KState {
    s.(now := time)
  }

  lemma AtInv(s: KState, time: nat)
    requires Inv(s) && s.now <= time
    ensures Inv(At(s, time))
  {
    assert Core(s) && AllSettled(s) && AllTimed(s) && SchedOk(s);
    hide Inv, Core, AllSettled, TimedOk;
    AtCore(s, At(s, time), time);
    InvOf(At(s, time));
  }

  lemma AtCore(s: KState, g: KState, time: nat)
    requires Core(s) && AllSettled(s) && AllTimed(s) && s.now <= time && g == At(s, time)
    ensures Core(g) && AllSettled(g) && AllTimed(g)
  {
    hide Core, AllSettled, ObjectsOk, Coherent;
    CoreGives(s);
    forall t: TaskId ensures TaskOk(g, t) && HistOk(g, t) && TimedOk(g, t) { assert TaskOk(s, t) && HistOk(s, t) && TimedOk(s, t); }
    SameObjectsOk(s, g);
    SameObjectsSettled(s, g);
    CoreFrom(s, g);
  }

  /** A switch asked for between the two runs would be asked for at the end of one run as well. */
  lemma SwitchStands(a: KState, s: KState, e: KState, z: KState, m: nat, n: nat)
    requires Inv(s) && a == Advanced(s) && Core(e) && Core(z) && AfterTicks(a, e, m) && AfterTicks(e, z, n)
    requires Highest(e) != Some(s.current) && Highest(z) == Some(s.current)
    ensures s.msip
  {
    if !s.msip {
      var c := s.current;
      assert Core(s) && s.tcb[c].tskstat == RUN;
      hide Inv, Core, LinksOk, ObjectsOk, FreeOk, TaskOk, HistOk, Coherent, TaskAfter;
      RunnableReady(s, c);
      CoreGives(z);
      assert ReadyAt(a, s.tcb[c].itskpri) <= ReadyAt(e, s.tcb[c].itskpri);
      assert c in e.heads.Get(ReadyQ(s.tcb[c].itskpri));
      forall r: Pri ensures e.heads.Get(ReadyQ(r)) <= z.heads.Get(ReadyQ(r)) {
        assert ReadyAt(e, r) <= ReadyAt(z, r);
      }
      HighestGrows(e.heads, z.heads, 1, c, s.tcb[c].itskpri);
    }
  }

  /** The end of a handler run. */
  function Finish(e: KState, ended: bool): KState {
    if ended then Resched(e) else e
  }

  /** z follows e, which follows s; b and y carry the clock, and the choice made before and after e. */
  lemma FinishAgrees(s: KState, e: KState, ended: bool, z: KState, again: bool, b: KState, y: KState)
    requires b.now == y.now && b.mtimecmp == y.mtimecmp && e.current == s.current == z.current
    requires e.next == s.next == b.next && e.msip == s.msip == b.msip
    requires y.next == Finish(e, ended).next && y.msip == Finish(e, ended).msip
    requires !again ==> Highest(z) == Highest(e)
    requires Highest(e) != Some(s.current) && Highest(z) == Some(s.current) ==> s.msip
    ensures Finish(Outer(z, b), ended || again) == Finish(Outer(z, y), again)
  {
    assert Highest(Outer(z, b)) == Highest(z) == Highest(Outer(z, y));
  }

  lemma HandlerIs(s: KState, a: KState, p: nat, e: KState, ended: bool)
    requires Core(s) && p == Pending(s.mtimecmp, s.now) > 0 && a == Advanced(s) && Core(a)
    requires Expire(a, p) == (e, ended)
    ensures TimerHandler(s) == Finish(e, ended)
  {
  }

  lemma HandlerIdles(s: KState)
    requires Core(s) && Pending(s.mtimecmp, s.now) == 0
    ensures TimerHandler(s) == s
  {
  }

  lemma PartFits(s: KState, a: KState, m: nat, e: KState, ended: bool)
    requires Core(s) && a == Advanced(s) && Core(a) && Expire(a, m) == (e, ended)
    ensures e.current == s.current && e.next == s.next && e.msip == s.msip
    ensures e.now == s.now && e.mtimecmp == a.mtimecmp
  {
    ExpireAfter(a, m);
  }

  lemma InvAdvances(s: KState)
    requires Inv(s)
    ensures Core(s) && Core(Advanced(s))
  {
    AdvancedSettled(s);
  }

  /** One run of p = m + n ticks from b, and one of n ticks from y, in terms of the parts e and z. */
  lemma TwoParts(a: KState, b: KState, m: nat, n: nat, p: nat, e: KState, ended: bool, z: KState, again: bool, y: KState)
    requires Core(a) && Core(b) && Core(e) && Core(y) && p == m + n
    requires b == Outer(a, b) && y == Outer(e, y)
    requires Expire(a, m) == (e, ended) && Expire(e, n) == (z, again)
    ensures Expire(b, p) == (Outer(z, b), ended || again)
    ensures Expire(y, n) == (Outer(z, y), again)
  {
    ExpireComposes(a, m, n, p);
    assert Expire(a, p) == (z, ended || again);
    ExpireOuter(a, b, b, p);
    ExpireOuter(e, y, y, n);
  }

  /** What the parts keep of s: enough for the two ways to end alike. */
  lemma PartsFit(s: KState, a: KState, m: nat, n: nat, e: KState, ended: bool, z: KState, again: bool)
    requires Inv(s) && a == Advanced(s) && Core(a) && Core(e) && Core(z)
    requires Expire(a, m) == (e, ended) && Expire(e, n) == (z, again)
    ensures e.current == s.current == z.current && e.next == s.next && e.msip == s.msip
    ensures e.now == s.now && e.mtimecmp == a.mtimecmp
    ensures !again ==> Highest(z) == Highest(e)
    ensures Highest(e) != Some(s.current) && Highest(z) == Some(s.current) ==> s.msip
  {
    ExpireAfter(a, m);
    ExpireAfter(e, n);
    if !again { QuietRun(e, n); }
    if Highest(e) != Some(s.current) && Highest(z) == Some(s.current) { SwitchStands(a, s, e, z, m, n); }
  }

  /** The states the two later runs start from, in terms of the parts. */
  lemma OuterParts(s: KState, later: nat, a: KState, b: KState, e: KState, ended: bool, s1: KState, y: KState)
    requires a == Advanced(s) && b == Advanced(At(s, later)) && s1 == At(Finish(e, ended), later) && y == Advanced(s1)
    ensures b == Outer(a, b) && y == Outer(e, y)
    ensures s.next == b.next && s.msip == b.msip && b.now == y.now
    ensures y.next == Finish(e, ended).next && y.msip == Finish(e, ended).msip
    ensures s1.now == later && s1.mtimecmp == e.mtimecmp
  {
  }

  /** One run of both parts, and the run of the second. */
  lemma BothRuns(s0: KState, s1: KState, a: KState, b: KState, y: KState, m: nat, n: nat, p: nat,
                 e: KState, ended: bool, z: KState, again: bool)
    requires Core(s0) && Core(s1) && Core(a) && Core(b) && Core(e) && Core(y) && b == Advanced(s0) && y == Advanced(s1)
    requires b == Outer(a, b) && y == Outer(e, y)
    requires p == m + n == Pending(s0.mtimecmp, s0.now) && n == Pending(s1.mtimecmp, s1.now) > 0
    requires Expire(a, m) == (e, ended) && Expire(e, n) == (z, again)
    ensures TimerHandler(s0) == Finish(Outer(z, b), ended || again)
    ensures TimerHandler(s1) == Finish(Outer(z, y), again)
  {
    TwoParts(a, b, m, n, p, e, ended, z, again, y);
    HandlerIs(s0, b, p, Outer(z, b), ended || again);
    HandlerIs(s1, y, n, Outer(z, y), again);
  }

  /** What one run leaves from the parts of the two, and the two runs leave, is the same. */
  lemma PartsAgree(s: KState, later: nat, m: nat, n: nat, p: nat, s0: KState, s1: KState, a: KState, b: KState, y: KState,
                   e: KState, ended: bool, z: KState, again: bool)
    requires Core(s0) && Core(s1) && Core(a) && Core(b) && Core(e) && Core(y)
    requires s0 == At(s, later) && s1 == At(Finish(e, ended), later)
    requires a == Advanced(s) && b == Advanced(s0) && y == Advanced(s1)
    requires m == Pending(s.mtimecmp, s.now) && p == m + n == Pending(s.mtimecmp, later) && n == Pending(a.mtimecmp, later) > 0
    requires Expire(a, m) == (e, ended) && Expire(e, n) == (z, again)
    requires e.current == s.current == z.current && e.next == s.next && e.msip == s.msip && e.mtimecmp == a.mtimecmp
    requires !again ==> Highest(z) == Highest(e)
    requires Highest(e) != Some(s.current) && Highest(z) == Some(s.current) ==> s.msip
    ensures TimerHandler(s0) == TimerHandler(s1)
  {
    OuterParts(s, later, a, b, e, ended, s1, y);
    BothRuns(s0, s1, a, b, y, m, n, p, e, ended, z, again);
    FinishAgrees(s, e, ended, z, again, b, y);
  }

  lemma EdgesSplit(s: KState, later: nat, m: nat, n: nat, p: nat)
    requires s.now <= later && m == Pending(s.mtimecmp, s.now) && n == Pending(Advanced(s).mtimecmp, later) && p == m + n
    ensures p == Pending(s.mtimecmp, later)
  {
    PendingSplits(s.mtimecmp, s.now, later);
    assert Advanced(s).mtimecmp == s.mtimecmp + m * TICK_COUNTS;
  }

  /** Edges may fall on both sides of the earlier time. s1 is where the first run ends, once the clock has moved. */
  lemma LaterEdges(s: KState, later: nat, m: nat, n: nat, s0: KState, s1: KState)
    requires Inv(s) && s.now <= later && m == Pending(s.mtimecmp, s.now) > 0
    requires n == Pending(Advanced(s).mtimecmp, later) > 0
    requires s0 == At(s, later) && Core(s0) && Core(Advanced(s0))
    requires s1 == At(TimerHandler(s), later) && Core(s1) && Core(Advanced(s1))
    ensures TimerHandler(s0) == TimerHandler(s1)
  {
    InvAdvances(s);
    var a, p: nat := Advanced(s), m + n;
    EdgesSplit(s, later, m, n, p);
    var e, ended := Expire(a, m).0, Expire(a, m).1;
    var z, again := Expire(e, n).0, Expire(e, n).1;
    HandlerIs(s, a, m, e, ended);
    PartsFit(s, a, m, n, e, ended, z, again);
    PartsAgree(s, later, m, n, p, s0, s1, a, Advanced(s0), Advanced(s1), e, ended, z, again);
  }

  /** No edge falls between the two times: the second run finds nothing to do. */
  lemma NoLaterEdge(s: KState, later: nat, m: nat, s0: KState, s1: KState)
    requires Inv(s) && s.now <= later && m == Pending(s.mtimecmp, s.now) > 0
    requires Pending(Advanced(s).mtimecmp, later) == 0
    requires s0 == At(s, later) && Core(s0) && Core(Advanced(s0))
    requires s1 == At(TimerHandler(s), later) && Core(s1)
    ensures TimerHandler(s0) == TimerHandler(s1)
  {
    InvAdvances(s);
    hide Inv, Core, Expire, TimerHandler;
    EdgesSplit(s, later, m, 0, m);
    OneRun(s, later, m, Expire(Advanced(s), m).0, Expire(Advanced(s), m).1, Advanced(s), s0, Advanced(s0));
    HandlerIdles(s1);
  }

  lemma OneRun(s: KState, later: nat, m: nat, e: KState, ended: bool, a: KState, s0: KState, b: KState)
    requires Core(s) && Core(s0) && Core(a) && Core(b) && s0 == At(s, later) && a == Advanced(s) && b == Advanced(s0)
    requires m == Pending(s.mtimecmp, s.now) == Pending(s.mtimecmp, later) > 0 && Expire(a, m) == (e, ended)
    ensures TimerHandler(s) == Finish(e, ended)
    ensures e.now == s.now && e.mtimecmp == a.mtimecmp
    ensures TimerHandler(s0) == Finish(Outer(e, b), ended)
    ensures Finish(Outer(e, b), ended) == At(Finish(e, ended), later)
  {
    hide Core, Expire, TimerHandler;
    HandlerIs(s, a, m, e, ended);
    PartFits(s, a, m, e, ended);
    ExpireOuter(a, b, b, m);
    HandlerIs(s0, b, m, Outer(e, b), ended);
  }

  /** A late interrupt loses nothing: a handler run at a later time leaves the kernel, the choice of the next task
      and the switch request included, exactly as a run now and another at that time. */
  lemma LateInterruptsCompose(s: KState, later: nat)
    requires Inv(s) && s.now <= later
    ensures Inv(TimerHandler(s)) && Inv(At(s, later)) && Inv(At(TimerHandler(s), later))
    ensures TimerHandler(At(s, later)) == TimerHandler(At(TimerHandler(s), later))
  {
    StepsInv(s, later);
    var m := Pending(s.mtimecmp, s.now);
    if m > 0 {
      var s0, s1 := At(s, later), At(TimerHandler(s), later);
      InvAdvances(s0);
      InvAdvances(s1);
      var n := Pending(Advanced(s).mtimecmp, later);
      if n == 0 { NoLaterEdge(s, later, m, s0, s1); } else { LaterEdges(s, later, m, n, s0, s1); }
    }
  }

  lemma StepsInv(s: KState, later: nat)
    requires Inv(s) && s.now <= later
    ensures TimerHandler(s).now == s.now
    ensures Inv(TimerHandler(s)) && Inv(At(s, later)) && Inv(At(TimerHandler(s), later))
  {
    TimerHandlerInv(s);
    TimerHandlerTimes(s);
    AtInv(s, later);
    AtInv(TimerHandler(s), later);
  }
}
