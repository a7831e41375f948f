/** The timer interrupt handler: what one run does, and why late interrupts lose nothing. */
module Timer {
  import opened Types
  import opened Rings
  import opened KernelState
  import opened KernelOps
  import opened Frames
  import opened WaitEnd
  import opened WaitStart

  /** first_deadline: the place on the timer queue of the least count, the first of equals. */
  function FirstAt(tcb: Tcbs, q: seq<TaskId>): (i: nat)
    requires q != []
    ensures i < |q|
    ensures forall j :: 0 <= j < |q| ==> tcb[q[i]].delay <= tcb[q[j]].delay
    ensures forall j :: 0 <= j < i ==> tcb[q[i]].delay < tcb[q[j]].delay
  {
    var n := |q| - 1;
    if n == 0 then 0
    else
      var i := FirstAt(tcb, q[..n]);
      assert forall j :: 0 <= j < n ==> q[..n][j] == q[j];
      if tcb[q[n]].delay < tcb[q[i]].delay then n else i
  }

  function First(s: KState): TaskId
    requires Timed(s) != []
  {
    Timed(s)[FirstAt(s.tcb, Timed(s))]
  }

  function Minus(a: nat, b: nat): nat {
    if a < b then 0 else a - b
  }

  /** The loop that takes the step off every count on the timer queue. */
  function Elapse(s: KState, step: nat): KState {
    s.(tcb := seq(CFN_MAX_TSKID, t requires 0 <= t < CFN_MAX_TSKID =>
                  if t in Timed(s) then s.tcb[t].(delay := Minus(s.tcb[t].delay, step)) else s.tcb[t]))
  }

  lemma ElapseCore(s: KState, step: nat)
    requires Core(s)
    ensures Core(Elapse(s, step))
    ensures AllSettled(s) ==> AllSettled(Elapse(s, step))
  {
    hide Core, ObjectsOk, AllSettled, Coherent;
    CoreGives(s);
    var e := Elapse(s, step);
    forall t: TaskId ensures TaskOk(e, t) && HistOk(e, t) { assert TaskOk(s, t) && HistOk(s, t); }
    SameObjectsOk(s, e);
    if AllSettled(s) { SameObjectsSettled(s, e); }
    assert IdleOk(e) by { assert TaskOk(s, IDLE); }
    CoreFrom(s, e);
  }

  /** The loop of tkmc_timer_handler with `periods` still to take off; also says whether a wait ended. */
  ghost function Expire(s: KState, periods: nat): (r: (KState, bool))
    requires Core(s)
    ensures Core(r.0)
    decreases |Timed(s)|
  {
    if Timed(s) == [] then (s, false)
    else
      var f := First(s);
      var ticks := s.tcb[f].delay;
      var step := if ticks < periods then ticks else periods;
      var e := Elapse(s, step);
      ElapseCore(s, step);
      if ticks > step then (e, false)
      else
        ExpireStep(s, step);
        (Expire(CompleteWait(e, f, E_TMOUT), periods - step).0, true)
  }

  /** One round of the loop: a completion keeps the invariant of a step and shrinks the timer queue. */
  lemma ExpireStep(s: KState, step: nat)
    requires Core(s) && Timed(s) != []
    ensures var e := Elapse(s, step);
            var c := CompleteWait(e, First(s), E_TMOUT);
            && Core(e) && Waiting(e, First(s)) && Core(c) && Ends(e, c) && |Timed(c)| < |Timed(s)|
            && First(s) !in Timed(c) && c.tcb[First(s)].tskstat == RDY && c.tcb[First(s)].wupcause == E_TMOUT
            && (AllSettled(s) ==> AllSettled(c))
  {
    var e := Elapse(s, step);
    ElapseCore(s, step);
    assert TaskOk(s, First(s));
    CompleteWaitKeeps(e, First(s), E_TMOUT);
    if AllSettled(s) { CompleteWaitAllSettled(e, First(s), E_TMOUT); }
  }

  /** tkmc_timer_handler */
  ghost function TimerHandler(s: KState): KState
    requires Core(s)
  {
    var p := Pending(s.mtimecmp, s.now);
    if p == 0 then s
    else
      ElapsedCore(s, p);
      var (e, ended) := Expire(s.(mtimecmp := s.mtimecmp + p * TICK_COUNTS), p);
      if ended then Resched(e) else e
  }

  lemma ElapsedCore(s: KState, p: nat)
    requires Core(s) && p == Pending(s.mtimecmp, s.now)
    ensures Core(s.(mtimecmp := s.mtimecmp + p * TICK_COUNTS))
  {
    PendingIs(s.mtimecmp, s.now);
    var e := s.(mtimecmp := s.mtimecmp + p * TICK_COUNTS);
    forall t: TaskId ensures TaskOk(e, t) && HistOk(e, t) { assert TaskOk(s, t) && HistOk(s, t); }
    SameObjectsOk(s, e);
  }

  /* ---- late interrupts compose ---- */

  lemma ElapseTwice(s: KState, a: nat, b: nat, c: nat)
    requires c == a + b
    ensures Elapse(Elapse(s, a), b) == Elapse(s, c)
  {
    assert Elapse(Elapse(s, a), b).tcb == Elapse(s, c).tcb;
  }

  lemma ElapsedTimed(s: KState, a: nat)
    ensures Timed(Elapse(s, a)) == Timed(s)
  {
  }

  lemma ElapseFirst(s: KState, a: nat)
    requires Timed(s) != [] && a <= s.tcb[First(s)].delay
    ensures First(Elapse(s, a)) == First(s)
    ensures Elapse(s, a).tcb[First(s)].delay == s.tcb[First(s)].delay - a
  {
    var e := Elapse(s, a);
    var q := Timed(s);
    assert Timed(e) == q;
    var i, j := FirstAt(s.tcb, q), FirstAt(e.tcb, q);
    forall k | 0 <= k < |q| ensures e.tcb[q[k]].delay == s.tcb[q[k]].delay - a {
      assert q[k] in q && s.tcb[q[i]].delay <= s.tcb[q[k]].delay;
    }
    assert !(i < j) && !(j < i);
  }

  /** c is the state after a round in which f, the first deadline, is reached after d ticks. */
  predicate Reaches(s: KState, f: TaskId, d: nat, c: KState) {
    Timed(s) != [] && f == First(s) && d == s.tcb[f].delay && c == CompleteWait(Elapse(s, d), f, E_TMOUT)
  }

  /** One round of the loop, as an equation: the first deadline is reached. */
  lemma ExpireReaches(s: KState, f: TaskId, d: nat, c: KState, p: nat, r: nat)
    requires Core(s) && Reaches(s, f, d, c) && p == d + r
    ensures Core(c) && |Timed(c)| < |Timed(s)| && Expire(s, p) == (Expire(c, r).0, true)
  {
    ExpireStep(s, d);
  }

  lemma ExpireNothing(s: KState, p: nat)
    requires Core(s) && Timed(s) == []
    ensures Expire(s, p) == (s, false)
  {
  }

  /** The last round: the ticks run out before the first deadline. */
  lemma ExpireStops(s: KState, p: nat, e: KState)
    requires Core(s) && Timed(s) != [] && s.tcb[First(s)].delay > p && e == Elapse(s, p)
    ensures Core(e) && Expire(s, p) == (e, false)
  {
    ElapseCore(s, p);
  }

  /** m ticks short of the first deadline, it is m ticks nearer. */
  lemma ReachesLater(s: KState, m: nat, f: TaskId, d: nat, k: nat, c: KState)
    requires Core(s) && Reaches(s, f, d, c) && d == m + k
    ensures Reaches(Elapse(s, m), f, k, c)
  {
    ElapseFirst(s, m);
    assert Timed(Elapse(s, m)) == Timed(s);
    ElapseTwice(s, m, k, d);
  }

  /** The ticks of the first part run out before the first deadline. */
  lemma ExpireComposesShort(s: KState, m: nat, n: nat, p: nat, e: KState)
    requires Core(s) && Timed(s) != [] && s.tcb[First(s)].delay > m && p == m + n && e == Elapse(s, m)
    ensures Core(e) && Expire(s, m) == (e, false) && Expire(s, p) == Expire(e, n)
  {
    hide Core, Expire, CompleteWait, Elapse;
    var f := First(s);
    var d := s.tcb[f].delay;
    ExpireStops(s, m, e);
    assert Timed(e) == Timed(s) by { ElapsedTimed(s, m); }
    if d <= p {
      var c := CompleteWait(Elapse(s, d), f, E_TMOUT);
      ReachesLater(s, m, f, d, d - m, c);
      ExpireReaches(s, f, d, c, p, p - d);
      ExpireReaches(e, f, d - m, c, n, p - d);
    } else {
      ElapseFirst(s, m);
      var c := Elapse(s, p);
      ElapseTwice(s, m, n, p);
      ExpireStops(s, p, c);
      ExpireStops(e, n, c);
    }
  }

  /** The first part reaches the first deadline: both runs share that round. */
  lemma {:induction false} ExpireComposesLong(s: KState, m: nat, n: nat, p: nat)
    requires Core(s) && Timed(s) != [] && s.tcb[First(s)].delay <= m && p == m + n
    ensures Expire(s, p).0 == Expire(Expire(s, m).0, n).0 && Expire(s, p).1 && Expire(s, m).1
    decreases |Timed(s)|, 0
  {
    hide Core, Expire;
    var f := First(s);
    var d := s.tcb[f].delay;
    var c := CompleteWait(Elapse(s, d), f, E_TMOUT);
    var k: nat, l: nat := m - d, p - d;
    ExpireReaches(s, f, d, c, m, k);
    assert Expire(s, m) == (Expire(c, k).0, true);
    assert Expire(s, m).0 == Expire(c, k).0;
    ExpireReaches(s, f, d, c, p, l);
    ExpireComposes(c, k, n, l);
    var x := Expire(c, k).0;
    assert Expire(c, l).0 == Expire(x, n).0;
  }

  /** m + n ticks in one run do what m and then n do. */
  lemma {:induction false} ExpireComposes(s: KState, m: nat, n: nat, p: nat)
    requires Core(s) && p == m + n
    ensures Expire(s, p).0 == Expire(Expire(s, m).0, n).0
    ensures Expire(s, p).1 == (Expire(s, m).1 || Expire(Expire(s, m).0, n).1)
    decreases |Timed(s)|, 1
  {
    if Timed(s) != [] {
      if s.tcb[First(s)].delay <= m {
        ExpireComposesLong(s, m, n, p);
      } else {
        ExpireComposesShort(s, m, n, p, Elapse(s, m));
      }
    }
  }
}
