/** Which waiters of a semaphore a run of the timer handler serves, told from the queue and the deadlines before the
    run: one pass over the queue gives what the rounds of the run do. */
module Forecast {
  import opened Types
  import opened Rings
  import opened KernelState
  import opened KernelOps
  import opened Frames
  import opened WaitEnd
  import opened Timer
  import opened TimerRuns
  import opened TimerOrder
  import opened WaitEndings

  /** When the last of those ahead on the queue is out of the way that get nothing: there is none, the time-out of a
      task, or never. */
  datatype Gate = Open | After(task: TaskId) | Shut

  /** p ticks reach the limit of t. */
  predicate Due(s: KState, t: TaskId, p: nat) {
    t in Timed(s) && s.tcb[t].delay <= p
  }

  /** The gate opens before the limit of t is reached. */
  predicate InTime(s: KState, g: Gate, t: TaskId, p: nat) {
    match g
    case Open => true
    case After(a) => Due(s, t, p) ==> Sooner(s, a, t)
    case Shut => false
  }

  /** The gate behind t, if t gets nothing: it opens with the later of the gate before t and the time-out of t. */
  function Behind(s: KState, g: Gate, t: TaskId, p: nat): Gate {
    if !Due(s, t, p) then Shut
    else match g
         case Open => After(t)
         case After(a) => if Sooner(s, a, t) then After(t) else g
         case Shut => Shut
  }

  /** Those of the rest w of a queue that are handed units within p ticks, where u units are left and g is the gate. */
  function Freed(s: KState, w: seq<TaskId>, g: Gate, u: int, p: nat): set<TaskId>
    decreases w
  {
    if w == [] then {}
    else if InTime(s, g, w[0], p) && Req(s, w[0]) <= u then {w[0]} + Freed(s, w[1..], g, u - Req(s, w[0]), p)
    else Freed(s, w[1..], Behind(s, g, w[0], p), u, p)
  }

  /** The waiters of semaphore q that are handed units within p ticks. */
  function Lucky(s: KState, q: SemId, p: nat): set<TaskId> {
    Freed(s, Waiters(s, SemQ(q)), Open, s.sem[q].semcnt, p)
  }

  /* ---- the fold by itself ---- */

  lemma {:induction false} FreedWait(s: KState, w: seq<TaskId>, g: Gate, u: int, p: nat)
    ensures forall t :: t in Freed(s, w, g, u, p) ==> t in w
    decreases w
  {
    if w != [] {
      FreedWait(s, w[1..], g, u - Req(s, w[0]), p);
      FreedWait(s, w[1..], Behind(s, g, w[0], p), u, p);
    }
  }

  /** Who asks for more than there is gets nothing. */
  lemma {:induction false} NoneFreed(s: KState, w: seq<TaskId>, g: Gate, u: int, p: nat)
    requires g.Shut? || forall t :: t in w ==> Req(s, t) > u
    ensures Freed(s, w, g, u, p) == {}
    decreases w
  {
    if w != [] { NoneFreed(s, w[1..], Behind(s, g, w[0], p), u, p); }
  }

  /** The fold reads of the tasks what they ask for, whose limit is reached, and in which order. */
  ghost predicate Agree(s: KState, p: nat, c: KState, r: nat, z: seq<TaskId>) {
    && (forall a :: a in z ==> Req(c, a) == Req(s, a) && (Due(c, a, r) <==> Due(s, a, p)))
    && (forall a, b :: a in z && b in z && Due(c, a, r) && Due(c, b, r) ==> (Sooner(c, a, b) <==> Sooner(s, a, b)))
  }

  ghost predicate GateFits(s: KState, g: Gate, z: seq<TaskId>, p: nat) {
    g.After? ==> g.task in z && Due(s, g.task, p)
  }

  lemma {:induction false} FreedAgrees(s: KState, p: nat, c: KState, r: nat, z: seq<TaskId>, w: seq<TaskId>, g: Gate, u: int)
    requires Agree(s, p, c, r, z) && GateFits(c, g, z, r) && forall t :: t in w ==> t in z
    ensures Freed(c, w, g, u, r) == Freed(s, w, g, u, p)
    decreases w
  {
    if w != [] {
      var t := w[0];
      assert t in z;
      assert InTime(c, g, t, r) == InTime(s, g, t, p) && Behind(c, g, t, r) == Behind(s, g, t, p);
      FreedAgrees(s, p, c, r, z, w[1..], g, u - Req(s, t));
      FreedAgrees(s, p, c, r, z, w[1..], Behind(s, g, t, p), u);
    }
  }

  lemma Asymmetric(s: KState, a: TaskId, b: TaskId)
    requires Sooner(s, a, b)
    ensures !Sooner(s, b, a)
  {
  }

  lemma SoonerTotal(s: KState, a: TaskId, b: TaskId)
    requires a in Timed(s) && b in Timed(s) && a != b
    ensures Sooner(s, a, b) || Sooner(s, b, a)
  {
  }

  /** f is due before all the others. */
  ghost predicate Foremost(s: KState, f: TaskId, z: seq<TaskId>, p: nat) {
    Due(s, f, p) && forall a :: a in z && a != f && Due(s, a, p) ==> Sooner(s, f, a)
  }

  /** Where somebody is ahead of it that gets nothing, the first task to time out gets nothing and holds up nobody. */
  lemma {:induction false} ForemostSkipped(s: KState, f: TaskId, z: seq<TaskId>, w: seq<TaskId>, g: Gate, u: int, p: nat)
    requires Foremost(s, f, z, p) && (forall t :: t in w ==> t in z)
    requires GateFits(s, g, z, p) && g != Open && (g.After? ==> g.task != f)
    ensures Freed(s, w, g, u, p) == Freed(s, Without(w, f), g, u, p)
    ensures f !in Freed(s, w, g, u, p)
    decreases w
  {
    if w != [] {
      var t := w[0];
      assert t in z;
      if t == f {
        if g.After? { Asymmetric(s, f, g.task); }
        assert !InTime(s, g, f, p) && Behind(s, g, f, p) == g;
        ForemostSkipped(s, f, z, w[1..], g, u, p);
      } else {
        ForemostSkipped(s, f, z, w[1..], g, u - Req(s, t), p);
        ForemostSkipped(s, f, z, w[1..], Behind(s, g, t, p), u, p);
        assert Without(w, f) == [t] + Without(w[1..], f);
        assert ([t] + Without(w[1..], f))[1..] == Without(w[1..], f);
      }
    }
  }

  /* ---- one round of the run ---- */

  lemma TimeOutFirst(s: KState, f: TaskId, z: seq<TaskId>, p: nat)
    requires Core(s) && Timed(s) != [] && f == First(s) && s.tcb[f].delay <= p
    ensures Foremost(s, f, z, p)
  {
    hide Core, Sooner;
    assert f in Timed(s);
    forall a | a in z && a != f && Due(s, a, p) ensures Sooner(s, f, a) { FirstIsSoonest(s, a); }
  }

  /** Where the head asks for more than is left, serving a TA_FIRST queue does nothing. */
  lemma HeadHolds(m: KState, q: SemId, rest: seq<TaskId>)
    requires !m.sem[q].cntOrder && (rest != [] ==> Req(m, rest[0]) > m.sem[q].semcnt)
    ensures ServeFrom(m, q, rest) == m
  {
  }

  /** Nor does serving a TA_CNT queue on which nobody is held back. */
  lemma {:induction false} AllHold(m: KState, q: SemId, rest: seq<TaskId>)
    requires m.sem[q].cntOrder && forall t :: t in rest ==> Req(m, t) > m.sem[q].semcnt
    ensures ServeFrom(m, q, rest) == m
    decreases rest
  {
    if rest != [] { AllHold(m, q, rest[1..]); }
  }

  /** A grant to the head of a queue, and what the rest of the walk does. */
  lemma HeadServed(m: KState, q: SemId, rest: seq<TaskId>, g: KState)
    requires Core(m) && Waiters(m, SemQ(q)) == rest && !m.sem[q].cntOrder && rest != [] && Req(m, rest[0]) <= m.sem[q].semcnt
    requires g == Grant(m, q, rest[0])
    ensures Core(g) && Waiters(g, SemQ(q)) == rest[1..] && g.sem[q] == m.sem[q].(semcnt := m.sem[q].semcnt - Req(m, rest[0]))
    ensures (forall t: TaskId :: Req(g, t) == Req(m, t)) && rest[0] !in rest[1..]
    ensures ServeFrom(m, q, rest) == ServeFrom(g, q, rest[1..])
  {
    hide Core, Grant;
    CoreGives(m);
    assert NoDup(m.waits.Get(SemQ(q)));
    hide LinksOk, ObjectsOk, FreeOk, TaskOk, HistOk, Coherent;
    WithoutHead(rest, rest[0], true);
    GrantCore(m, q, rest[0]);
    GrantReqs(m, q, rest[0]);
    if g.sem[q].semcnt <= 0 {
      CoreGivesSem(g, q);
      HeadHolds(g, q, rest[1..]);
    }
  }

  /** The head f of a TA_FIRST queue times out: serving those behind it is the fold up to the first it does not serve. */
  lemma {:induction false} ServedByFold(s: KState, p: nat, f: TaskId, z: seq<TaskId>, q: SemId, m: KState, rest: seq<TaskId>)
    requires Core(m) && Waiters(m, SemQ(q)) == rest && !m.sem[q].cntOrder && Foremost(s, f, z, p)
    requires forall t :: t in rest ==> t in z && t != f && Req(m, t) == Req(s, t)
    ensures var c := ServeFrom(m, q, rest);
            && (forall t :: t in Waiters(c, SemQ(q)) ==> t in rest)
            && forall t :: t in rest ==>
                 (t in Freed(s, rest, After(f), m.sem[q].semcnt, p) <==>
                    t in Waiters(c, SemQ(q)) ==> t in Freed(s, Waiters(c, SemQ(q)), Open, c.sem[q].semcnt, p))
    decreases rest
  {
    hide Core, Grant;
    if rest != [] {
      var t, tail := rest[0], rest[1..];
      assert t in z && rest == [t] + tail;
      if Req(m, t) <= m.sem[q].semcnt {
        var g := Grant(m, q, t);
        HeadServed(m, q, rest, g);
        hide ServeFrom;
        forall a | a in tail ensures a in z && a != f && Req(g, a) == Req(s, a) { assert a in rest; }
        ServedByFold(s, p, f, z, q, g, tail);
      } else {
        HeadHolds(m, q, rest);
        assert Behind(s, After(f), t, p) == Behind(s, Open, t, p);
      }
    }
  }

  /** The queues and the requests after the ticks of a round are as before. */
  lemma ElapsedQueues(s: KState, d: nat)
    ensures var x := Elapse(s, d);
            && x.waits == s.waits && x.heads == s.heads && x.sem == s.sem && forall t: TaskId :: Req(x, t) == Req(s, t)
  {
  }

  /** A time-out of a task that does not wait at semaphore q. */
  lemma LeavesElsewhere(x: KState, f: TaskId, c: KState, q: SemId)
    requires Core(x) && Waiting(x, f) && c == CompleteWait(x, f, E_TMOUT) && f !in Waiters(x, SemQ(q))
    ensures Waiters(c, SemQ(q)) == Waiters(x, SemQ(q)) && c.sem[q] == x.sem[q]
  {
    hide Core, Ends;
    CoreGives(x);
    var m := Release(x, f, E_TMOUT);
    ReleaseCore(x, f, E_TMOUT);
    ReleaseLinks(x, f, E_TMOUT);
    WithoutAbsent(Waiters(x, SemQ(q)), f);
    if LeavesUnserved(x, f, E_TMOUT).Some? {
      var o := LeavesUnserved(x, f, E_TMOUT).value;
      assert o != q by {
        assert TaskOk(x, f);
        assert f in x.waits.Get(SemQ(o));
      }
      hide LinksOk, ObjectsOk, FreeOk, TaskOk, HistOk, Coherent, Release;
      ServeKeeps(m, o);
    }
  }

  /** A time-out of one that does: it leaves the queue, and the rest is served. */
  lemma LeavesQueue(x: KState, f: TaskId, c: KState, q: SemId, m: KState)
    requires Core(x) && c == CompleteWait(x, f, E_TMOUT) && f in Waiters(x, SemQ(q)) && m == Release(x, f, E_TMOUT)
    ensures Core(m) && Waiters(m, SemQ(q)) == Without(Waiters(x, SemQ(q)), f) && m.sem == x.sem
    ensures c == ServeFrom(m, q, Waiters(m, SemQ(q))) && forall t: TaskId :: Req(m, t) == Req(x, t)
  {
    hide Core, ServeFrom;
    CoreGives(x);
    SemWaiter(x, q, f);
    ReleaseCore(x, f, E_TMOUT);
    ReleaseLinks(x, f, E_TMOUT);
    hide LinksOk, ObjectsOk, FreeOk, TaskOk, HistOk, Coherent;
  }

  /** Those who wait after a round are in the same order, the same limits are reached, and nobody asks for anything else. */
  lemma RoundAgrees(s: KState, f: TaskId, d: nat, c: KState, p: nat, r: nat, q: SemId)
    requires Core(s) && Reaches(s, f, d, c) && Core(c) && p == d + r
    ensures Agree(s, p, c, r, Waiters(c, SemQ(q)))
  {
    hide Core, Reaches, Sooner, LinksOk;
    CoreLinks(c);
    var z := Waiters(c, SemQ(q));
    forall a | a in z ensures Req(c, a) == Req(s, a) && (Due(c, a, r) <==> Due(s, a, p)) {
      WaiterWaits(c, SemQ(q), a);
      StillWaits(s, f, d, c, a);
      if a in Timed(c) { RoundBack(s, f, d, c, a); }
    }
    forall a, b | a in z && b in z && Due(c, a, r) && Due(c, b, r) ensures Sooner(c, a, b) <==> Sooner(s, a, b) {
      if Sooner(c, a, b) {
        SoonerBack(s, f, d, c, a, b);
      } else if Sooner(s, a, b) {
        Asymmetric(s, a, b);
        SoonerTotal(c, a, b);
        SoonerBack(s, f, d, c, b, a);
      }
    }
  }

  /** f is not the head: those who hold out hold out, and the fold passes over f. */
  lemma HeadStays(s: KState, p: nat, f: TaskId, w: seq<TaskId>, u: int)
    requires w != [] && w[0] != f && Req(s, w[0]) > u && Foremost(s, f, w, p)
    ensures Freed(s, w, Open, u, p) == Freed(s, Without(w, f), Open, u, p) && f !in Freed(s, w, Open, u, p)
    ensures Without(w, f) != [] && Without(w, f)[0] == w[0]
  {
    hide Sooner, Foremost;
    var v := Without(w[1..], f);
    assert Without(w, f) == [w[0]] + v && ([w[0]] + v)[1..] == v;
    ForemostSkipped(s, f, w, w[1..], Behind(s, Open, w[0], p), u, p);
  }

  /** Whoever leaves the queue in a round but f is told by the fold, and the fold on the rest stays as it was. */
  ghost predicate RoundFits(s: KState, f: TaskId, c: KState, p: nat, r: nat, q: SemId) {
    forall t :: t in Waiters(s, SemQ(q)) ==>
      (t in Lucky(s, q, p) <==> if t in Waiters(c, SemQ(q)) then t in Lucky(c, q, r) else t != f)
  }

  lemma RoundElsewhere(s: KState, f: TaskId, d: nat, c: KState, p: nat, r: nat, q: SemId)
    requires Core(s) && Reaches(s, f, d, c) && p == d + r && f !in Waiters(s, SemQ(q))
    ensures RoundFits(s, f, c, p, r, q)
  {
    hide Core, Freed, Agree;
    ExpireStep(s, d);
    ElapsedQueues(s, d);
    LeavesElsewhere(Elapse(s, d), f, c, q);
    RoundAgrees(s, f, d, c, p, r, q);
    hide Elapse, CompleteWait;
    var w := Waiters(s, SemQ(q));
    FreedAgrees(s, p, c, r, w, w, Open, s.sem[q].semcnt);
  }

  lemma RoundCnt(s: KState, f: TaskId, d: nat, c: KState, p: nat, r: nat, q: SemId)
    requires Core(s) && Settled(s, q) && Reaches(s, f, d, c) && p == d + r && f in Waiters(s, SemQ(q)) && s.sem[q].cntOrder
    ensures RoundFits(s, f, c, p, r, q)
  {
    hide Core, Freed;
    ExpireStep(s, d);
    ElapsedQueues(s, d);
    var x := Elapse(s, d);
    var m := Release(x, f, E_TMOUT);
    LeavesQueue(x, f, c, q, m);
    AllHold(m, q, Waiters(m, SemQ(q)));
    hide Elapse, CompleteWait, Release;
    NoneFreed(s, Waiters(s, SemQ(q)), Open, s.sem[q].semcnt, p);
    NoneFreed(c, Waiters(c, SemQ(q)), Open, c.sem[q].semcnt, r);
  }

  lemma RoundBehindHead(s: KState, f: TaskId, d: nat, c: KState, p: nat, r: nat, q: SemId)
    requires Core(s) && Settled(s, q) && Reaches(s, f, d, c) && p == d + r && !s.sem[q].cntOrder
    requires f in Waiters(s, SemQ(q)) && Waiters(s, SemQ(q))[0] != f
    ensures RoundFits(s, f, c, p, r, q)
  {
    hide Core, Freed, Agree, Foremost;
    ExpireStep(s, d);
    ElapsedQueues(s, d);
    var x := Elapse(s, d);
    var m := Release(x, f, E_TMOUT);
    var w, u := Waiters(s, SemQ(q)), s.sem[q].semcnt;
    LeavesQueue(x, f, c, q, m);
    TimeOutFirst(s, f, w, p);
    HeadStays(s, p, f, w, u);
    HeadHolds(m, q, Waiters(m, SemQ(q)));
    RoundAgrees(s, f, d, c, p, r, q);
    hide Elapse, CompleteWait, Release, Reaches;
    FreedAgrees(s, p, c, r, Without(w, f), Without(w, f), Open, u);
  }

  lemma RoundHead(s: KState, f: TaskId, d: nat, c: KState, p: nat, r: nat, q: SemId)
    requires Core(s) && Settled(s, q) && Reaches(s, f, d, c) && p == d + r && !s.sem[q].cntOrder
    requires f in Waiters(s, SemQ(q)) && Waiters(s, SemQ(q))[0] == f
    ensures RoundFits(s, f, c, p, r, q)
  {
    hide Core, Agree, Foremost, ServeFrom;
    ExpireStep(s, d);
    ElapsedQueues(s, d);
    var x := Elapse(s, d);
    var m := Release(x, f, E_TMOUT);
    var w, u := Waiters(s, SemQ(q)), s.sem[q].semcnt;
    LeavesQueue(x, f, c, q, m);
    HeadFirst(s, w, f, q);
    TimeOutFirst(s, f, w, p);
    ServedByFold(s, p, f, w, q, m, w[1..]);
    RoundAgrees(s, f, d, c, p, r, q);
    var z := Waiters(c, SemQ(q));
    FreedAgrees(s, p, c, r, z, z, Open, c.sem[q].semcnt);
    HeadTimesOut(s, w, u, p);
    hide Elapse, CompleteWait, Release, Reaches, Freed;
  }

  lemma HeadFirst(s: KState, w: seq<TaskId>, f: TaskId, q: SemId)
    requires Core(s) && w == Waiters(s, SemQ(q)) && w != [] && w[0] == f
    ensures Without(w, f) == w[1..] && f !in w[1..]
  {
    CoreGives(s);
    assert NoDup(s.waits.Get(SemQ(q)));
    hide Core, LinksOk, ObjectsOk, FreeOk, TaskOk, HistOk, Coherent;
    WithoutHead(w, f, true);
  }

  /** The head times out and gets nothing; the gate behind it opens with that. */
  lemma HeadTimesOut(s: KState, w: seq<TaskId>, u: int, p: nat)
    requires w != [] && Req(s, w[0]) > u && Due(s, w[0], p) && w[0] !in w[1..]
    ensures Freed(s, w, Open, u, p) == Freed(s, w[1..], After(w[0]), u, p)
    ensures w[0] !in Freed(s, w, Open, u, p)
  {
    FreedWait(s, w[1..], After(w[0]), u, p);
  }

  lemma RoundForecast(s: KState, f: TaskId, d: nat, c: KState, p: nat, r: nat, q: SemId)
    requires Core(s) && Settled(s, q) && Reaches(s, f, d, c) && p == d + r
    ensures RoundFits(s, f, c, p, r, q)
  {
    hide Core, Reaches, Settled, RoundFits;
    if f !in Waiters(s, SemQ(q)) {
      RoundElsewhere(s, f, d, c, p, r, q);
    } else if s.sem[q].cntOrder {
      RoundCnt(s, f, d, c, p, r, q);
    } else if Waiters(s, SemQ(q))[0] != f {
      RoundBehindHead(s, f, d, c, p, r, q);
    } else {
      RoundHead(s, f, d, c, p, r, q);
    }
  }

  /* ---- the whole run ---- */

  /** Where no limit is reached nobody is served. */
  lemma NobodyDue(s: KState, q: SemId, p: nat)
    requires Settled(s, q) && forall t: TaskId :: !Due(s, t, p)
    ensures Lucky(s, q, p) == {}
  {
    var w, u := Waiters(s, SemQ(q)), s.sem[q].semcnt;
    if s.sem[q].cntOrder {
      NoneFreed(s, w, Open, u, p);
    } else if w != [] {
      NoneFreed(s, w[1..], Shut, u, p);
    }
  }

  /** A waiter that a round takes off the queue times out, or is handed its units. */
  lemma LeavesServed(s: KState, f: TaskId, d: nat, c: KState, q: SemId, t: TaskId)
    requires Core(s) && Reaches(s, f, d, c) && t in Waiters(s, SemQ(q)) && t !in Waiters(c, SemQ(q))
    ensures EndsWith(c, t, if t == f then E_TMOUT else E_OK)
  {
    hide Core, CompleteWait;
    ExpireStep(s, d);
    ElapsedQueues(s, d);
    var x := Elapse(s, d);
    CoreGives(s);
    CoreGives(c);
    assert t in x.waits.Get(SemQ(q)) && x.waits.at[t] == On(SemQ(q));
    assert c.waits.at[t] == On(SemQ(q)) ==> t in c.waits.Get(SemQ(q));
    assert SameOrEnded(x, c, t);
    hide LinksOk, ObjectsOk, FreeOk, TaskOk, HistOk, Coherent, Elapse;
    if t != f { OthersServed(x, f, E_TMOUT, c, t); }
  }

  /** A wait that is over stays over in the same way to the end of the run. */
  lemma OverStays(c: KState, r: nat, t: TaskId)
    requires Core(c) && c.tcb[t].tskstat == RDY
    ensures Expire(c, r).0.tcb[t] == c.tcb[t]
  {
    hide Core, Expire, LinksOk, ObjectsOk, FreeOk, HistOk, Coherent;
    ExpireAfter(c, r);
    CoreGives(c);
    assert TaskAfter(c, Expire(c, r).0, t, r) && TaskOk(c, t);
  }

  /** A run of p ticks hands units to exactly those waiters of a semaphore that the fold over its queue names. */
  lemma {:induction false} ForecastHolds(s: KState, p: nat, q: SemId, t: TaskId)
    requires Core(s) && Settled(s, q) && t in Waiters(s, SemQ(q))
    ensures EndsWith(Expire(s, p).0, t, E_OK) <==> t in Lucky(s, q, p)
    decreases |Timed(s)|
  {
    hide Core, Expire, Lucky, LinksOk, CompleteWait, Settled, RoundFits;
    if Timed(s) == [] || s.tcb[First(s)].delay > p {
      NoRound(s, p, q, t);
    } else {
      var f := First(s);
      var d := s.tcb[f].delay;
      var r: nat := p - d;
      var c := CompleteWait(Elapse(s, d), f, E_TMOUT);
      ExpireReaches(s, f, d, c, p, r);
      RoundForecast(s, f, d, c, p, r, q);
      RoundSettles(s, f, d, c, q);
      if t in Waiters(c, SemQ(q)) {
        ForecastHolds(c, r, q, t);
        FitsAt(s, f, c, p, r, q, t);
      } else {
        LeavesServed(s, f, d, c, q, t);
        OverStays(c, r, t);
        FitsAt(s, f, c, p, r, q, t);
      }
    }
  }

  lemma FitsAt(s: KState, f: TaskId, c: KState, p: nat, r: nat, q: SemId, t: TaskId)
    requires RoundFits(s, f, c, p, r, q) && t in Waiters(s, SemQ(q))
    ensures t in Lucky(s, q, p) <==> if t in Waiters(c, SemQ(q)) then t in Lucky(c, q, r) else t != f
  {
    hide Lucky;
  }

  lemma RoundSettles(s: KState, f: TaskId, d: nat, c: KState, q: SemId)
    requires Core(s) && Settled(s, q) && Reaches(s, f, d, c)
    ensures Settled(c, q)
  {
    hide Core, CompleteWait;
    ExpireStep(s, d);
    ElapsedQueues(s, d);
    assert Settled(Elapse(s, d), q);
    hide Elapse, Settled;
    CompleteWaitSettles(Elapse(s, d), f, E_TMOUT, q);
  }

  /** No limit is reached: nobody is served, and the queue stands. */
  lemma NoRound(s: KState, p: nat, q: SemId, t: TaskId)
    requires Core(s) && Settled(s, q) && t in Waiters(s, SemQ(q)) && (Timed(s) == [] || s.tcb[First(s)].delay > p)
    ensures !EndsWith(Expire(s, p).0, t, E_OK) && t !in Lucky(s, q, p)
  {
    hide Core, Lucky;
    CoreLinks(s);
    SemWaiter(s, q, t);
    hide LinksOk, Settled;
    if Timed(s) == [] {
      ExpireNothing(s, p);
    } else {
      forall a ensures !Due(s, a, p) {
        if a in Timed(s) { assert Timed(s)[Index(Timed(s), a)] == a; }
      }
      ExpireStops(s, p, Elapse(s, p));
    }
    NobodyDue(s, q, p);
  }
}
