/** The order in which one run of the timer handler ends waits. */
module TimerOrder {
  import opened Types
  import opened Rings
  import opened KernelState
  import opened KernelOps
  import opened Frames
  import opened WaitEnd
  import opened Timer
  import opened TimerRuns

  /** A wait that timed out in a run, and the tasks its departure handed units to. */
  datatype Expiry = Expiry(task: TaskId, handed: set<TaskId>)

  /** The time-outs of a run, in the order in which they are completed. */
  ghost function Expiries(s: KState, p: nat): seq<Expiry>
    requires Core(s)
    decreases |Timed(s)|
  {
    if Timed(s) == [] || s.tcb[First(s)].delay > p then []
    else
      var f := First(s);
      var d := s.tcb[f].delay;
      var x := Elapse(s, d);
      var c := CompleteWait(x, f, E_TMOUT);
      var r: nat := p - d;
      ExpireStep(s, d);
      [Expiry(f, HandedTo(x, c, f))] + Expiries(c, r)
  }

  /** One round of the log, as an equation. */
  lemma ExpiriesReach(s: KState, f: TaskId, d: nat, c: KState, p: nat, r: nat)
    requires Core(s) && Reaches(s, f, d, c) && p == d + r
    ensures Core(c) && Expiries(s, p) == [Expiry(f, HandedTo(Elapse(s, d), c, f))] + Expiries(c, r)
  {
    ExpireStep(s, d);
  }

  function HandedTo(x: KState, c: KState, f: TaskId): set<TaskId> {
    set w: TaskId | 0 <= w < CFN_MAX_TSKID && w != f && Waiting(x, w) && !Waiting(c, w)
  }

  /** a times out before b: its deadline is earlier, or it is the same and a is ahead on the timer queue. */
  predicate Sooner(s: KState, a: TaskId, b: TaskId) {
    && a in Timed(s) && b in Timed(s)
    && (s.tcb[a].delay < s.tcb[b].delay
        || (s.tcb[a].delay == s.tcb[b].delay && Index(Timed(s), a) < Index(Timed(s), b)))
  }

  /** A task the departure of f may hand units to: it waits for the same semaphore, without a limit or with one that
      is not earlier. */
  ghost predicate MayReceive(s: KState, f: TaskId, w: TaskId) {
    f in Timed(s) && Waiting(s, w) && SameSem(s, f, w) && (w in Timed(s) ==> s.tcb[f].delay <= s.tcb[w].delay)
  }

  /** What the log of a run says: time-outs in the order of their deadlines, ties in queue order, and units handed
      only to tasks whose own deadline is not earlier. */
  ghost predicate LogOk(s: KState, l: seq<Expiry>, p: nat) {
    && (forall k :: 0 <= k < |l| ==> l[k].task in Timed(s) && s.tcb[l[k].task].delay <= p)
    && (forall i, j :: 0 <= i < j < |l| ==> Sooner(s, l[i].task, l[j].task))
    && (forall k, w :: 0 <= k < |l| && w in l[k].handed ==> MayReceive(s, l[k].task, w))
  }

  /** The first deadline is sooner than any other on the timer queue. */
  lemma FirstIsSoonest(s: KState, t: TaskId)
    requires Core(s) && t in Timed(s) && t != First(s)
    ensures Sooner(s, First(s), t)
  {
    var q := Timed(s);
    var i := FirstAt(s.tcb, q);
    assert NoDup(s.heads.Get(TimerQ));
    IndexUnique(q, i);
    var j := Index(q, t);
    assert s.tcb[q[i]].delay <= s.tcb[q[j]].delay;
    if j < i { assert s.tcb[q[i]].delay < s.tcb[q[j]].delay; }
  }

  /** A task still on the timer queue after a round was there before it, d ticks further from its deadline. */
  lemma RoundBack(s: KState, f: TaskId, d: nat, c: KState, t: TaskId)
    requires Core(s) && Reaches(s, f, d, c) && t in Timed(c)
    ensures t in Timed(s) && t != f && s.tcb[t].delay == c.tcb[t].delay + d
  {
    ExpireStep(s, d);
    CoreLinks(c);
    hide Core, LinksOk, CompleteWait;
    TimedWaits(c, t);
    assert SameOrEnded(Elapse(s, d), c, t);
    RoundTimed(s, d, t, c);
  }

  lemma RoundTimed(s: KState, d: nat, t: TaskId, c: KState)
    requires Core(s) && Core(c) && Timed(s) != [] && d == s.tcb[First(s)].delay && t in Timed(c)
    requires var x := Elapse(s, d); c.tcb[t] == x.tcb[t] && c.heads.at[t] == x.heads.at[t]
    ensures t in Timed(s) && s.tcb[t].delay == c.tcb[t].delay + d
  {
    hide Core, LinksOk, TaskOk, ObjectsOk, FreeOk;
    CoreGives(s);
    CoreGives(c);
    assert t in c.heads.Get(TimerQ);
    ElapsedTask(s, d, t);
    assert t in s.heads.Get(TimerQ) <==> s.heads.at[t] == On(TimerQ);
  }

  lemma SoonerBack(s: KState, f: TaskId, d: nat, c: KState, a: TaskId, b: TaskId)
    requires Core(s) && Reaches(s, f, d, c) && Sooner(c, a, b)
    ensures Sooner(s, a, b)
  {
    ExpireStep(s, d);
    RoundBack(s, f, d, c, a);
    RoundBack(s, f, d, c, b);
    assert Thinner(Timed(c), Timed(Elapse(s, d))) && Timed(Elapse(s, d)) == Timed(s);
  }

  lemma ReceiveBack(s: KState, f: TaskId, d: nat, c: KState, a: TaskId, w: TaskId)
    requires Core(s) && Reaches(s, f, d, c) && MayReceive(c, a, w)
    ensures MayReceive(s, a, w)
  {
    ExpireStep(s, d);
    TimedWaits(c, a);
    RoundBack(s, f, d, c, a);
    StillWaits(s, f, d, c, a);
    StillWaits(s, f, d, c, w);
    if w in Timed(s) { RoundBack(s, f, d, c, w); }
    hide Core, Reaches;
  }

  lemma TimedWaits(s: KState, t: TaskId)
    requires LinksOk(s) && t in Timed(s)
    ensures Waiting(s, t)
  {
    assert t in s.heads.Get(TimerQ) && TaskOk(s, t);
  }

  /** A task that waits after a round waited before it, for the same thing, with or without a limit. */
  lemma StillWaits(s: KState, f: TaskId, d: nat, c: KState, w: TaskId)
    requires Core(s) && Reaches(s, f, d, c) && Waiting(c, w)
    ensures Waiting(s, w) && s.tcb[w].tskwait == c.tcb[w].tskwait && s.tcb[w].winfo == c.tcb[w].winfo
    ensures w in Timed(s) <==> w in Timed(c)
  {
    ExpireStep(s, d);
    assert SameOrEnded(Elapse(s, d), c, w);
    ElapsedTask(s, d, w);
    assert w in c.heads.Get(TimerQ) <==> c.heads.at[w] == On(TimerQ);
    assert w in s.heads.Get(TimerQ) <==> s.heads.at[w] == On(TimerQ);
  }

  lemma FirstReceives(s: KState, f: TaskId, d: nat, c: KState, w: TaskId)
    requires Core(s) && Reaches(s, f, d, c) && w in HandedTo(Elapse(s, d), c, f)
    ensures MayReceive(s, f, w)
  {
    ExpireStep(s, d);
    OthersServed(Elapse(s, d), f, E_TMOUT, c, w);
    ElapsedTask(s, d, w);
    ElapsedTask(s, d, f);
    if w in Timed(s) {
      assert Timed(s)[Index(Timed(s), w)] == w;
    }
  }

  /** In one handler run waits time out in the order of their deadlines, with ties in the order of the timer queue,
      and a departing semaphore waiter hands no units to a task whose own deadline is earlier than its own. */
  lemma {:induction false} ExpiriesInOrder(s: KState, p: nat)
    requires Core(s)
    ensures LogOk(s, Expiries(s, p), p)
    decreases |Timed(s)|
  {
    if Timed(s) != [] && s.tcb[First(s)].delay <= p {
      var f := First(s);
      var d := s.tcb[f].delay;
      var c := CompleteWait(Elapse(s, d), f, E_TMOUT);
      var r: nat := p - d;
      ExpireStep(s, d);
      ExpiriesReach(s, f, d, c, p, r);
      ExpiriesInOrder(c, r);
      PrependExpiry(s, f, d, c, Expiries(c, r), r, p);
    }
  }

  lemma FirstBeforeRest(s: KState, f: TaskId, d: nat, c: KState, l: seq<Expiry>, r: nat, j: nat)
    requires Core(s) && Reaches(s, f, d, c) && LogOk(c, l, r) && j < |l|
    ensures Sooner(s, f, l[j].task)
  {
    RoundBack(s, f, d, c, l[j].task);
    FirstIsSoonest(s, l[j].task);
  }

  lemma RestInOrder(s: KState, f: TaskId, d: nat, c: KState, l: seq<Expiry>, r: nat, i: nat, j: nat)
    requires Core(s) && Reaches(s, f, d, c) && LogOk(c, l, r) && i < j < |l|
    ensures Sooner(s, l[i].task, l[j].task)
  {
    SoonerBack(s, f, d, c, l[i].task, l[j].task);
  }

  lemma OrderCons(s: KState, n: seq<Expiry>, l: seq<Expiry>)
    requires |n| == |l| + 1 && n[1..] == l
    requires forall j: nat :: j < |l| ==> Sooner(s, n[0].task, l[j].task)
    requires forall i: nat, j: nat :: i < j < |l| ==> Sooner(s, l[i].task, l[j].task)
    ensures forall i, j :: 0 <= i < j < |n| ==> Sooner(s, n[i].task, n[j].task)
  {
    forall i, j | 0 <= i < j < |n| ensures Sooner(s, n[i].task, n[j].task) {
      var j': nat := j - 1;
      assert n[j] == l[j'];
      if i > 0 {
        var i': nat := i - 1;
        assert n[i] == l[i'];
      }
    }
  }

  lemma PrependOrder(s: KState, f: TaskId, d: nat, c: KState, l: seq<Expiry>, r: nat, n: seq<Expiry>)
    requires Core(s) && Reaches(s, f, d, c) && LogOk(c, l, r) && |n| == |l| + 1 && n[0].task == f && n[1..] == l
    ensures forall i, j :: 0 <= i < j < |n| ==> Sooner(s, n[i].task, n[j].task)
  {
    forall j: nat | j < |l| ensures Sooner(s, f, l[j].task) { FirstBeforeRest(s, f, d, c, l, r, j); }
    forall i: nat, j: nat | i < j < |l| ensures Sooner(s, l[i].task, l[j].task) { RestInOrder(s, f, d, c, l, r, i, j); }
    OrderCons(s, n, l);
  }

  lemma PrependExpiry(s: KState, f: TaskId, d: nat, c: KState, l: seq<Expiry>, r: nat, p: nat)
    requires Core(s) && Reaches(s, f, d, c) && p == d + r && LogOk(c, l, r)
    ensures LogOk(s, [Expiry(f, HandedTo(Elapse(s, d), c, f))] + l, p)
  {
    var h := HandedTo(Elapse(s, d), c, f);
    var n := [Expiry(f, h)] + l;
    PrependOrder(s, f, d, c, l, r, n);
    forall k | 0 <= k < |l| ensures l[k].task in Timed(s) && s.tcb[l[k].task].delay <= p {
      RoundBack(s, f, d, c, l[k].task);
    }
    forall w | w in h ensures MayReceive(s, f, w) { FirstReceives(s, f, d, c, w); }
    forall k, w | 0 <= k < |l| && w in l[k].handed ensures MayReceive(s, l[k].task, w) {
      ReceiveBack(s, f, d, c, l[k].task, w);
    }
    LogCons(s, n, p);
  }

  lemma LogCons(s: KState, n: seq<Expiry>, p: nat)
    requires n != []
    requires forall i, j :: 0 <= i < j < |n| ==> Sooner(s, n[i].task, n[j].task)
    requires n[0].task in Timed(s) && s.tcb[n[0].task].delay <= p && forall w :: w in n[0].handed ==> MayReceive(s, n[0].task, w)
    requires var l := n[1..];
             && (forall k :: 0 <= k < |l| ==> l[k].task in Timed(s) && s.tcb[l[k].task].delay <= p)
             && (forall k, w :: 0 <= k < |l| && w in l[k].handed ==> MayReceive(s, l[k].task, w))
    ensures LogOk(s, n, p)
  {
    var l := n[1..];
    forall k | 0 <= k < |n| ensures n[k].task in Timed(s) && s.tcb[n[k].task].delay <= p {
      if k > 0 { assert n[k] == l[k - 1]; }
    }
    forall k, w | 0 <= k < |n| && w in n[k].handed ensures MayReceive(s, n[k].task, w) {
      if k > 0 { assert n[k] == l[k - 1]; }
    }
  }

  /** The log is complete: the run ends exactly the waits in it, the time-outs with E_TMOUT and the others with E_OK. */
  ghost predicate LogComplete(s: KState, l: seq<Expiry>, e: KState) {
    forall t: TaskId :: Waiting(s, t) && !Waiting(e, t) ==>
      if TimedOut(l, t) then e.tcb[t].wupcause == E_TMOUT else e.tcb[t].wupcause == E_OK && WasHanded(l, t)
  }

  ghost predicate TimedOut(l: seq<Expiry>, t: TaskId) {
    exists k :: 0 <= k < |l| && l[k].task == t
  }

  ghost predicate WasHanded(l: seq<Expiry>, t: TaskId) {
    exists k :: 0 <= k < |l| && t in l[k].handed
  }

  lemma {:induction false} ExpiriesComplete(s: KState, p: nat)
    requires Core(s)
    ensures LogComplete(s, Expiries(s, p), Expire(s, p).0)
    decreases |Timed(s)|
  {
    if Timed(s) != [] {
      var f := First(s);
      var d := s.tcb[f].delay;
      if d <= p {
        var c := CompleteWait(Elapse(s, d), f, E_TMOUT);
        var r: nat := p - d;
        ExpireReaches(s, f, d, c, p, r);
        assert Expire(s, p) == (Expire(c, r).0, true);
        ExpiriesReach(s, f, d, c, p, r);
        ExpiriesComplete(c, r);
        ExpireAfter(c, r);
        ExpiriesInOrder(c, r);
        PrependComplete(s, f, d, c, Expiries(c, r), Expire(c, r).0, r);
      } else {
        ExpireStops(s, p, Elapse(s, p));
      }
    }
  }

  /** One waiting task through a round and the rest of the run, against the log n of both. */
  lemma EntryFits(x: KState, c: KState, e: KState, f: TaskId, t: TaskId, l: seq<Expiry>, n: seq<Expiry>, h: set<TaskId>)
    requires n == [Expiry(f, h)] + l && h == HandedTo(x, c, f) && Waiting(x, t) && !Waiting(e, t)
    requires Waiting(c, t) ==> t != f && if TimedOut(l, t) then e.tcb[t].wupcause == E_TMOUT else e.tcb[t].wupcause == E_OK && WasHanded(l, t)
    requires !Waiting(c, t) ==>
               && e.tcb[t] == c.tcb[t] && !TimedOut(l, t)
               && c.tcb[t].wupcause == if t == f then E_TMOUT else E_OK
    ensures if TimedOut(n, t) then e.tcb[t].wupcause == E_TMOUT else e.tcb[t].wupcause == E_OK && WasHanded(n, t)
  {
    assert n[0] == Expiry(f, h) && n[1..] == l;
    assert TimedOut(n, t) == (t == f || TimedOut(l, t)) by {
      forall k | 0 <= k < |n| && n[k].task == t ensures t == f || TimedOut(l, t) {
        if k > 0 { assert l[k - 1] == n[k]; }
      }
      if TimedOut(l, t) {
        var k :| 0 <= k < |l| && l[k].task == t;
        assert n[k + 1].task == t;
      }
    }
    if WasHanded(l, t) {
      var k :| 0 <= k < |l| && t in l[k].handed;
      assert t in n[k + 1].handed;
    }
  }

  lemma PrependComplete(s: KState, f: TaskId, d: nat, c: KState, l: seq<Expiry>, e: KState, r: nat)
    requires Core(s) && Reaches(s, f, d, c) && Core(c) && AfterTicks(c, e, r)
    requires LogComplete(c, l, e) && LogOk(c, l, r)
    ensures LogComplete(s, [Expiry(f, HandedTo(Elapse(s, d), c, f))] + l, e)
  {
    var x := Elapse(s, d);
    var h := HandedTo(x, c, f);
    var n := [Expiry(f, h)] + l;
    ExpireStep(s, d);
    CompleteCauses(x, f);
    forall t: TaskId | Waiting(s, t) && !Waiting(e, t)
      ensures if TimedOut(n, t) then e.tcb[t].wupcause == E_TMOUT else e.tcb[t].wupcause == E_OK && WasHanded(n, t)
    {
      ElapsedTask(s, d, t);
      if !Waiting(c, t) { EndedStays(c, e, t, r, l); }
      EntryFits(x, c, e, f, t, l, n, h);
    }
  }

  lemma EndedStays(c: KState, e: KState, t: TaskId, r: nat, l: seq<Expiry>)
    requires Core(c) && AfterTicks(c, e, r) && LogOk(c, l, r) && !Waiting(c, t)
    ensures e.tcb[t] == c.tcb[t] && !TimedOut(l, t)
  {
    assert TaskAfter(c, e, t, r) && TaskOk(c, t);
    assert t !in Timed(c);
  }

  /* ---- the order on the ready queues ---- */

  /** The tasks of one time-out: the one whose limit was reached, and those it made way for. */
  predicate InEntry(x: Expiry, t: TaskId) {
    t == x.task || t in x.handed
  }

  /** a becomes ready before b: in an earlier time-out, or as the one that makes way for b. */
  predicate LoggedBefore(l: seq<Expiry>, a: TaskId, b: TaskId, i: nat, j: nat)
    requires i <= j < |l|
  {
    && InEntry(l[i], a) && InEntry(l[j], b)
    && (i < j || (a == l[i].task && b != a))
  }

  /** The newcomers of each ready queue stand in the order of the log. */
  ghost predicate QueuesInLogOrder(l: seq<Expiry>, e: KState) {
    forall p: Pri, i: nat, j: nat, a: TaskId, b: TaskId ::
      i <= j < |l| && LoggedBefore(l, a, b, i, j) && a in ReadyAt(e, p) && b in ReadyAt(e, p) ==>
        Index(ReadyAt(e, p), a) < Index(ReadyAt(e, p), b)
  }

  lemma {:induction false} IndexIsFirst<T(!new)>(q: seq<T>, x: T, k: nat)
    requires k < |q| && q[k] == x
    ensures Index(q, x) <= k
  {
    if q[0] != x { IndexIsFirst(q[1..], x, k - 1); }
  }

  /** Whoever is on a queue comes before whoever is on it only once it has grown. */
  lemma GrownBehind<T(!new)>(a: seq<T>, b: seq<T>, x: T, y: T)
    requires a <= b && x in a && y in b && y !in a
    ensures Index(b, x) < Index(b, y)
  {
    var k := Index(a, x);
    IndexIsFirst(b, x, k);
    assert b[..|a|] == a && b[Index(b, y)] == y;
  }

  /** The departure of f puts f on its ready queue first, and then those it makes way for. */
  lemma DepartsFirst(x: KState, f: TaskId, c: KState, b: TaskId, p: Pri)
    requires Core(x) && Waiting(x, f) && c == CompleteWait(x, f, E_TMOUT) && b in HandedTo(x, c, f)
    requires Core(c) && f in ReadyAt(c, p) && b in ReadyAt(c, p)
    ensures Index(ReadyAt(c, p), f) < Index(ReadyAt(c, p), b)
  {
    var r := Release(x, f, E_TMOUT);
    ReleaseCore(x, f, E_TMOUT);
    CoreLinks(r);
    CoreLinks(c);
    hide Core, LinksOk, CompleteWait;
    CompleteGrows(x, f, c, p);
    StaysReadyAt(x, f, c);
    OnOwnQueue(c, f, p);
    OnOwnQueue(r, f, p);
    OnOwnQueue(r, b, p);
    GrownBehind(ReadyAt(r, p), ReadyAt(c, p), f, b);
  }

  lemma CompleteGrows(x: KState, f: TaskId, c: KState, p: Pri)
    requires Core(x) && Waiting(x, f) && c == CompleteWait(x, f, E_TMOUT)
    ensures ReadyAt(Release(x, f, E_TMOUT), p) <= ReadyAt(c, p)
  {
    ReleaseCore(x, f, E_TMOUT);
    if LeavesUnserved(x, f, E_TMOUT).Some? {
      ServeKeeps(Release(x, f, E_TMOUT), LeavesUnserved(x, f, E_TMOUT).value);
    }
  }

  lemma StaysReadyAt(x: KState, f: TaskId, c: KState)
    requires Core(x) && Waiting(x, f) && c == CompleteWait(x, f, E_TMOUT)
    ensures c.tcb[f].itskpri == x.tcb[f].itskpri
  {
    CompleteWaitKeeps(x, f, E_TMOUT);
    assert SameOrEnded(x, c, f);
  }

  lemma OnOwnQueue(s: KState, t: TaskId, p: Pri)
    requires LinksOk(s)
    ensures t in ReadyAt(s, p) <==> Runnable(s, t) && p == s.tcb[t].itskpri
  {
    assert TaskOk(s, t);
    assert t in s.heads.Get(ReadyQ(p)) <==> s.heads.at[t] == On(ReadyQ(p));
  }

  /** A round before the rest of the run: newcomers of the round are on the queues before those of the rest. */
  lemma RoundBefore(x: KState, f: TaskId, c: KState, e: KState, r: nat, l: seq<Expiry>, a: TaskId, b: TaskId, p: Pri)
    requires LinksOk(c) && LinksOk(e) && AfterTicks(c, e, r) && a in ReadyAt(e, p) && b in ReadyAt(e, p)
    requires Runnable(c, a) && Waiting(c, b)
    ensures Index(ReadyAt(e, p), a) < Index(ReadyAt(e, p), b)
  {
    assert TaskAfter(c, e, a, r) && ReadyAt(c, p) <= ReadyAt(e, p);
    assert TaskOk(c, a);
    hide LinksOk;
    OnOwnQueue(e, a, p);
    OnOwnQueue(c, a, p);
    OnOwnQueue(c, b, p);
    GrownBehind(ReadyAt(c, p), ReadyAt(e, p), a, b);
  }

  /** Two newcomers of one round keep the order of the round. */
  lemma RoundKeeps(c: KState, e: KState, r: nat, a: TaskId, b: TaskId, p: Pri)
    requires LinksOk(c) && LinksOk(e) && AfterTicks(c, e, r) && a in ReadyAt(e, p) && b in ReadyAt(e, p)
    requires Runnable(c, a) && Runnable(c, b)
    requires a in ReadyAt(c, p) && b in ReadyAt(c, p) ==> Index(ReadyAt(c, p), a) < Index(ReadyAt(c, p), b)
    ensures Index(ReadyAt(e, p), a) < Index(ReadyAt(e, p), b)
  {
    assert TaskAfter(c, e, a, r) && TaskAfter(c, e, b, r) && ReadyAt(c, p) <= ReadyAt(e, p);
    assert TaskOk(c, a) && TaskOk(c, b);
    hide LinksOk;
    OnOwnQueue(e, a, p);
    OnOwnQueue(e, b, p);
    OnOwnQueue(c, a, p);
    OnOwnQueue(c, b, p);
    SameIndex(ReadyAt(c, p), ReadyAt(e, p), a);
    SameIndex(ReadyAt(c, p), ReadyAt(e, p), b);
  }

  lemma {:induction false} SameIndex<T(!new)>(a: seq<T>, b: seq<T>, x: T)
    requires a <= b && x in a
    ensures Index(b, x) == Index(a, x)
  {
    if a[0] != x { SameIndex(a[1..], b[1..], x); }
  }

  lemma EntryReady(x: KState, f: TaskId, c: KState, a: TaskId)
    requires Core(x) && Waiting(x, f) && c == CompleteWait(x, f, E_TMOUT) && InEntry(Expiry(f, HandedTo(x, c, f)), a)
    ensures Runnable(c, a)
  {
    CompleteWaitKeeps(x, f, E_TMOUT);
    assert SameOrEnded(x, c, a);
  }

  lemma EntryWaits(c: KState, l: seq<Expiry>, r: nat, j: nat, b: TaskId)
    requires LinksOk(c) && LogOk(c, l, r) && j < |l| && InEntry(l[j], b)
    ensures Waiting(c, b)
  {
    if b == l[j].task { TimedWaits(c, b); } else { assert MayReceive(c, l[j].task, b); }
  }

  /** Two newcomers of which the first belongs to the round. */
  lemma RoundFirst(x: KState, f: TaskId, c: KState, e: KState, r: nat, l: seq<Expiry>, j: nat, a: TaskId, b: TaskId, p: Pri)
    requires Core(x) && Waiting(x, f) && c == CompleteWait(x, f, E_TMOUT) && Core(c) && Core(e) && AfterTicks(c, e, r)
    requires LogOk(c, l, r) && a in ReadyAt(e, p) && b in ReadyAt(e, p) && InEntry(Expiry(f, HandedTo(x, c, f)), a)
    requires if j > 0 then j <= |l| && InEntry(l[j - 1], b) else a == f && b in HandedTo(x, c, f)
    ensures Index(ReadyAt(e, p), a) < Index(ReadyAt(e, p), b)
  {
    hide Core, LinksOk, AfterTicks, LogOk, CompleteWait, Index, HandedTo, ReadyAt, Waiting, Runnable;
    CoreLinks(c);
    CoreLinks(e);
    EntryReady(x, f, c, a);
    if j > 0 {
      EntryWaits(c, l, r, j - 1, b);
      RoundBefore(x, f, c, e, r, l, a, b, p);
    } else {
      EntryReady(x, f, c, b);
      if a in ReadyAt(c, p) && b in ReadyAt(c, p) { DepartsFirst(x, f, c, b, p); }
      RoundKeeps(c, e, r, a, b, p);
    }
  }

  lemma PrependQueues(x: KState, f: TaskId, c: KState, e: KState, r: nat, l: seq<Expiry>, n: seq<Expiry>)
    requires Core(x) && Waiting(x, f) && c == CompleteWait(x, f, E_TMOUT) && Core(c) && Core(e) && AfterTicks(c, e, r)
    requires LogOk(c, l, r) && QueuesInLogOrder(l, e) && n == [Expiry(f, HandedTo(x, c, f))] + l
    ensures QueuesInLogOrder(n, e)
  {
    hide Core, AfterTicks, LogOk, CompleteWait, Index, Waiting, HandedTo;
    forall p: Pri, i: nat, j: nat, a: TaskId, b: TaskId |
      i <= j < |n| && LoggedBefore(n, a, b, i, j) && a in ReadyAt(e, p) && b in ReadyAt(e, p)
      ensures Index(ReadyAt(e, p), a) < Index(ReadyAt(e, p), b)
    {
      assert j > 0 ==> n[j] == l[j - 1];
      if i > 0 {
        assert n[i] == l[i - 1];
        assert LoggedBefore(l, a, b, i - 1, j - 1);
      } else {
        RoundFirst(x, f, c, e, r, l, j, a, b, p);
      }
    }
  }

  /** The log is the order in which the run makes tasks ready: on each ready queue its newcomers stand in that order. */
  lemma {:induction false} QueuesFollowLog(s: KState, p: nat)
    requires Core(s)
    ensures QueuesInLogOrder(Expiries(s, p), Expire(s, p).0)
    decreases |Timed(s)|
  {
    if Timed(s) != [] && s.tcb[First(s)].delay <= p {
      var f := First(s);
      var d := s.tcb[f].delay;
      var x := Elapse(s, d);
      var c := CompleteWait(x, f, E_TMOUT);
      var r: nat := p - d;
      ExpireStep(s, d);
      ExpireReaches(s, f, d, c, p, r);
      assert Expire(s, p) == (Expire(c, r).0, true);
      ExpiriesReach(s, f, d, c, p, r);
      QueuesFollowLog(c, r);
      ExpireAfter(c, r);
      ExpiriesInOrder(c, r);
      PrependQueues(x, f, c, Expire(c, r).0, r, Expiries(c, r), Expiries(s, p));
    }
  }
}
