/** Where the units of a semaphore go: whatever step hands out units, the count is down by exactly what the tasks it
    served asked for. */
module Units {
  import opened Types
  import opened KernelState
  import opened KernelOps
  import opened Frames
  import opened WaitEnd
  import opened Timer
  import opened TimerRuns
  import opened SemCalls
  import opened Objects

  /** The units of q that t got between s and r: what it asked for, if its wait at q ended with E_OK. */
  function GotBy(s: KState, r: KState, q: SemId, t: TaskId): int {
    if t in Waiters(s, SemQ(q)) && !Waiting(r, t) && r.tcb[t].wupcause == E_OK then Req(s, t) else 0
  }

  /** The units that the first n tasks got. */
  function Got(s: KState, r: KState, q: SemId, n: nat): int
    requires n <= CFN_MAX_TSKID
  {
    if n == 0 then 0 else Got(s, r, q, n - 1) + GotBy(s, r, q, n - 1)
  }

  /** Between s and r units of q went from the count to the tasks served, and nowhere else. */
  predicate UnitsMoved(s: KState, r: KState, q: SemId) {
    s.sem[q].semcnt == r.sem[q].semcnt + Got(s, r, q, CFN_MAX_TSKID)
  }

  lemma {:induction false} GotAdds(s: KState, m: KState, r: KState, q: SemId, n: nat)
    requires n <= CFN_MAX_TSKID && forall t: TaskId :: GotBy(s, r, q, t) == GotBy(s, m, q, t) + GotBy(m, r, q, t)
    ensures Got(s, r, q, n) == Got(s, m, q, n) + Got(m, r, q, n)
  {
    if n > 0 { GotAdds(s, m, r, q, n - 1); }
  }

  lemma {:induction false} GotSame(s: KState, r: KState, s': KState, r': KState, q: SemId, n: nat)
    requires n <= CFN_MAX_TSKID && forall t: TaskId :: GotBy(s, r, q, t) == GotBy(s', r', q, t)
    ensures Got(s, r, q, n) == Got(s', r', q, n)
  {
    if n > 0 { GotSame(s, r, s', r', q, n - 1); }
  }

  lemma {:induction false} GotOne(s: KState, r: KState, q: SemId, f: TaskId, n: nat)
    requires n <= CFN_MAX_TSKID && forall t: TaskId :: t != f ==> GotBy(s, r, q, t) == 0
    ensures Got(s, r, q, n) == if f < n then GotBy(s, r, q, f) else 0
  {
    if n > 0 { GotOne(s, r, q, f, n - 1); }
  }

  /** Nobody was served. */
  lemma NoneMoved(s: KState, r: KState, q: SemId)
    requires r.sem[q].semcnt == s.sem[q].semcnt && forall t: TaskId :: GotBy(s, r, q, t) == 0
    ensures UnitsMoved(s, r, q)
  {
    GotOne(s, r, q, 0, CFN_MAX_TSKID);
  }

  lemma MovedTransitive(s: KState, m: KState, r: KState, q: SemId)
    requires UnitsMoved(s, m, q) && UnitsMoved(m, r, q) && Onward(s, m, r)
    requires forall t :: t in Waiters(m, SemQ(q)) ==> Req(m, t) == Req(s, t) && Waiting(m, t)
    ensures UnitsMoved(s, r, q)
  {
    forall t: TaskId ensures GotBy(s, r, q, t) == GotBy(s, m, q, t) + GotBy(m, r, q, t) { }
    GotAdds(s, m, r, q, CFN_MAX_TSKID);
  }

  lemma WaitersAsk(s: KState, m: KState, q: SemId)
    requires LinksOk(m) && Ends(s, m)
    ensures forall t :: t in Waiters(m, SemQ(q)) ==> Req(m, t) == Req(s, t) && Waiting(m, t)
  {
    forall t | t in Waiters(m, SemQ(q)) ensures Req(m, t) == Req(s, t) && Waiting(m, t) {
      SemWaiter(m, q, t);
      assert SameOrEnded(s, m, t);
    }
  }

  lemma GrantMoves(s: KState, q: SemId, t: TaskId)
    requires Core(s) && t in Waiters(s, SemQ(q)) && s.sem[q].semcnt >= Req(s, t)
    ensures UnitsMoved(s, Grant(s, q, t), q)
  {
    var g := Grant(s, q, t);
    forall u: TaskId | u != t ensures GotBy(s, g, q, u) == 0 {
      if u in Waiters(s, SemQ(q)) { SemWaiter(s, q, u); }
    }
    GotOne(s, g, q, t, CFN_MAX_TSKID);
  }

  /** Serving gives each task that leaves what it asked for, and takes just that from the count. */
  lemma {:induction false} ServeMoves(s: KState, q: SemId, rest: seq<TaskId>)
    requires Core(s) && Passed(s, q, rest)
    ensures UnitsMoved(s, ServeFrom(s, q, rest), q)
    decreases rest
  {
    if rest == [] || s.sem[q].semcnt < Req(s, rest[0]) {
      NoOneServed(s, q);
      if rest != [] && s.sem[q].cntOrder { ServeMoves(s, q, rest[1..]); }
    } else {
      var g := Grant(s, q, rest[0]);
      GrantMoves(s, q, rest[0]);
      GrantKeepsPassed(s, q, rest, rest[0]);
      if g.sem[q].semcnt > 0 {
        ServeMoves(g, q, rest[1..]);
        GrantThenServe(s, q, rest, g, ServeFrom(g, q, rest[1..]));
      }
    }
  }

  lemma NoOneServed(s: KState, q: SemId)
    requires LinksOk(s)
    ensures UnitsMoved(s, s, q)
  {
    forall t: TaskId ensures GotBy(s, s, q, t) == 0 {
      if t in Waiters(s, SemQ(q)) { SemWaiter(s, q, t); }
    }
    NoneMoved(s, s, q);
  }

  lemma GrantThenServe(s: KState, q: SemId, rest: seq<TaskId>, g: KState, r: KState)
    requires Core(s) && Passed(s, q, rest) && rest != [] && s.sem[q].semcnt >= Req(s, rest[0])
    requires g == Grant(s, q, rest[0]) && Core(g) && Passed(g, q, rest[1..]) && r == ServeFrom(g, q, rest[1..])
    requires UnitsMoved(s, g, q) && UnitsMoved(g, r, q)
    ensures UnitsMoved(s, r, q)
  {
    hide Core, Passed, ServeFrom, Ends, ServeEffect, UnitsMoved;
    GrantedEnds(s, q, rest);
    ServedEnds(g, q, rest[1..]);
    hide Grant;
    CoreLinks(g);
    EndsOnward(s, g, r);
    WaitersAsk(s, g, q);
    MovedTransitive(s, g, r, q);
  }

  lemma GrantedEnds(s: KState, q: SemId, rest: seq<TaskId>)
    requires Core(s) && Passed(s, q, rest) && rest != [] && s.sem[q].semcnt >= Req(s, rest[0])
    ensures Ends(s, Grant(s, q, rest[0]))
  {
    hide Core, Ends, Grant;
    GrantCore(s, q, rest[0]);
  }

  lemma ServedEnds(s: KState, q: SemId, rest: seq<TaskId>)
    requires Core(s) && Passed(s, q, rest)
    ensures Ends(s, ServeFrom(s, q, rest))
  {
    hide Core, Passed, Ends;
    ServeFromKeeps(s, q, rest);
  }

  /** A wait that ends by force or by its limit: its own task gets nothing, those behind it what they asked for. */
  lemma CompleteMoves(s: KState, f: TaskId, cause: ER, q: SemId)
    requires Core(s) && Waiting(s, f) && cause in {E_TMOUT, E_RLWAI}
    ensures UnitsMoved(s, CompleteWait(s, f, cause), q)
  {
    var m := Release(s, f, cause);
    ReleaseCore(s, f, cause);
    ReleaseEnds(s, f, cause);
    ReleaseMoves(s, f, cause, q);
    if LeavesUnserved(s, f, cause).Some? {
      var o := LeavesUnserved(s, f, cause).value;
      ServeMovesAt(m, o, q);
      ServeKeeps(m, o);
      CoreLinks(m);
      EndsOnward(s, m, Serve(m, o));
      hide Core, Serve, CompleteWait;
      WaitersAsk(s, m, q);
      MovedTransitive(s, m, Serve(m, o), q);
    }
  }

  lemma ReleaseMoves(s: KState, f: TaskId, cause: ER, q: SemId)
    requires LinksOk(s) && Waiting(s, f) && cause in {E_TMOUT, E_RLWAI}
    ensures UnitsMoved(s, Release(s, f, cause), q)
  {
    var m := Release(s, f, cause);
    forall t: TaskId ensures GotBy(s, m, q, t) == 0 {
      if t in Waiters(s, SemQ(q)) { SemWaiter(s, q, t); }
    }
    NoneMoved(s, m, q);
  }

  lemma ServeMovesAt(s: KState, o: SemId, q: SemId)
    requires Core(s)
    ensures UnitsMoved(s, Serve(s, o), q)
  {
    if q == o {
      AllToPass(s, q);
      ServeMoves(s, q, Waiters(s, SemQ(q)));
    } else {
      var r := Serve(s, o);
      ServeKeeps(s, o);
      forall t: TaskId ensures GotBy(s, r, q, t) == 0 {
        if t in Waiters(s, SemQ(q)) { OtherSemKept(s, o, q, t); }
      }
      NoneMoved(s, r, q);
    }
  }

  lemma OtherSemKept(s: KState, o: SemId, q: SemId, t: TaskId)
    requires Core(s) && q != o && t in Waiters(s, SemQ(q))
    ensures Waiting(Serve(s, o), t)
  {
    CoreLinks(s);
    hide Core, LinksOk, Serve;
    SemWaiter(s, q, t);
    if Serve(s, o).tcb[t] != s.tcb[t] {
      ServedChange(s, o, t);
      SemWaiter(s, o, t);
    }
  }

  /* ---- the steps that hand out units ---- */

  /** A signal hands each task it releases exactly what it asked for; the rest of its units are in the count. */
  lemma SignalConserves(s: KState, id: int, cnt: int)
    requires Inv(s) && SigSem(s, id, cnt).1 == Er(E_OK)
    ensures var q: SemId := id - 1;
            var r := SigSem(s, id, cnt).0;
            s.sem[q].semcnt + cnt == r.sem[q].semcnt + Got(s, r, q, CFN_MAX_TSKID)
  {
    hide Inv;
    SignalServes(s, id, cnt);
    hide SigSem;
    ServedUnits(s, SigSem(s, id, cnt).0, id - 1, cnt, AddUnits(s, id - 1, cnt));
  }

  lemma SignalServes(s: KState, id: int, cnt: int)
    requires SigSem(s, id, cnt).1 == Er(E_OK)
    ensures InRange(id, CFN_MAX_SEMID) && s.sem[id - 1].live && 0 < cnt <= s.sem[id - 1].maxsem - s.sem[id - 1].semcnt
    ensures var (r, e) := (SigSem(s, id, cnt).0, Serve(AddUnits(s, id - 1, cnt), id - 1)); r.tcb == e.tcb && r.sem == e.sem
  {
    hide Serve, AddUnits;
  }

  lemma ServedUnits(s: KState, r: KState, q: SemId, cnt: int, a: KState)
    requires Inv(s) && s.sem[q].live && 0 < cnt <= s.sem[q].maxsem - s.sem[q].semcnt && a == AddUnits(s, q, cnt)
    requires r.tcb == Serve(a, q).tcb && r.sem == Serve(a, q).sem
    ensures s.sem[q].semcnt + cnt == r.sem[q].semcnt + Got(s, r, q, CFN_MAX_TSKID)
  {
    hide Inv, Core, LinksOk, Serve;
    InvGives(s);
    AddUnitsCore(s, q, cnt);
    ServeMovesAt(a, q, q);
    assert Waiters(a, SemQ(q)) == Waiters(s, SemQ(q));
    GotSame(a, Serve(a, q), s, r, q, CFN_MAX_TSKID);
  }

  /** A forced release gives nothing to the task it releases, and to those it made way for what they asked for. */
  lemma ForcedConserves(s: KState, id: int, q: SemId)
    requires Inv(s)
    ensures UnitsMoved(s, RelWai(s, id).0, q)
  {
    InvGives(s);
    NoOneServed(s, q);
    if RelWai(s, id).1 == Er(E_OK) {
      var c := CompleteWait(s, id - 1, E_RLWAI);
      CompleteMoves(s, id - 1, E_RLWAI, q);
      hide Inv, Core, LinksOk, CompleteWait;
      GotSame(s, c, s, Resched(c), q, CFN_MAX_TSKID);
    }
  }

  lemma {:induction false} ExpireMoves(s: KState, p: nat, q: SemId)
    requires Core(s)
    ensures UnitsMoved(s, Expire(s, p).0, q)
    decreases |Timed(s)|
  {
    if Timed(s) != [] {
      var f := First(s);
      var d := s.tcb[f].delay;
      if d <= p {
        var x := Elapse(s, d);
        var c := CompleteWait(x, f, E_TMOUT);
        var r: nat := p - d;
        ExpireReaches(s, f, d, c, p, r);
        assert Expire(s, p) == (Expire(c, r).0, true);
        ExpireMoves(c, r, q);
        ExpireAfter(c, r);
        RoundMoves(s, f, d, x, c, Expire(c, r).0, r, q);
      } else {
        ExpireStops(s, p, Elapse(s, p));
        CoreLinks(s);
        ElapseMoves(s, p, s, q);
      }
    } else {
      NoOneServed(s, q);
    }
  }

  /** The passing of ticks moves nothing, before units move or at the end. */
  lemma ElapseMoves(s: KState, d: nat, e: KState, q: SemId)
    requires LinksOk(s)
    ensures UnitsMoved(s, Elapse(s, d), q)
    ensures UnitsMoved(Elapse(s, d), e, q) ==> UnitsMoved(s, e, q)
  {
    var x := Elapse(s, d);
    forall t: TaskId ensures GotBy(s, x, q, t) == 0 {
      if t in Waiters(s, SemQ(q)) { SemWaiter(s, q, t); }
    }
    NoneMoved(s, x, q);
    GotSame(x, e, s, e, q, CFN_MAX_TSKID);
  }

  lemma RoundMoves(s: KState, f: TaskId, d: nat, x: KState, c: KState, e: KState, r: nat, q: SemId)
    requires Core(s) && Reaches(s, f, d, c) && x == Elapse(s, d) && Core(c) && Core(e) && AfterTicks(c, e, r)
    requires UnitsMoved(c, e, q)
    ensures UnitsMoved(s, e, q)
  {
    ExpireStep(s, d);
    CompleteMoves(x, f, E_TMOUT, q);
    CompleteSem(x, f);
    AfterOnward(x, c, e, r);
    CoreLinks(s);
    CoreLinks(c);
    hide Core, AfterTicks, Reaches;
    WaitersAsk(x, c, q);
    MovedTransitive(x, c, e, q);
    ElapseMoves(s, d, e, q);
  }

  /** After its loop the handler chooses a task, and changes no task or semaphore. */
  lemma HandlerEndsAs(s: KState, a: KState, p: nat)
    requires Core(s) && Core(a) && a == Advanced(s) && p == Pending(s.mtimecmp, s.now) > 0
    ensures TimerHandler(s).tcb == Expire(a, p).0.tcb && TimerHandler(s).sem == Expire(a, p).0.sem
  {
    hide Core, Expire;
  }

  /** A run of the timer handler gives nothing to the tasks that time out, and to those they made way for what they
      asked for. */
  lemma TimeoutsConserve(s: KState, q: SemId)
    requires Inv(s)
    ensures UnitsMoved(s, TimerHandler(s), q)
  {
    var p := Pending(s.mtimecmp, s.now);
    hide Inv, Core, LinksOk, AllSettled;
    InvGives(s);
    NoOneServed(s, q);
    if p > 0 {
      var a := Advanced(s);
      AdvancedSettled(s);
      HandlerEndsAs(s, a, p);
      hide TimerHandler, Expire;
      ExpireMoves(a, p, q);
      var e := Expire(a, p).0;
      GotSame(a, e, s, TimerHandler(s), q, CFN_MAX_TSKID);
    }
  }
}
