/** The walks over a wait queue: which waiters they let go, and in which order those become ready. */
module Releases {
  import opened Types
  import opened Rings
  import opened KernelState
  import opened KernelOps
  import opened Frames
  import opened WaitEnd
  import opened EventFlags
  import opened SemCalls
  import opened MbxCalls

  /** Those of w with priority p that no longer wait in r, in the order of w. */
  function Newly(s: KState, r: KState, w: seq<TaskId>, p: Pri): seq<TaskId> {
    if w == [] then []
    else (if !Waiting(r, w[0]) && s.tcb[w[0]].itskpri == p then [w[0]] else []) + Newly(s, r, w[1..], p)
  }

  /** The units that those of w ask for who no longer wait in r. */
  function Taken(s: KState, r: KState, w: seq<TaskId>): int {
    if w == [] then 0 else Taken(s, r, w[..|w| - 1]) + if Waiting(r, w[|w| - 1]) then 0 else Req(s, w[|w| - 1])
  }

  /** The newcomers of every ready queue are those let go, in the order of w. */
  ghost predicate ComeInOrder(s: KState, r: KState, w: seq<TaskId>) {
    forall p: Pri :: ReadyAt(r, p) == ReadyAt(s, p) + Newly(s, r, w, p)
  }

  lemma {:induction false} NewlySame(s: KState, m: KState, r: KState, w: seq<TaskId>, p: Pri)
    requires forall t: TaskId :: m.tcb[t].itskpri == s.tcb[t].itskpri
    ensures Newly(m, r, w, p) == Newly(s, r, w, p)
  {
    if w != [] { NewlySame(s, m, r, w[1..], p); }
  }

  lemma {:induction false} NoneNewly(s: KState, r: KState, w: seq<TaskId>, p: Pri)
    requires forall t :: t in w ==> Waiting(r, t)
    ensures Newly(s, r, w, p) == []
  {
    if w != [] { NoneNewly(s, r, w[1..], p); }
  }

  /** The first of w is let go, which takes s to m, and the rest of the walk takes m to r. */
  lemma FirstComes(s: KState, m: KState, r: KState, w: seq<TaskId>)
    requires w != [] && !Waiting(r, w[0]) && (forall t: TaskId :: m.tcb[t].itskpri == s.tcb[t].itskpri)
    requires forall p: Pri :: ReadyAt(m, p) == ReadyAt(s, p) + if p == s.tcb[w[0]].itskpri then [w[0]] else []
    requires ComeInOrder(m, r, w[1..])
    ensures ComeInOrder(s, r, w)
  {
    forall p: Pri ensures ReadyAt(r, p) == ReadyAt(s, p) + Newly(s, r, w, p) {
      NewlySame(s, m, r, w[1..], p);
      assert ReadyAt(r, p) == ReadyAt(m, p) + Newly(m, r, w[1..], p);
    }
  }

  /** The first of w is passed over. */
  lemma FirstStays(s: KState, r: KState, w: seq<TaskId>)
    requires w != [] && Waiting(r, w[0]) && ComeInOrder(s, r, w[1..])
    ensures ComeInOrder(s, r, w)
  {
    forall p: Pri ensures ReadyAt(r, p) == ReadyAt(s, p) + Newly(s, r, w, p) {
      assert ReadyAt(r, p) == ReadyAt(s, p) + Newly(s, r, w[1..], p);
    }
  }

  lemma NobodyComes(s: KState, r: KState, w: seq<TaskId>)
    requires (forall t :: t in w ==> Waiting(r, t)) && forall p: Pri :: ReadyAt(r, p) == ReadyAt(s, p)
    ensures ComeInOrder(s, r, w)
  {
    forall p: Pri ensures ReadyAt(r, p) == ReadyAt(s, p) + Newly(s, r, w, p) { NoneNewly(s, r, w, p); }
  }

  lemma ReleaseReady(s: KState, t: TaskId, cause: ER)
    requires LinksOk(s) && Waiting(s, t)
    ensures var m := Release(s, t, cause);
            && (forall p: Pri :: ReadyAt(m, p) == ReadyAt(s, p) + if p == s.tcb[t].itskpri then [t] else [])
            && (forall u: TaskId :: m.tcb[u].itskpri == s.tcb[u].itskpri) && (forall u: TaskId :: u != t ==> m.tcb[u] == s.tcb[u])
            && !Waiting(m, t)
  {
    hide LinksOk;
    ReleaseLinks(s, t, cause);
  }

  /* ---- a deletion ---- */

  lemma {:induction false} ReleaseAllInOrder(s: KState, w: WQ, rest: seq<TaskId>)
    requires Core(s) && Waiters(s, w) == rest
    ensures ComeInOrder(s, ReleaseAll(s, rest), rest) && forall t :: t in rest ==> !Waiting(ReleaseAll(s, rest), t)
    decreases rest
  {
    hide Core, LinksOk, Release, ComeInOrder, Ends;
    if rest == [] {
      NobodyComes(s, s, []);
    } else {
      var t := rest[0];
      var m := Release(s, t, E_DLT);
      CoreLinks(s);
      WaiterWaits(s, w, t);
      FirstReleased(s, w, rest);
      ReleaseReady(s, t, E_DLT);
      ReleaseAllInOrder(m, w, rest[1..]);
      ReleaseAllKeeps(s, w, rest);
      FirstComes(s, m, ReleaseAll(m, rest[1..]), rest);
    }
  }

  /* ---- a semaphore ---- */

  lemma GrantReady(s: KState, q: SemId, t: TaskId)
    requires LinksOk(s) && Waiting(s, t)
    ensures var g := Grant(s, q, t);
            && (forall p: Pri :: ReadyAt(g, p) == ReadyAt(s, p) + if p == s.tcb[t].itskpri then [t] else [])
            && (forall u: TaskId :: g.tcb[u].itskpri == s.tcb[u].itskpri) && (forall u: TaskId :: u != t ==> g.tcb[u] == s.tcb[u])
            && !Waiting(g, t)
  {
    hide LinksOk, Release;
    ReleaseReady(s, t, E_OK);
  }

  /** The walk touches only those it has not reached. */
  lemma {:induction false} ServeTouches(s: KState, q: SemId, rest: seq<TaskId>, t: TaskId)
    requires t !in rest
    ensures ServeFrom(s, q, rest).tcb[t] == s.tcb[t]
    decreases rest
  {
    if rest != [] {
      if s.sem[q].semcnt < Req(s, rest[0]) {
        if s.sem[q].cntOrder { ServeTouches(s, q, rest[1..], t); }
      } else {
        GrantTouches(s, q, rest[0], t);
        hide Grant;
        ServeTouches(Grant(s, q, rest[0]), q, rest[1..], t);
      }
    }
  }

  lemma GrantTouches(s: KState, q: SemId, u: TaskId, t: TaskId)
    requires t != u
    ensures Grant(s, q, u).tcb[t] == s.tcb[t]
  {
  }

  lemma RestWaits(s: KState, q: SemId, rest: seq<TaskId>)
    requires Core(s) && Passed(s, q, rest)
    ensures LinksOk(s) && forall t :: t in rest ==> Waiting(s, t)
  {
    hide Core, LinksOk;
    CoreLinks(s);
    forall t | t in rest ensures Waiting(s, t) { WaiterWaits(s, SemQ(q), t); }
  }

  lemma {:induction false} ServeInQueueOrder(s: KState, q: SemId, rest: seq<TaskId>)
    requires Core(s) && Passed(s, q, rest)
    ensures ComeInOrder(s, ServeFrom(s, q, rest), rest)
    decreases rest
  {
    hide Core, LinksOk, Grant, ComeInOrder, Req;
    RestWaits(s, q, rest);
    if rest == [] {
      NobodyComes(s, s, []);
    } else if s.sem[q].semcnt < Req(s, rest[0]) {
      if s.sem[q].cntOrder {
        ServeInQueueOrder(s, q, rest[1..]);
        ServeTouches(s, q, rest[1..], rest[0]);
        FirstStays(s, ServeFrom(s, q, rest[1..]), rest);
      } else {
        NobodyComes(s, s, rest);
      }
    } else {
      var g := Grant(s, q, rest[0]);
      GrantReady(s, q, rest[0]);
      GrantKeepsPassed(s, q, rest, rest[0]);
      RestWaits(g, q, rest[1..]);
      if g.sem[q].semcnt <= 0 {
        NobodyComes(g, g, rest[1..]);
        FirstComes(s, g, g, rest);
      } else {
        ServeInQueueOrder(g, q, rest[1..]);
        ServeTouches(g, q, rest[1..], rest[0]);
        FirstComes(s, g, ServeFrom(g, q, rest[1..]), rest);
      }
    }
  }

  lemma {:induction false} TakenCons(s: KState, r: KState, w: seq<TaskId>)
    requires w != []
    ensures Taken(s, r, w) == (if Waiting(r, w[0]) then 0 else Req(s, w[0])) + Taken(s, r, w[1..])
    decreases |w|
  {
    if |w| > 1 {
      var v := w[..|w| - 1];
      TakenCons(s, r, v);
      assert v[1..] == w[1..][..|w[1..]| - 1];
    }
  }

  lemma {:induction false} TakenSame(s: KState, m: KState, r: KState, w: seq<TaskId>)
    requires forall t :: t in w ==> Req(m, t) == Req(s, t)
    ensures Taken(m, r, w) == Taken(s, r, w)
  {
    if w != [] { TakenSame(s, m, r, w[..|w| - 1]); }
  }

  lemma {:induction false} NoneTaken(s: KState, r: KState, w: seq<TaskId>)
    requires forall t :: t in w ==> Waiting(r, t)
    ensures Taken(s, r, w) == 0
  {
    if w != [] { NoneTaken(s, r, w[..|w| - 1]); }
  }

  /** The i-th of the queue is served: its request fits what those served before it have left, and under TA_FIRST they
      all were. */
  ghost predicate Fits(s: KState, r: KState, q: SemId, w: seq<TaskId>, i: nat, units: int)
    requires i < |w|
  {
    && Req(s, w[i]) + Taken(s, r, w[..i]) <= units
    && (s.sem[q].cntOrder || forall j: nat :: j < i ==> !Waiting(r, w[j]))
  }

  lemma FitsCons(s: KState, m: KState, r: KState, q: SemId, w: seq<TaskId>, i: nat, units: int)
    requires 0 < i < |w| && (forall t :: t in w ==> Req(m, t) == Req(s, t)) && m.sem[q].cntOrder == s.sem[q].cntOrder
    ensures var left := units - if Waiting(r, w[0]) then 0 else Req(s, w[0]);
            Fits(s, r, q, w, i, units) <==> (s.sem[q].cntOrder || !Waiting(r, w[0])) && Fits(m, r, q, w[1..], i - 1, left)
  {
    hide Req;
    var v := w[..i];
    TakenCons(s, r, v);
    assert v[1..] == w[1..][..i - 1] && v[0] == w[0] && w[1..][i - 1] == w[i];
    TakenSame(s, m, r, v[1..]);
    assert forall j: nat :: j < i - 1 ==> w[1..][j] == w[j + 1];
    if forall j: nat :: j < i ==> !Waiting(r, w[j]) {
      forall j: nat | j < i - 1 ensures !Waiting(r, w[1..][j]) { assert !Waiting(r, w[j + 1]); }
    }
    if !Waiting(r, w[0]) && forall j: nat :: j < i - 1 ==> !Waiting(r, w[1..][j]) {
      forall j: nat | j < i ensures !Waiting(r, w[j]) { if j > 0 { assert !Waiting(r, w[1..][j - 1]); } }
    }
  }

  /** One step of the walk: the first is passed over, or granted its units. */
  lemma WalkSkips(s: KState, q: SemId, rest: seq<TaskId>)
    requires rest != [] && s.sem[q].semcnt < Req(s, rest[0])
    ensures ServeFrom(s, q, rest) == if s.sem[q].cntOrder then ServeFrom(s, q, rest[1..]) else s
  {
  }

  lemma WalkGrants(s: KState, q: SemId, rest: seq<TaskId>, g: KState)
    requires rest != [] && s.sem[q].semcnt >= Req(s, rest[0]) && g == Grant(s, q, rest[0])
    ensures ServeFrom(s, q, rest) == if g.sem[q].semcnt <= 0 then g else ServeFrom(g, q, rest[1..])
  {
  }

  lemma FirstApart(s: KState, q: SemId, rest: seq<TaskId>)
    requires Passed(s, q, rest) && rest != []
    ensures rest[0] !in rest[1..] && (s.sem[q].semcnt < Req(s, rest[0]) && s.sem[q].cntOrder ==> Passed(s, q, rest[1..]))
  {
  }

  /** The walk serves greedily, in the order of the queue. */
  lemma {:induction false} ServesGreedily(s: KState, q: SemId, rest: seq<TaskId>, i: nat)
    requires Core(s) && Passed(s, q, rest) && i < |rest|
    ensures !Waiting(ServeFrom(s, q, rest), rest[i]) <==> Fits(s, ServeFrom(s, q, rest), q, rest, i, s.sem[q].semcnt)
    decreases rest
  {
    hide Core, LinksOk, Passed, Fits, ServeFrom, Grant, Req;
    FirstApart(s, q, rest);
    RestWaits(s, q, rest);
    if s.sem[q].semcnt < Req(s, rest[0]) {
      WalkSkips(s, q, rest);
      ServeTouches(s, q, rest[1..], rest[0]);
      if i > 0 && s.sem[q].cntOrder { ServesGreedily(s, q, rest[1..], i - 1); }
      GreedySkip(s, q, rest, ServeFrom(s, q, rest), i);
    } else {
      var g := Grant(s, q, rest[0]);
      WalkGrants(s, q, rest, g);
      GrantReady(s, q, rest[0]);
      GrantReqs(s, q, rest[0]);
      GrantKeepsPassed(s, q, rest, rest[0]);
      ServeTouches(g, q, rest[1..], rest[0]);
      if i > 0 {
        RestWaits(g, q, rest[1..]);
        if g.sem[q].semcnt <= 0 { NoUnitsLeft(g, q, rest[1..], i - 1); } else { ServesGreedily(g, q, rest[1..], i - 1); }
      }
      GreedyGrant(s, g, q, rest, ServeFrom(s, q, rest), i);
    }
  }

  lemma GreedySkip(s: KState, q: SemId, w: seq<TaskId>, r: KState, i: nat)
    requires i < |w| && s.sem[q].semcnt < Req(s, w[0]) && Waiting(r, w[0]) && (forall t :: t in w ==> Waiting(s, t))
    requires if s.sem[q].cntOrder then i > 0 ==> (!Waiting(r, w[1..][i - 1]) <==> Fits(s, r, q, w[1..], i - 1, s.sem[q].semcnt)) else r == s
    ensures !Waiting(r, w[i]) <==> Fits(s, r, q, w, i, s.sem[q].semcnt)
  {
    hide Req, Taken;
    if i == 0 {
      FitsFirst(s, r, q, w, s.sem[q].semcnt);
    } else {
      hide Fits;
      FitsCons(s, s, r, q, w, i, s.sem[q].semcnt);
      assert w[1..][i - 1] == w[i];
    }
  }

  lemma FitsFirst(s: KState, r: KState, q: SemId, w: seq<TaskId>, units: int)
    requires w != []
    ensures Fits(s, r, q, w, 0, units) <==> Req(s, w[0]) <= units
  {
    assert Taken(s, r, []) == 0;
  }

  lemma GreedyGrant(s: KState, g: KState, q: SemId, w: seq<TaskId>, r: KState, i: nat)
    requires i < |w| && s.sem[q].semcnt >= Req(s, w[0]) && !Waiting(r, w[0]) && forall t: TaskId :: Req(g, t) == Req(s, t)
    requires g.sem[q] == s.sem[q].(semcnt := s.sem[q].semcnt - Req(s, w[0]))
    requires i > 0 ==> (!Waiting(r, w[1..][i - 1]) <==> Fits(g, r, q, w[1..], i - 1, g.sem[q].semcnt))
    ensures !Waiting(r, w[i]) <==> Fits(s, r, q, w, i, s.sem[q].semcnt)
  {
    hide Req, Taken;
    if i == 0 {
      FitsFirst(s, r, q, w, s.sem[q].semcnt);
    } else {
      hide Fits;
      FitsCons(s, g, r, q, w, i, s.sem[q].semcnt);
      assert w[1..][i - 1] == w[i];
    }
  }

  /** Where no unit is left nobody is served, and nobody fits. */
  lemma NoUnitsLeft(g: KState, q: SemId, w: seq<TaskId>, i: nat)
    requires Core(g) && Passed(g, q, w) && i < |w| && g.sem[q].semcnt <= 0 && forall t :: t in w ==> Waiting(g, t)
    ensures Waiting(g, w[i]) && !Fits(g, g, q, w, i, g.sem[q].semcnt)
  {
    hide Core, Passed, Req;
    NoneTaken(g, g, w[..i]);
    AsksSome(g, q, w, i);
  }

  lemma AsksSome(s: KState, q: SemId, w: seq<TaskId>, i: nat)
    requires Core(s) && Passed(s, q, w) && i < |w|
    ensures Req(s, w[i]) >= 1
  {
    hide Core;
    CoreGivesSem(s, q);
  }

  /* ---- an event flag ---- */

  lemma DeliverReady(s: KState, f: FlgId, t: TaskId)
    requires LinksOk(s) && Waiting(s, t) && s.tcb[t].winfo.FlgInfo?
    ensures var g := Deliver(s, f, t);
            && (forall p: Pri :: ReadyAt(g, p) == ReadyAt(s, p) + if p == s.tcb[t].itskpri then [t] else [])
            && (forall u: TaskId :: g.tcb[u].itskpri == s.tcb[u].itskpri) && (forall u: TaskId :: u != t ==> g.tcb[u] == s.tcb[u])
            && !Waiting(g, t)
  {
    hide LinksOk, Release, Deliver;
    DeliverIs(s, f, t);
    ReleaseReady(s, t, E_OK);
  }

  lemma {:induction false} SetTouches(s: KState, f: FlgId, rest: seq<TaskId>, t: TaskId)
    requires t !in rest
    ensures SetFrom(s, f, rest).tcb[t] == s.tcb[t]
    decreases rest
  {
    if rest != [] {
      if Satisfied(s, s.flg[f].flgptn, rest[0]) {
        DeliverTouches(s, f, rest[0], t);
        hide Deliver;
        SetTouches(Deliver(s, f, rest[0]), f, rest[1..], t);
      } else {
        SetTouches(s, f, rest[1..], t);
      }
    }
  }

  lemma DeliverTouches(s: KState, f: FlgId, u: TaskId, t: TaskId)
    requires t != u && s.tcb[u].winfo.FlgInfo?
    ensures Deliver(s, f, u).tcb[t] == s.tcb[t]
  {
  }

  lemma {:induction false} SetInQueueOrder(s: KState, f: FlgId, rest: seq<TaskId>)
    requires Core(s) && Unvisited(s, f, rest)
    ensures ComeInOrder(s, SetFrom(s, f, rest), rest)
    decreases rest
  {
    hide Core, LinksOk, Deliver, ComeInOrder, Match;
    if rest == [] {
      NobodyComes(s, s, []);
    } else {
      var t := rest[0];
      CoreLinks(s);
      VisitOne(s, f, rest, t);
      if Satisfied(s, s.flg[f].flgptn, t) {
        var g := Deliver(s, f, t);
        DeliverReady(s, f, t);
        hide Unvisited;
        SetInQueueOrder(g, f, rest[1..]);
        TailWithout(s, f, rest);
        SetTouches(g, f, rest[1..], t);
        FirstComes(s, g, SetFrom(g, f, rest[1..]), rest);
      } else {
        SetInQueueOrder(s, f, rest[1..]);
        SetTouches(s, f, rest[1..], t);
        FirstStays(s, SetFrom(s, f, rest[1..]), rest);
      }
    }
  }

  lemma TailWithout(s: KState, f: FlgId, rest: seq<TaskId>)
    requires Unvisited(s, f, rest) && rest != []
    ensures rest[0] !in rest[1..]
  {
  }

  /* ---- the calls ---- */

  /** Neither before nor after the walk do the records and ready queues of tasks change. */
  lemma {:induction false} NewlyFrom(s: KState, a: KState, x: KState, r: KState, w: seq<TaskId>, p: Pri)
    requires a.tcb == s.tcb && r.tcb == x.tcb
    ensures Newly(s, r, w, p) == Newly(a, x, w, p)
  {
    if w != [] { NewlyFrom(s, a, x, r, w[1..], p); }
  }

  lemma ComeFrom(s: KState, a: KState, x: KState, r: KState, w: seq<TaskId>)
    requires ComeInOrder(a, x, w) && a.tcb == s.tcb && r.tcb == x.tcb && a.heads == s.heads && r.heads == x.heads
    ensures ComeInOrder(s, r, w)
  {
    forall p: Pri ensures ReadyAt(r, p) == ReadyAt(s, p) + Newly(s, r, w, p) {
      NewlyFrom(s, a, x, r, w, p);
      assert ReadyAt(x, p) == ReadyAt(a, p) + Newly(a, x, w, p);
    }
  }

  lemma {:induction false} TakenFrom(s: KState, a: KState, x: KState, r: KState, w: seq<TaskId>)
    requires a.tcb == s.tcb && r.tcb == x.tcb
    ensures Taken(s, r, w) == Taken(a, x, w)
  {
    if w != [] { TakenFrom(s, a, x, r, w[..|w| - 1]); }
  }

  lemma ReschedKeepsTasks(c: KState)
    ensures Resched(c).tcb == c.tcb && Resched(c).heads == c.heads
  {
  }

  /** tk_sig_sem: the units go to the waiters greedily, in the order of the queue, and those served become ready in that
      order. */
  lemma SignalLetsGo(s: KState, id: int, cnt: int)
    requires Inv(s) && SigSem(s, id, cnt).1 == Er(E_OK)
    ensures InRange(id, CFN_MAX_SEMID)
    ensures var q: SemId := id - 1;
            var (r, w) := (SigSem(s, id, cnt).0, Waiters(s, SemQ(q)));
            && ComeInOrder(s, r, w)
            && forall i: nat :: i < |w| ==> (!Waiting(r, w[i]) <==> Fits(s, r, q, w, i, s.sem[q].semcnt + cnt))
  {
    hide Inv, ServeFrom, Resched, ComeInOrder, Fits;
    var q: SemId := id - 1;
    var a, w := AddUnits(s, q, cnt), Waiters(s, SemQ(q));
    var x := ServeFrom(a, q, w);
    SignalWalks(s, a, q, cnt, w);
    hide Core, LinksOk, Passed;
    ServeInQueueOrder(a, q, w);
    ReschedKeepsTasks(x);
    ComeFrom(s, a, x, Resched(x), w);
    forall i: nat | i < |w| ensures !Waiting(Resched(x), w[i]) <==> Fits(s, Resched(x), q, w, i, s.sem[q].semcnt + cnt) {
      ServesGreedily(a, q, w, i);
      FitsFrom(s, a, x, Resched(x), q, w, i, s.sem[q].semcnt + cnt);
    }
  }

  lemma SignalWalks(s: KState, a: KState, q: SemId, cnt: int, w: seq<TaskId>)
    requires Inv(s) && s.sem[q].live && 0 < cnt <= s.sem[q].maxsem - s.sem[q].semcnt && a == AddUnits(s, q, cnt) && w == Waiters(s, SemQ(q))
    ensures Core(a) && Passed(a, q, w) && Waiters(a, SemQ(q)) == w
  {
    hide Inv, Core, LinksOk;
    InvGives(s);
    AddUnitsCore(s, q, cnt);
    CoreLinks(a);
    AllToPass(a, q);
  }

  lemma FitsFrom(s: KState, a: KState, x: KState, r: KState, q: SemId, w: seq<TaskId>, i: nat, units: int)
    requires i < |w| && a.tcb == s.tcb && r.tcb == x.tcb && a.sem[q].cntOrder == s.sem[q].cntOrder
    ensures Fits(s, r, q, w, i, units) <==> Fits(a, x, q, w, i, units)
  {
    TakenFrom(s, a, x, r, w[..i]);
  }

  /** The deletion of a semaphore or a mailbox: the waiters become ready in the order of the queue. */
  lemma DeletionLetsGo(s: KState, id: int)
    requires Inv(s)
    ensures DelSem(s, id).1 == Er(E_OK) ==> InRange(id, CFN_MAX_SEMID) && ComeInOrder(s, DelSem(s, id).0, Waiters(s, SemQ(id - 1)))
    ensures DelMbx(s, id).1 == Er(E_OK) ==> InRange(id, CFN_MAX_MBXID) && ComeInOrder(s, DelMbx(s, id).0, Waiters(s, MbxQ(id - 1)))
  {
    hide Inv, Core, LinksOk, AllSettled, ReleaseAll, DropFrom, ComeInOrder, HighestFrom;
    InvGives(s);
    if DelSem(s, id).1 == Er(E_OK) {
      var w := Waiters(s, SemQ(id - 1));
      ReleaseAllInOrder(s, SemQ(id - 1), w);
      ComeFrom(s, s, ReleaseAll(s, w), DelSem(s, id).0, w);
    }
    if DelMbx(s, id).1 == Er(E_OK) {
      var w := Waiters(s, MbxQ(id - 1));
      DropIsRelease(s, id - 1, w);
      ReleaseAllInOrder(s, MbxQ(id - 1), w);
      ComeFrom(s, s, ReleaseAll(s, w), DelMbx(s, id).0, w);
    }
  }

  /** tk_set_flg: those whose waits are satisfied become ready in the order of the queue. */
  lemma SetLetsGo(s: KState, id: int, setptn: Ptn)
    requires Inv(s) && SetFlg(s, id, setptn).1 == Er(E_OK)
    ensures InRange(id, CFN_MAX_FLGID) && ComeInOrder(s, SetFlg(s, id, setptn).0, Waiters(s, FlgQ(id - 1)))
  {
    hide Inv, Core, LinksOk, AllSettled, SetFrom, ComeInOrder, Unvisited, Resched;
    InvGives(s);
    var f: FlgId := id - 1;
    var c := s.flg[f].(flgptn := s.flg[f].flgptn + setptn);
    var u, w := WithFlg(s, f, c), Waiters(s, FlgQ(f));
    SetUnvisited(s, f, c, u);
    if w == [] {
      NobodyComes(s, SetFlg(s, id, setptn).0, []);
    } else {
      SetInQueueOrder(u, f, w);
      ReschedKeepsTasks(SetFrom(u, f, w));
      ComeFrom(s, u, SetFrom(u, f, w), Resched(SetFrom(u, f, w)), w);
    }
  }

  /** The others on the queue of a semaphore waiter that leaves. */
  function Behind(s: KState, t: TaskId): seq<TaskId> {
    if s.tcb[t].tskwait == SEM && s.tcb[t].winfo.SemInfo? then Without(Waiters(s, SemQ(s.tcb[t].winfo.semcb)), t) else []
  }

  /** tk_rel_wai: the task released becomes ready first, and then those it made way for, in the order of the queue. */
  lemma ForcedLetsGo(s: KState, id: int)
    requires Inv(s) && RelWai(s, id).1 == Er(E_OK)
    ensures InRange(id, CFN_MAX_TSKID) && ComeInOrder(s, RelWai(s, id).0, [id - 1] + Behind(s, id - 1))
  {
    hide Inv, Core, LinksOk, AllSettled, CompleteWait, ComeInOrder, Resched;
    InvGives(s);
    var t: TaskId := id - 1;
    var c := CompleteWait(s, t, E_RLWAI);
    DepartureLetsGo(s, t, E_RLWAI, c);
    ReschedKeepsTasks(c);
    ComeFrom(s, s, c, Resched(c), [t] + Behind(s, t));
  }

  /** The same of every departure that may make way. */
  lemma DepartureLetsGo(s: KState, t: TaskId, cause: ER, c: KState)
    requires Core(s) && Waiting(s, t) && cause in {E_TMOUT, E_RLWAI} && c == CompleteWait(s, t, cause)
    ensures ComeInOrder(s, c, [t] + Behind(s, t))
  {
    hide Core, LinksOk, Release, ServeFrom, ComeInOrder, Passed;
    CoreLinks(s);
    var m, w := Release(s, t, cause), [t] + Behind(s, t);
    ReleaseCore(s, t, cause);
    CoreLinks(m);
    ReleaseReady(s, t, cause);
    ReleaseLinks(s, t, cause);
    assert w[1..] == Behind(s, t);
    match LeavesUnserved(s, t, cause)
    case None => NobodyComes(m, m, []); FirstComes(s, m, m, w);
    case Some(q) =>
      AllToPass(m, q);
      ServeInQueueOrder(m, q, Waiters(m, SemQ(q)));
      ServeTouches(m, q, Waiters(m, SemQ(q)), t);
      FirstComes(s, m, c, w);
  }

  /** tk_snd_mbx and tk_wup_tsk let go at most one task, which becomes ready behind its peers. */
  lemma OneLetsGo(s: KState, id: int, msg: Msg, inIsr: bool)
    requires Inv(s)
    ensures SndMbx(s, id, msg).1 == Er(E_OK) ==> InRange(id, CFN_MAX_MBXID) && ComeInOrder(s, SndMbx(s, id, msg).0, Waiters(s, MbxQ(id - 1)))
    ensures WupTsk(s, id, inIsr).1 == Er(E_OK) && InRange(id, CFN_MAX_TSKID) && Waiting(s, id - 1) ==>
              ComeInOrder(s, WupTsk(s, id, inIsr).0, [id - 1])
  {
    if SndMbx(s, id, msg).1 == Er(E_OK) { SendLetsGo(s, id, msg); }
    if WupTsk(s, id, inIsr).1 == Er(E_OK) && InRange(id, CFN_MAX_TSKID) && Waiting(s, id - 1) { WakeLetsGo(s, id, inIsr); }
    hide Inv, SndMbx, WupTsk, ComeInOrder;
  }

  lemma WakeLetsGo(s: KState, id: int, inIsr: bool)
    requires Inv(s) && WupTsk(s, id, inIsr).1 == Er(E_OK) && InRange(id, CFN_MAX_TSKID) && Waiting(s, id - 1)
    ensures ComeInOrder(s, WupTsk(s, id, inIsr).0, [id - 1])
  {
    hide Inv, Core, LinksOk, AllSettled, ComeInOrder, Resched, Release;
    InvGives(s);
    var t: TaskId := id - 1;
    if s.tcb[t].tskwait == SLP {
      var m := Release(s, t, E_OK);
      OnlyReleases(s, t, E_OK);
      ReleaseReady(s, t, E_OK);
      NobodyComes(m, m, []);
      assert [t][1..] == [];
      FirstComes(s, m, m, [t]);
      ReschedKeepsTasks(Woken(s, t));
      hide CompleteWait;
      ComeFrom(s, s, m, Resched(Woken(s, t)), [t]);
    } else {
      NobodyComes(s, WupTsk(s, id, inIsr).0, [t]);
    }
  }

  lemma SendLetsGo(s: KState, id: int, msg: Msg)
    requires Inv(s) && SndMbx(s, id, msg).1 == Er(E_OK)
    ensures InRange(id, CFN_MAX_MBXID) && ComeInOrder(s, SndMbx(s, id, msg).0, Waiters(s, MbxQ(id - 1)))
  {
    hide Inv, Core, LinksOk, AllSettled, ComeInOrder, Resched, Release, MakeReady, PopFrom, MsgPos;
    InvGives(s);
    var m: MbxId := id - 1;
    var w := Waiters(s, MbxQ(m));
    PopTakesFirst(s, m);
    if w == [] {
      NobodyComes(s, SndMbx(s, id, msg).0, []);
    } else {
      var t := w[0];
      var g := Release(s, t, E_OK);
      HeadReceives(s, m);
      MakeReadyIs(s, t, E_OK, Some(msg));
      var k := MakeReady(s.(waits := s.waits.Del(t).Init(t)), t, E_OK, Some(msg));
      ReleaseReady(s, t, E_OK);
      TailWaits(s, m, w);
      NobodyComes(k, k, w[1..]);
      assert k.heads == g.heads && k.tcb[t].tskstat == g.tcb[t].tskstat && forall p: Pri :: ReadyAt(k, p) == ReadyAt(g, p);
      FirstComes(s, k, k, w);
      ReschedKeepsTasks(k.(hist := HandedOver(Sent(s.hist, m, msg), m, msg, t)));
      ComeFrom(s, s, k, SndMbx(s, id, msg).0, w);
    }
  }

  lemma TailWaits(s: KState, m: MbxId, w: seq<TaskId>)
    requires LinksOk(s) && w == Waiters(s, MbxQ(m)) && w != []
    ensures forall u :: u in w[1..] ==> Waiting(s, u) && u != w[0]
  {
    hide LinksOk;
    forall u | u in w[1..] ensures Waiting(s, u) && u != w[0] {
      WaiterWaits(s, MbxQ(m), u);
      NoTwice(s, m, w, u);
    }
  }

  lemma NoTwice(s: KState, m: MbxId, w: seq<TaskId>, u: TaskId)
    requires LinksOk(s) && w == Waiters(s, MbxQ(m)) && w != [] && u in w[1..]
    ensures u != w[0]
  {
    assert NoDup(s.waits.Get(MbxQ(m)));
    var i :| 0 <= i < |w[1..]| && w[1..][i] == u;
    assert w[i + 1] == u;
  }
}
