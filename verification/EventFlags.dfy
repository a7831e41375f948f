/** tk_set_flg: the walk over the waiters is a left fold of match, deliver and clear. */
module EventFlags {
  import opened Types
  import opened Rings
  import opened KernelState
  import opened KernelOps
  import opened Frames
  import opened WaitEnd

  /** A pattern that satisfies a wait satisfies it with more bits. */
  lemma MatchMonotone(q: Ptn, p: Ptn, waiptn: Ptn, wfmode: Mode)
    requires q <= p && Match(q, waiptn, wfmode)
    ensures Match(p, waiptn, wfmode)
  {
    if wfmode.orw {
      var b :| b in q * waiptn;
      assert b in p * waiptn;
    }
  }

  /** The reference: each wait in turn sees what those before it left. Gives the final pattern, and the pattern
      each wait receives if it is satisfied. */
  function Fold(p: Ptn, ws: seq<(Ptn, Mode)>): (r: (Ptn, seq<Option<Ptn>>))
    ensures |r.1| == |ws|
  {
    if ws == [] then (p, [])
    else if Match(p, ws[0].0, ws[0].1) then
      var (z, d) := Fold(Consume(p, ws[0].0, ws[0].1), ws[1..]);
      (z, [Some(p)] + d)
    else
      var (z, d) := Fold(p, ws[1..]);
      (z, [None] + d)
  }

  function Wants(s: KState, t: TaskId): (Ptn, Mode) {
    var i := s.tcb[t].winfo;
    if i.FlgInfo? then (i.waiptn, i.wfmode) else ({}, Mode(false, false, false))
  }

  function WantsOf(s: KState, w: seq<TaskId>): seq<(Ptn, Mode)> {
    seq(|w|, i requires 0 <= i < |w| => Wants(s, w[i]))
  }

  /** Deliver is Release, with the pattern handed over and what the wait consumes taken off. */
  lemma DeliverIs(s: KState, f: FlgId, t: TaskId)
    requires s.tcb[t].winfo.FlgInfo?
    ensures var i := s.tcb[t].winfo;
            var r := Release(s, t, E_OK);
            Deliver(s, f, t) ==
            WithFlg(WithTask(r, t, r.tcb[t].(winfo := i.(flgptn := s.flg[f].flgptn)), r.hist.task[t]), f,
                    s.flg[f].(flgptn := Consume(s.flg[f].flgptn, i.waiptn, i.wfmode)))
  {
    var i := s.tcb[t].winfo;
    var r := Release(s, t, E_OK);
    var d := Deliver(s, f, t);
    assert d.tcb == r.tcb[t := r.tcb[t].(winfo := i.(flgptn := s.flg[f].flgptn))];
    assert r.hist.task[t := r.hist.task[t]] == r.hist.task;
  }

  lemma FlgWaiter(s: KState, f: FlgId, t: TaskId)
    requires LinksOk(s) && t in Waiters(s, FlgQ(f))
    ensures Waiting(s, t) && s.tcb[t].tskwait == FLG && s.tcb[t].winfo.FlgInfo?
  {
    assert t in s.waits.Get(FlgQ(f)) && TaskOk(s, t);
  }

  /** The wait data the released task is given, and the pattern, do not count among what ended waits change. */
  lemma DeliverEnds(s: KState, r: KState, d: KState, t: TaskId)
    requires Ends(s, r) && Waiting(s, t) && r.tcb[t].tskstat == RDY
    requires d == r.(tcb := r.tcb[t := r.tcb[t].(winfo := d.tcb[t].winfo)], flg := d.flg)
    ensures Ends(s, d)
  {
    forall u: TaskId ensures SameOrEnded(s, d, u) { assert SameOrEnded(s, r, u); }
    forall p: Pri ensures ReadyAt(s, p) <= ReadyAt(d, p) { assert ReadyAt(s, p) <= ReadyAt(r, p); }
  }

  lemma DeliverKeeps(s: KState, f: FlgId, t: TaskId)
    requires Core(s) && t in Waiters(s, FlgQ(f))
    ensures s.tcb[t].winfo.FlgInfo? && Waiting(s, t)
    ensures Core(Deliver(s, f, t)) && Ends(s, Deliver(s, f, t))
    ensures forall w :: Waiters(Deliver(s, f, t), w) == if w == FlgQ(f) then Without(Waiters(s, w), t) else Waiters(s, w)
    ensures Deliver(s, f, t).sem == s.sem && Deliver(s, f, t).mbx == s.mbx
    ensures forall u: TaskId :: u != t ==> Deliver(s, f, t).tcb[u] == s.tcb[u]
  {
    hide Core, Ends, TaskOk;
    CoreGives(s);
    FlgWaiter(s, f, t);
    var r := Release(s, t, E_OK);
    var d := Deliver(s, f, t);
    ReleaseCore(s, t, E_OK);
    ReleaseLinks(s, t, E_OK);
    ReleaseEnds(s, t, E_OK);
    DeliverCore(s, f, t, r, d);
    assert r.hist.task[t := r.hist.task[t]] == r.hist.task;
    hide LinksOk, ObjectsOk, FreeOk, HistOk;
    DeliverIs(s, f, t);
    hide Deliver;
    DeliverEnds(s, r, d, t);
    forall w ensures Waiters(d, w) == if w == FlgQ(f) then Without(Waiters(s, w), t) else Waiters(s, w) {
      assert Waiters(d, w) == Waiters(r, w);
      if w != FlgQ(f) {
        if t in Waiters(s, w) { OnOneQueue(s, w, FlgQ(f), t); }
        WithoutAbsent(Waiters(s, w), t);
      }
    }
  }

  lemma DeliverCore(s: KState, f: FlgId, t: TaskId, r: KState, d: KState)
    requires s.tcb[t].winfo.FlgInfo? && r == Release(s, t, E_OK) && d == Deliver(s, f, t)
    requires Core(r)
    ensures Core(d)
  {
    hide Core;
    hide ObjectsOk, FreeOk, LinksOk, Coherent;
    CoreGives(r);
    var i := s.tcb[t].winfo;
    var c := r.tcb[t].(winfo := i.(flgptn := s.flg[f].flgptn));
    DeliverIs(s, f, t);
    assert TaskOk(r, t) && HistOk(r, t);
    var x := WithTask(r, t, c, r.hist.task[t]);
    assert TaskOk(x, t);
    WithTaskCore(r, t, c, r.hist.task[t]);
    WithFlgCore(x, f, s.flg[f].(flgptn := Consume(s.flg[f].flgptn, i.waiptn, i.wfmode)));
  }

  /** The part of the walk still to come covers every waiter the pattern satisfies. */
  ghost predicate Unvisited(s: KState, f: FlgId, rest: seq<TaskId>) {
    && NoDup(rest)
    && (forall t :: t in rest ==> t in Waiters(s, FlgQ(f)))
    && (forall t :: t in Waiters(s, FlgQ(f)) && t !in rest ==> !Satisfied(s, s.flg[f].flgptn, t))
  }

  /** What a walk has done to the tasks on `rest`, given what the fold says each receives. */
  ghost predicate Delivered(s: KState, r: KState, f: FlgId, rest: seq<TaskId>, d: seq<Option<Ptn>>)
    requires |d| == |rest|
  {
    forall i :: 0 <= i < |rest| ==>
      var t := rest[i];
      match d[i]
      case Some(p) =>
        && t !in Waiters(r, FlgQ(f)) && r.tcb[t].tskstat == RDY && r.tcb[t].wupcause == E_OK
        && r.tcb[t].winfo.FlgInfo? && r.tcb[t].winfo.flgptn == p
      case None => t in Waiters(r, FlgQ(f)) && r.tcb[t] == s.tcb[t]
  }

  ghost predicate WalkEffect(s: KState, r: KState, f: FlgId) {
    && Core(r) && Ends(s, r) && r.sem == s.sem && r.mbx == s.mbx
    && (forall w :: w != FlgQ(f) ==> Waiters(r, w) == Waiters(s, w))
    && (forall e: FlgId :: e != f ==> r.flg[e] == s.flg[e])
    && r.flg[f].(flgptn := s.flg[f].flgptn) == s.flg[f]
  }

  lemma {:induction false} SetFromKeeps(s: KState, f: FlgId, rest: seq<TaskId>)
    requires Core(s) && Unvisited(s, f, rest)
    ensures WalkEffect(s, SetFrom(s, f, rest), f)
    ensures FlgSettled(SetFrom(s, f, rest), f)
    decreases rest
  {
    hide Core, Ends, Deliver, Match;
    if rest == [] {
      SameEnds(s);
    } else {
      var t := rest[0];
      if Satisfied(s, s.flg[f].flgptn, t) {
        var g := Deliver(s, f, t);
        DeliverKeeps(s, f, t);
        DeliverOthers(s, f, t);
        DeliverUnvisited(s, f, rest);
        hide Unvisited, Satisfied;
        SetFromKeeps(g, f, rest[1..]);
        EndsTransitive(s, g, SetFrom(g, f, rest[1..]));
      } else {
        SetFromKeeps(s, f, rest[1..]);
      }
    }
  }

  lemma DeliverUnvisited(s: KState, f: FlgId, rest: seq<TaskId>)
    requires Core(s) && Unvisited(s, f, rest) && rest != []
    ensures s.tcb[rest[0]].winfo.FlgInfo?
    ensures Unvisited(Deliver(s, f, rest[0]), f, rest[1..])
  {
    hide Core, Ends, Deliver, Match;
    var t := rest[0];
    DeliverKeeps(s, f, t);
    var g := Deliver(s, f, t);
    DeliverOthers(s, f, t);
    assert g.flg[f].flgptn <= s.flg[f].flgptn;
    forall u | u in Waiters(g, FlgQ(f)) && u !in rest[1..] ensures !Satisfied(g, g.flg[f].flgptn, u) {
      assert !Satisfied(s, s.flg[f].flgptn, u);
      if Satisfied(g, g.flg[f].flgptn, u) {
        MatchMonotone(g.flg[f].flgptn, s.flg[f].flgptn, s.tcb[u].winfo.waiptn, s.tcb[u].winfo.wfmode);
      }
    }
  }

  /** The start of the walk: the bits are set, and nobody is visited. */
  lemma SetUnvisited(s: KState, f: FlgId, c: Flgcb, u: KState)
    requires Core(s) && c == s.flg[f].(flgptn := c.flgptn) && u == WithFlg(s, f, c)
    ensures Core(u) && Unvisited(u, f, Waiters(u, FlgQ(f))) == true
  {
    WithFlgCore(s, f, c);
    assert NoDup(s.waits.Get(FlgQ(f)));
    assert Waiters(u, FlgQ(f)) == Waiters(s, FlgQ(f));
  }

  /** The next task of the walk waits, and the walk goes on past it whether it is satisfied or not. */
  lemma VisitOne(s: KState, f: FlgId, rest: seq<TaskId>, t: TaskId)
    requires Core(s) && Unvisited(s, f, rest) == true && rest != [] && t == rest[0]
    ensures Waiting(s, t) && s.tcb[t].winfo.FlgInfo?
    ensures Satisfied(s, s.flg[f].flgptn, t) ==> Core(Deliver(s, f, t)) && Unvisited(Deliver(s, f, t), f, rest[1..]) == true
    ensures !Satisfied(s, s.flg[f].flgptn, t) ==> Unvisited(s, f, rest[1..]) == true
  {
    FlgWaiter(s, f, t);
    if Satisfied(s, s.flg[f].flgptn, t) {
      DeliverKeeps(s, f, t);
      DeliverUnvisited(s, f, rest);
    }
  }

  lemma DeliveredCons(s: KState, g: KState, r: KState, f: FlgId, rest: seq<TaskId>, d: seq<Option<Ptn>>)
    requires rest != [] && |d| == |rest|
    requires Delivered(g, r, f, rest[1..], d[1..]) && Delivered(s, r, f, rest[..1], d[..1])
    requires forall u :: u in rest[1..] ==> g.tcb[u] == s.tcb[u]
    ensures Delivered(s, r, f, rest, d)
  {
    forall i | 0 <= i < |rest|
      ensures match d[i]
              case Some(p) =>
                && rest[i] !in Waiters(r, FlgQ(f)) && r.tcb[rest[i]].tskstat == RDY && r.tcb[rest[i]].wupcause == E_OK
                && r.tcb[rest[i]].winfo.FlgInfo? && r.tcb[rest[i]].winfo.flgptn == p
              case None => rest[i] in Waiters(r, FlgQ(f)) && r.tcb[rest[i]] == s.tcb[rest[i]]
    {
      if i == 0 {
        assert rest[..1][0] == rest[0] && d[..1][0] == d[0];
      } else {
        assert rest[1..][i - 1] == rest[i] && d[1..][i - 1] == d[i];
      }
    }
  }

  /** A waiter that is satisfied receives the pattern as it stands, and keeps it through the rest of the walk. */
  lemma HitDelivered(s: KState, f: FlgId, t: TaskId, r: KState)
    requires Core(s) && t in Waiters(s, FlgQ(f)) && s.tcb[t].winfo.FlgInfo? && Ends(Deliver(s, f, t), r)
    ensures t !in Waiters(r, FlgQ(f)) && r.tcb[t].tskstat == RDY && r.tcb[t].wupcause == E_OK
    ensures r.tcb[t].winfo == s.tcb[t].winfo.(flgptn := s.flg[f].flgptn)
  {
    hide Core;
    CoreGives(s);
    var g := Deliver(s, f, t);
    DeliverKeeps(s, f, t);
    DeliverIs(s, f, t);
    hide ObjectsOk, LinksOk, FreeOk, Coherent, TaskOk, HistOk;
    assert SameOrEnded(g, r, t);
  }

  /** The walk is the fold: the pattern it leaves, who is released, and with which pattern. */
  lemma {:induction false} SetFromIsFold(s: KState, f: FlgId, rest: seq<TaskId>)
    requires Core(s) && Unvisited(s, f, rest)
    ensures SetFrom(s, f, rest).flg[f].flgptn == Fold(s.flg[f].flgptn, WantsOf(s, rest)).0
    ensures Delivered(s, SetFrom(s, f, rest), f, rest, Fold(s.flg[f].flgptn, WantsOf(s, rest)).1)
    decreases rest
  {
    if rest != [] {
      var t := rest[0];
      FlgWaiter(s, f, t);
      if Satisfied(s, s.flg[f].flgptn, t) {
        FoldHit(s, f, rest);
      } else {
        assert Unvisited(s, f, rest[1..]) && SetFrom(s, f, rest) == SetFrom(s, f, rest[1..]);
        SetFromIsFold(s, f, rest[1..]);
        FoldMiss(s, f, rest, SetFrom(s, f, rest[1..]), Fold(s.flg[f].flgptn, WantsOf(s, rest[1..])).1);
      }
    }
  }

  lemma FoldMiss(s: KState, f: FlgId, rest: seq<TaskId>, r: KState, d: seq<Option<Ptn>>)
    requires Core(s) && Unvisited(s, f, rest) && rest != [] && !Satisfied(s, s.flg[f].flgptn, rest[0])
    requires s.tcb[rest[0]].winfo.FlgInfo?
    requires r == SetFrom(s, f, rest[1..]) && d == Fold(s.flg[f].flgptn, WantsOf(s, rest[1..])).1
    requires Delivered(s, r, f, rest[1..], d)
    ensures Fold(s.flg[f].flgptn, WantsOf(s, rest)) == (Fold(s.flg[f].flgptn, WantsOf(s, rest[1..])).0, [None] + d)
    ensures Delivered(s, r, f, rest, [None] + d)
  {
    UntouchedBySet(s, f, rest[1..], rest[0]);
    FoldStep(s, s, f, rest, s.flg[f].flgptn, None);
    DeliveredCons(s, s, r, f, rest, [None] + d);
  }

  lemma FoldStep(s: KState, g: KState, f: FlgId, rest: seq<TaskId>, p: Ptn, o: Option<Ptn>)
    requires rest != [] && s.tcb[rest[0]].winfo.FlgInfo?
    requires forall u :: u in rest[1..] ==> Wants(g, u) == Wants(s, u)
    requires if Satisfied(s, s.flg[f].flgptn, rest[0])
             then o == Some(s.flg[f].flgptn) && p == Consume(s.flg[f].flgptn, s.tcb[rest[0]].winfo.waiptn, s.tcb[rest[0]].winfo.wfmode)
             else o == None && p == s.flg[f].flgptn
    ensures Fold(s.flg[f].flgptn, WantsOf(s, rest)).0 == Fold(p, WantsOf(g, rest[1..])).0
    ensures Fold(s.flg[f].flgptn, WantsOf(s, rest)).1 == [o] + Fold(p, WantsOf(g, rest[1..])).1
  {
    assert WantsOf(s, rest)[1..] == WantsOf(g, rest[1..]);
  }

  lemma {:induction false} FoldHit(s: KState, f: FlgId, rest: seq<TaskId>)
    requires Core(s) && Unvisited(s, f, rest) && rest != [] && s.tcb[rest[0]].winfo.FlgInfo?
    requires Satisfied(s, s.flg[f].flgptn, rest[0])
    ensures SetFrom(s, f, rest).flg[f].flgptn == Fold(s.flg[f].flgptn, WantsOf(s, rest)).0
    ensures Delivered(s, SetFrom(s, f, rest), f, rest, Fold(s.flg[f].flgptn, WantsOf(s, rest)).1)
    decreases rest, 0
  {
    var t := rest[0];
    var g := Deliver(s, f, t);
    var r := SetFrom(g, f, rest[1..]);
    hide Core, Ends, Deliver, Match, SetFrom, Fold, Delivered, WantsOf;
    SetFromHit(s, f, rest);
    DeliverOthers(s, f, t);
    DeliverUnvisited(s, f, rest);
    hide Consume;
    SetFromIsFold(g, f, rest[1..]);
    WalkEnds(g, f, rest[1..]);
    HitAlone(s, f, rest, r);
    HitStep(s, g, f, rest, r);
  }

  lemma HitStep(s: KState, g: KState, f: FlgId, rest: seq<TaskId>, r: KState)
    requires rest != [] && s.tcb[rest[0]].winfo.FlgInfo? && Satisfied(s, s.flg[f].flgptn, rest[0])
    requires g.flg[f].flgptn == Consume(s.flg[f].flgptn, s.tcb[rest[0]].winfo.waiptn, s.tcb[rest[0]].winfo.wfmode)
    requires (forall u :: u in rest[1..] ==> g.tcb[u] == s.tcb[u]) && Delivered(s, r, f, rest[..1], [Some(s.flg[f].flgptn)])
    requires r.flg[f].flgptn == Fold(g.flg[f].flgptn, WantsOf(g, rest[1..])).0
    requires Delivered(g, r, f, rest[1..], Fold(g.flg[f].flgptn, WantsOf(g, rest[1..])).1)
    ensures r.flg[f].flgptn == Fold(s.flg[f].flgptn, WantsOf(s, rest)).0
    ensures Delivered(s, r, f, rest, Fold(s.flg[f].flgptn, WantsOf(s, rest)).1)
  {
    hide Satisfied, Consume, Fold, Delivered;
    FoldStep(s, g, f, rest, g.flg[f].flgptn, Some(s.flg[f].flgptn));
    DeliveredAfter(s, g, r, f, rest, Some(s.flg[f].flgptn), Fold(g.flg[f].flgptn, WantsOf(g, rest[1..])).1);
  }

  lemma SetFromHit(s: KState, f: FlgId, rest: seq<TaskId>)
    requires rest != [] && s.tcb[rest[0]].winfo.FlgInfo? && Satisfied(s, s.flg[f].flgptn, rest[0])
    ensures SetFrom(s, f, rest) == SetFrom(Deliver(s, f, rest[0]), f, rest[1..])
  {
  }

  lemma HitAlone(s: KState, f: FlgId, rest: seq<TaskId>, r: KState)
    requires Core(s) && rest != [] && rest[0] in Waiters(s, FlgQ(f)) && s.tcb[rest[0]].winfo.FlgInfo?
    requires Ends(Deliver(s, f, rest[0]), r)
    ensures Delivered(s, r, f, rest[..1], [Some(s.flg[f].flgptn)])
  {
    hide Core, Ends, Deliver;
    HitDelivered(s, f, rest[0], r);
  }

  lemma DeliveredAfter(s: KState, g: KState, r: KState, f: FlgId, rest: seq<TaskId>, o: Option<Ptn>, d: seq<Option<Ptn>>)
    requires rest != [] && |d| + 1 == |rest|
    requires Delivered(g, r, f, rest[1..], d) && Delivered(s, r, f, rest[..1], [o])
    requires forall u :: u in rest[1..] ==> g.tcb[u] == s.tcb[u]
    ensures Delivered(s, r, f, rest, [o] + d)
  {
    hide Delivered;
    assert ([o] + d)[1..] == d && ([o] + d)[..1] == [o];
    DeliveredCons(s, g, r, f, rest, [o] + d);
  }

  lemma WalkEnds(s: KState, f: FlgId, rest: seq<TaskId>)
    requires Core(s) && Unvisited(s, f, rest)
    ensures Ends(s, SetFrom(s, f, rest))
  {
    SetFromKeeps(s, f, rest);
  }

  lemma DeliverOthers(s: KState, f: FlgId, t: TaskId)
    requires Core(s) && t in Waiters(s, FlgQ(f)) && s.tcb[t].winfo.FlgInfo?
    ensures Core(Deliver(s, f, t))
    ensures Deliver(s, f, t).flg[f].flgptn == Consume(s.flg[f].flgptn, s.tcb[t].winfo.waiptn, s.tcb[t].winfo.wfmode)
    ensures Deliver(s, f, t).flg == s.flg[f := s.flg[f].(flgptn := Deliver(s, f, t).flg[f].flgptn)]
    ensures forall u: TaskId :: u != t ==> Deliver(s, f, t).tcb[u] == s.tcb[u]
  {
    hide Core, Ends;
    DeliverKeeps(s, f, t);
  }

  lemma {:induction false} UntouchedBySet(s: KState, f: FlgId, rest: seq<TaskId>, t: TaskId)
    requires Core(s) && Unvisited(s, f, rest) && t !in rest && t in Waiters(s, FlgQ(f))
    ensures SetFrom(s, f, rest).tcb[t] == s.tcb[t] && t in Waiters(SetFrom(s, f, rest), FlgQ(f))
    decreases rest
  {
    if rest != [] {
      if Satisfied(s, s.flg[f].flgptn, rest[0]) {
        DeliverKeeps(s, f, rest[0]);
        DeliverUnvisited(s, f, rest);
        UntouchedBySet(Deliver(s, f, rest[0]), f, rest[1..], t);
      } else {
        UntouchedBySet(s, f, rest[1..], t);
      }
    }
  }

  lemma SameWants(s: KState, u: KState, w: seq<TaskId>)
    requires u.tcb == s.tcb
    ensures WantsOf(u, w) == WantsOf(s, w)
  {
  }

  lemma WalkSets(s: KState, u: KState, id: int, setptn: Ptn, f: FlgId, w: seq<TaskId>, x: KState, d: seq<Option<Ptn>>)
    requires InRange(id, CFN_MAX_FLGID) && f == id - 1 && s.flg[f].live && w == Waiters(s, FlgQ(f))
    requires u == s.(flg := s.flg[f := s.flg[f].(flgptn := s.flg[f].flgptn + setptn)])
    requires x == SetFrom(u, f, w) && |d| == |w| && Delivered(u, x, f, w, d)
    ensures var r := SetFlg(s, id, setptn);
            r.1 == Er(E_OK) && r.0.flg[f] == x.flg[f] && Delivered(s, r.0, f, w, d)
  {
    if w != [] { ReschedDelivers(u, x, f, w, d); }
  }

  /** tk_set_flg on a live flag is the fold over its waiters in queue order. */
  lemma SetFlgIsFold(s: KState, id: int, setptn: Ptn)
    requires Inv(s) && InRange(id, CFN_MAX_FLGID) && s.flg[id - 1].live
    ensures var f: FlgId := id - 1;
            var r := SetFlg(s, id, setptn);
            var w := Waiters(s, FlgQ(f));
            var (p, d) := Fold(s.flg[f].flgptn + setptn, WantsOf(s, w));
            && r.1 == Er(E_OK) && r.0.flg[f].flgptn == p && Delivered(s, r.0, f, w, d)
  {
    hide Inv, Core, LinksOk, AllSettled, Unvisited, SetFrom, Fold, Delivered;
    InvGives(s);
    var f: FlgId := id - 1;
    var u := s.(flg := s.flg[f := s.flg[f].(flgptn := s.flg[f].flgptn + setptn)]);
    var w := Waiters(s, FlgQ(f));
    WithFlgCore(s, f, u.flg[f]);
    AllUnvisited(s, f, u.flg[f]);
    SetFromIsFold(u, f, w);
    SameWants(s, u, w);
    WalkSets(s, u, id, setptn, f, w, SetFrom(u, f, w), Fold(u.flg[f].flgptn, WantsOf(u, w)).1);
  }

  lemma AllUnvisited(s: KState, f: FlgId, c: Flgcb)
    requires LinksOk(s)
    ensures Unvisited(WithFlg(s, f, c), f, Waiters(s, FlgQ(f)))
  {
    assert NoDup(s.waits.Get(FlgQ(f)));
    assert Waiters(WithFlg(s, f, c), FlgQ(f)) == Waiters(s, FlgQ(f));
  }

  lemma ReschedDelivers(s: KState, r: KState, f: FlgId, w: seq<TaskId>, d: seq<Option<Ptn>>)
    requires |d| == |w| && Delivered(s, r, f, w, d)
    ensures Delivered(s, Resched(r), f, w, d)
  {
    assert Waiters(Resched(r), FlgQ(f)) == Waiters(r, FlgQ(f));
  }
}
