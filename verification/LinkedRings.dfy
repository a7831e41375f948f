/** kernel/list.h at the level of its pointers, and the proof that it is what module Rings says: circular doubly
    linked rings, each with a head node, on which the links of the tasks are the other nodes. */
module LinkedRings {
  import opened Types
  import opened Rings

  /** A link. null stands for the value tkmc_list_del leaves in the links it takes off a ring. */
  class ListHead {
    var next: ListHead?
    var prev: ListHead?
    const entry: TaskId // the task it is a member of, if it is not the head of a ring

    constructor (t: TaskId)
      ensures entry == t && next == null && prev == null
    {
      entry := t;
      next, prev := null, null;
    }
  }

  /** The node after the i-th of a ring, round to the first. */
  ghost function After(r: seq<ListHead>, i: nat): ListHead
    requires i < |r|
  {
    if i + 1 < |r| then r[i + 1] else r[0]
  }

  /** The nodes of r, in this order, make a ring: every link is matched by the link back. */
  ghost predicate IsRing(r: seq<ListHead>)
    reads r
  {
    && r != [] && NoDup(r)
    && forall i :: 0 <= i < |r| ==> r[i].next == After(r, i) && After(r, i).prev == r[i]
  }

  method InitListHead(h: ListHead)
    modifies h
    ensures IsRing([h])
  {
    h.next := h;
    h.prev := h;
  }

  method ListEmpty(h: ListHead, ghost r: seq<ListHead>) returns (empty: bool)
    requires IsRing(r) && r[0] == h
    ensures empty == (|r| == 1)
  {
    empty := h == h.next;
  }

  method ListDel(x: ListHead, ghost r: seq<ListHead>, ghost i: nat)
    requires IsRing(r) && 0 < i < |r| && r[i] == x
    modifies r
    ensures IsRing(r[..i] + r[i + 1..]) && x.next == null && x.prev == null
  {
    var prev := x.prev;
    var next := x.next;
    assert After(r, i - 1) == x && prev == r[i - 1] && next == After(r, i);
    prev.next := next;
    next.prev := prev;
    x.next, x.prev := null, null;
    ghost var s := r[..i] + r[i + 1..];
    forall k | 0 <= k < |s| ensures s[k].next == After(s, k) && After(s, k).prev == s[k] {
      if k < i { assert s[k] == r[k]; } else { assert s[k] == r[k + 1]; }
    }
  }

  method ListAddBetween(x: ListHead, prev: ListHead, next: ListHead)
    modifies x, prev, next
    ensures next.prev == x && x.prev == prev && prev.next == x && x.next == next
    ensures prev != next ==> prev.prev == old(prev.prev) && next.next == old(next.next)
    requires x != prev && x != next
  {
    next.prev := x;
    x.next := next;
    x.prev := prev;
    prev.next := x;
  }

  /** x goes after the i-th node. */
  method ListAdd(x: ListHead, at: ListHead, ghost r: seq<ListHead>, ghost i: nat)
    requires IsRing(r) && i < |r| && r[i] == at && x !in r
    modifies r, x
    ensures IsRing(r[..i + 1] + [x] + r[i + 1..])
  {
    assert at.next == After(r, i);
    ListAddBetween(x, at, at.next);
    ghost var s := r[..i + 1] + [x] + r[i + 1..];
    forall k | 0 <= k < |s| ensures s[k].next == After(s, k) && After(s, k).prev == s[k] {
      if k <= i { assert s[k] == r[k]; } else if k > i + 1 { assert s[k] == r[k - 1]; }
    }
  }

  /** x goes before the head: at the tail. */
  method ListAddTail(x: ListHead, head: ListHead, ghost r: seq<ListHead>)
    requires IsRing(r) && r[0] == head && x !in r
    modifies r, x
    ensures IsRing(r + [x])
  {
    ghost var n: nat := |r| - 1;
    assert After(r, n) == head && head.prev == r[n];
    ListAddBetween(x, head.prev, head);
    ghost var s := r + [x];
    forall k | 0 <= k < |s| ensures s[k].next == After(s, k) && After(s, k).prev == s[k] {
      if k < |r| { assert s[k] == r[k]; }
    }
  }

  /** The two ends of the ring are one node exactly when it holds at most one entry. */
  lemma EndsMeet(head: ListHead, r: seq<ListHead>)
    requires IsRing(r) && r[0] == head
    ensures head.next == head.prev <==> |r| <= 2
  {
    var n: nat := |r| - 1;
    assert head.next == After(r, 0);
    assert r[n].next == After(r, n) == head && head.prev == r[n];
  }

  /** The links of all tasks and the heads of all rings: `rings` says which task is where, and the pointers agree. */
  class LinkTable<Q(==,!new)> {
    const node: seq<ListHead>
    const head: map<Q, ListHead>
    ghost const all: set<ListHead>
    ghost var rings: Rings<Q>

    /** The nodes are the tasks', one each, and no head is one of them or another's. */
    ghost predicate Shape() {
      && |node| == CFN_MAX_TSKID
      && (forall t: TaskId :: node[t].entry == t && node[t] in all)
      && (forall q :: q in head ==> head[q] in all)
      && (forall q, t: TaskId :: q in head ==> head[q] != node[t])
      && (forall p, q :: p in head && q in head && p != q ==> head[p] != head[q])
    }

    ghost function Nodes(ts: seq<TaskId>): seq<ListHead>
      requires Shape()
    {
      seq(|ts|, i requires 0 <= i < |ts| => node[ts[i]])
    }

    /** The nodes of a ring, the head first. */
    ghost function RingOf(q: Q): seq<ListHead>
      requires Shape() && q in head
      reads this
    {
      [head[q]] + Nodes(rings.Get(q))
    }

    ghost function Repr(): set<object> {
      all + {this}
    }

    /** The rings of the pointers are the rings of `rings`, and a task on none is as its link says. */
    ghost predicate Linked()
      reads this, Repr()
    {
      && Shape() && Coherent(rings)
      && (forall q :: rings.Get(q) != [] ==> q in head)
      && (forall q :: q in head ==> IsRing(RingOf(q)))
      && (forall t: TaskId :: rings.at[t].Detached? ==> IsRing([node[t]]))
      && (forall t: TaskId :: rings.at[t].Poison? ==> node[t].next == null && node[t].prev == null)
    }

    ghost predicate Valid()
      reads this, Repr()
    {
      Linked() == true
    }

    lemma RingNodes(q: Q)
      requires Shape() && Coherent(rings) && q in head
      ensures forall t: TaskId :: node[t] in RingOf(q) <==> rings.at[t] == On(q)
      ensures forall p :: p in head ==> (head[p] in RingOf(q) <==> p == q)
      ensures forall x :: x in RingOf(q) ==> x in all
    {
      var ts := rings.Get(q);
      forall t: TaskId ensures node[t] in RingOf(q) <==> rings.at[t] == On(q) {
        if rings.at[t] == On(q) {
          assert RingOf(q)[Index(ts, t) + 1] == node[t];
        }
        if node[t] in RingOf(q) {
          var i :| 0 <= i < |ts| && node[ts[i]] == node[t];
          assert node[ts[i]].entry == ts[i] && ts[i] in rings.Get(q);
        }
      }
    }

    lemma RingsApart(p: Q, q: Q)
      requires Shape() && Coherent(rings) && p in head && q in head && p != q
      ensures forall x :: x in RingOf(p) ==> x !in RingOf(q)
    {
      RingNodes(q);
      var r := RingOf(p);
      forall i | 0 <= i < |r| ensures r[i] !in RingOf(q) {
        if i > 0 {
          var u := rings.Get(p)[i - 1];
          assert r[i] == node[u] && u in rings.Get(p);
        }
      }
    }

    lemma NodesAppend(a: seq<TaskId>, b: seq<TaskId>)
      requires Shape()
      ensures Nodes(a + b) == Nodes(a) + Nodes(b)
    {
    }

    /** Everything is in order but the ring q and the node of t. */
    ghost predicate ValidBut(q: Q, t: TaskId)
      reads this, Repr()
    {
      && Shape() && Coherent(rings)
      && (forall p :: rings.Get(p) != [] ==> p in head)
      && (forall p :: p in head && p != q ==> IsRing(RingOf(p)))
      && (forall u: TaskId :: u != t && rings.at[u].Detached? ==> IsRing([node[u]]))
      && (forall u: TaskId :: u != t && rings.at[u].Poison? ==> node[u].next == null && node[u].prev == null)
    }

    /** A change to the nodes of one ring and one task leaves the rest in order. */
    twostate lemma RestKept(q: Q, new t: TaskId)
      requires old(Valid()) && q in head && rings == old(rings) && (rings.at[t].On? ==> rings.at[t].q == q)
      requires forall x: ListHead :: x in all && x !in RingOf(q) && x != node[t] ==> unchanged(x)
      ensures ValidBut(q, t) == true
    {
      RingNodes(q);
      forall p | p in head && p != q ensures IsRing(RingOf(p)) {
        RingsApart(p, q);
        RingNodes(p);
        SameRing(RingOf(p));
      }
    }

    twostate lemma SameRing(r: seq<ListHead>)
      requires old(IsRing(r)) && forall x :: x in r ==> unchanged(x)
      ensures IsRing(r)
    {
      forall i | 0 <= i < |r| ensures r[i].next == After(r, i) && After(r, i).prev == r[i] {
        assert r[i] in r && After(r, i) in r;
      }
    }

    lemma AddTailNodes(t: TaskId, q: Q)
      requires Shape() && Coherent(rings) && q in head && !rings.at[t].On?
      ensures Coherent(rings.AddTail(t, q))
      ensures forall p :: p != q ==> rings.AddTail(t, q).Get(p) == rings.Get(p)
      ensures [head[q]] + Nodes(rings.AddTail(t, q).Get(q)) == RingOf(q) + [node[t]]
    {
      AddTailIsPut(rings, t, q);
      PutCoherent(rings, t, q, |rings.Get(q)|);
      NodesAppend(rings.Get(q), [t]);
    }

    /** tkmc_list_add_tail(&tcb->link, &head) */
    method AddTail(t: TaskId, q: Q)
      requires Valid() && q in head && !rings.at[t].On?
      modifies Repr()
      ensures Valid() && rings == old(rings).AddTail(t, q)
    {
      RingNodes(q);
      AddTailNodes(t, q);
      ListAddTail(node[t], head[q], RingOf(q));
      RestKept(q, t);
      Relink(t, q, rings.AddTail(t, q));
    }

    lemma PutNodes(t: TaskId, q: Q, i: nat)
      requires Shape() && Coherent(rings) && q in head && !rings.at[t].On? && i < |rings.Get(q)|
      ensures Coherent(rings.Put(t, q, i))
      ensures forall p :: p != q ==> rings.Put(t, q, i).Get(p) == rings.Get(p)
      ensures [head[q]] + Nodes(rings.Put(t, q, i).Get(q)) == RingOf(q)[..i + 1] + [node[t]] + RingOf(q)[i + 1..]
    {
      PutCoherent(rings, t, q, i);
    }

    method PutNodeBefore(t: TaskId, pos: TaskId, ghost q: Q, ghost r: seq<ListHead>, ghost i: nat)
      requires Valid() && q in head && !rings.at[t].On? && r == RingOf(q) && i + 1 < |r| && r[i + 1] == node[pos]
      modifies Repr()
      ensures ValidBut(q, t) == true && rings == old(rings)
      ensures IsRing(r[..i + 1] + [node[t]] + r[i + 1..]) == true
    {
      assert node[t] !in r && forall x :: x in r ==> x in all by { RingNodes(q); }
      assert IsRing(r) && After(r, i) == node[pos];
      var before := node[pos].prev;
      ListAdd(node[t], before, r, i);
      RestKept(q, t);
    }

    /** tkmc_list_add(&tcb->link, pos->link.prev): the task goes before the i-th on the ring. */
    method PutBefore(t: TaskId, pos: TaskId, ghost q: Q, ghost i: nat)
      requires Valid() && q in head && !rings.at[t].On? && i < |rings.Get(q)| && rings.Get(q)[i] == pos
      modifies Repr()
      ensures Valid() && rings == old(rings).Put(t, q, i)
    {
      PutNodes(t, q, i);
      PutNodeBefore(t, pos, q, RingOf(q), i);
      Relink(t, q, rings.Put(t, q, i));
    }

    static ghost predicate SameBut(r: Rings<Q>, s: Rings<Q>, q: Q) {
      forall p :: p != q ==> r.Get(p) == s.Get(p)
    }

    lemma DelIsCut(r: Rings<Q>, t: TaskId, q: Q, a: seq<TaskId>, b: seq<TaskId>)
      requires Coherent(r) && r.Get(q) == a + [t] + b
      ensures Coherent(r.Del(t)) == true && r.Del(t).Get(q) == a + b && SameBut(r.Del(t), r, q) == true
    {
      var c := r.Get(q);
      assert c[|a|] == t && t in r.Get(q);
      assert NoDup(r.Get(q));
      DelCoherent(r, t);
      WithoutIsCut(c, |a|);
      assert c[..|a|] == a && c[|a| + 1..] == b;
    }

    lemma DelNodes(t: TaskId, q: Q, k: nat)
      requires Shape() == true && Coherent(rings) == true && q in head
      requires 0 < k <= |rings.Get(q)| && rings.Get(q)[k - 1] == t
      ensures Coherent(rings.Del(t)) == true && SameBut(rings.Del(t), rings, q) == true
      ensures [head[q]] + Nodes(rings.Del(t).Get(q)) == RingOf(q)[..k] + RingOf(q)[k + 1..]
    {
      var ts := rings.Get(q);
      var i: nat := k - 1;
      var a, b := ts[..i], ts[k..];
      DelIsCut(rings, t, q, a, b);
      CutNodes(q, a, t, b);
    }

    lemma CutNodes(q: Q, a: seq<TaskId>, t: TaskId, b: seq<TaskId>)
      requires Shape() && q in head && rings.Get(q) == a + [t] + b
      ensures [head[q]] + Nodes(a + b) == RingOf(q)[..|a| + 1] + RingOf(q)[|a| + 2..]
    {
    }

    method DelNode(t: TaskId, ghost q: Q, ghost r: seq<ListHead>, ghost k: nat)
      requires Valid() && rings.at[t] == On(q) && q in head && r == RingOf(q) && 0 < k < |r| && r[k] == node[t]
      modifies Repr()
      ensures ValidBut(q, t) == true && rings == old(rings)
      ensures IsRing(r[..k] + r[k + 1..]) == true && node[t].next == null && node[t].prev == null
    {
      assert forall x :: x in r ==> x in all by { RingNodes(q); }
      ListDel(node[t], r, k);
      RestKept(q, t);
    }

    /** tkmc_list_del(&tcb->link): the node knows its neighbours, no head is named. */
    method Del(t: TaskId)
      requires Valid() && rings.at[t].On?
      modifies Repr()
      ensures Valid() && rings == old(rings).Del(t)
    {
      ghost var q := rings.at[t].q;
      ghost var k: nat := Index(rings.Get(q), t) + 1;
      DelNodes(t, q, k);
      DelNode(t, q, RingOf(q), k);
      Relink(t, q, rings.Del(t));
    }

    /** tkmc_init_list_head(&tcb->link) */
    method Init(t: TaskId)
      requires Valid() && !rings.at[t].On?
      modifies Repr()
      ensures Valid() && rings == old(rings).Init(t)
    {
      InitCoherent(rings, t);
      InitListHead(node[t]);
      ghost var r := rings.Init(t);
      forall q | q in head ensures IsRing(RingOf(q)) {
        RingNodes(q);
        SameRing(RingOf(q));
      }
      rings := r;
    }

    /** !tkmc_list_empty(&tcb->link): whether the task is on a ring, told by its own link. */
    method IsLinked(t: TaskId) returns (linked: bool)
      requires Valid() && !rings.at[t].Poison?
      ensures Valid() && linked == rings.at[t].On?
    {
      ghost var r := if rings.at[t].On? then RingOf(rings.at[t].q) else [node[t]];
      linked := node[t] != node[t].next;
      if rings.at[t].On? {
        RingNodes(rings.at[t].q);
        var i :| 0 <= i < |r| && r[i] == node[t];
        assert r[i].next == After(r, i);
      } else {
        assert IsRing(r) && r[0].next == After(r, 0);
      }
    }

    /** tkmc_list_empty(&head) and tkmc_list_first_entry(&head, TCB, link) */
    method FirstEntry(q: Q) returns (r: Option<TaskId>)
      requires Valid() && q in head
      ensures Valid()
      ensures r == Nth(rings.Get(q), 0)
    {
      ghost var n := RingOf(q);
      assert IsRing(n) && head[q].next == After(n, 0);
      var first := head[q].next;
      if first == head[q] {
        r := None;
      } else {
        r := Some(first.entry);
      }
    }

    /** head.next == head.prev, the test of tkmc_idle_can_halt: at most one entry. */
    method EndsAreOne(q: Q) returns (one: bool)
      requires Valid() && q in head
      ensures Valid() && one == (|rings.Get(q)| <= 1)
    {
      EndsMeet(head[q], RingOf(q));
      one := head[q].next == head[q].prev;
    }

    lemma AfterEntry(q: Q, i: nat)
      requires Shape() == true && q in head && IsRing(RingOf(q)) == true && i < |rings.Get(q)|
      ensures node[rings.Get(q)[i]].next == if i + 1 < |rings.Get(q)| then node[rings.Get(q)[i + 1]] else head[q]
    {
      var r := RingOf(q);
      var k: nat := i + 1;
      assert r[k] == node[rings.Get(q)[i]] && r[k].next == After(r, k);
    }

    /** The entry after t on its ring, or none at the end: tkmc_list_next_entry, with the test for the head. */
    method NextEntry(t: TaskId, q: Q, ghost i: nat) returns (r: Option<TaskId>)
      requires Valid() && q in head && i < |rings.Get(q)| && rings.Get(q)[i] == t
      ensures Valid()
      ensures r == Nth(rings.Get(q), i + 1)
    {
      AfterEntry(q, i);
      var next := node[t].next;
      if next == head[q] {
        r := None;
      } else {
        r := Some(next.entry);
      }
    }

    /** The part of a queue that is not taken off. */
    static function Spared(w: seq<TaskId>, off: set<TaskId>): seq<TaskId> {
      if w == [] then []
      else Spared(w[..|w| - 1], off) + if w[|w| - 1] in off then [] else [w[|w| - 1]]
    }

    static function Nth(w: seq<TaskId>, k: nat): Option<TaskId> {
      if k < |w| then Some(w[k]) else None
    }

    /** A traversal of the entries ts that has visited some of them; now is what is on the ring. */
    static ghost predicate Halfway(ts: seq<TaskId>, off: set<TaskId>, visited: seq<TaskId>, rest: seq<TaskId>, now: seq<TaskId>) {
      visited + rest == ts && now == Spared(visited, off) + rest
    }

    lemma NextRound(ts: seq<TaskId>, off: set<TaskId>, visited: seq<TaskId>, rest: seq<TaskId>, now: seq<TaskId>)
      requires Halfway(ts, off, visited, rest, now) && rest != []
      ensures now == Spared(visited, off) + [rest[0]] + rest[1..]
      ensures Spared(visited + [rest[0]], off) == Spared(visited, off) + if rest[0] in off then [] else [rest[0]]
      ensures visited + [rest[0]] + rest[1..] == ts
      ensures Nth(rest, 1) == Nth(rest[1..], 0) && Nth(rest[1..], 1) == Nth(rest, 2)
    {
      assert rest == [rest[0]] + rest[1..];
      SparedAppend(visited, rest[0], off);
    }

    lemma SparedAppend(w: seq<TaskId>, t: TaskId, off: set<TaskId>)
      ensures Spared(w + [t], off) == Spared(w, off) + if t in off then [] else [t]
    {
      assert (w + [t])[..|w|] == w;
    }

    lemma AfterVisit(r: Rings<Q>, q: Q, a: seq<TaskId>, t: TaskId, rest: seq<TaskId>)
      requires Coherent(r) && r.Get(q) == a + [t] + rest
      ensures r.at[t] == On(q)
      ensures r.Del(t).Init(t).Get(q) == a + rest && SameBut(r.Del(t).Init(t), r, q) == true
    {
      assert r.Get(q)[|a|] == t && t in r.Get(q);
      DelIsCut(r, t, q, a, rest);
      InitCoherent(r.Del(t), t);
    }

    /** What the body of a traversal does to the entry it is on: nothing, or takes it off, as tkmc_complete_wait does. */
    method Visit(t: TaskId, ghost q: Q, off: set<TaskId>, ghost a: seq<TaskId>, ghost rest: seq<TaskId>)
      requires Valid() && rings.Get(q) == a + [t] + rest
      modifies Repr()
      ensures Valid()
      ensures rings.Get(q) == a + (if t in off then [] else [t]) + rest && SameBut(rings, old(rings), q) == true
    {
      if t in off {
        AfterVisit(rings, q, a, t, rest);
        Del(t);
        Init(t);
        assert a + [] == a;
      }
    }

    /** The entry after the one prefetched, if one was. */
    method Prefetch(n: Option<TaskId>, q: Q, ghost k: nat) returns (m: Option<TaskId>)
      requires Valid() && q in head
      requires n == Nth(rings.Get(q), k)
      ensures Valid()
      ensures m == Nth(rings.Get(q), k + 1)
    {
      m := None;
      if n.Some? {
        m := NextEntry(n.value, q, k);
      }
    }

    /** One round: the body, then the entry after the prefetched one is fetched. */
    method Round(t: TaskId, n: Option<TaskId>, q: Q, off: set<TaskId>, ghost a: seq<TaskId>, ghost rest: seq<TaskId>,
                 ghost b: seq<TaskId>) returns (m: Option<TaskId>)
      requires Valid() && q in head && rings.Get(q) == a + [t] + rest && n == Nth(rest, 0)
      requires b == a + if t in off then [] else [t]
      modifies Repr()
      ensures Valid()
      ensures rings.Get(q) == b + rest && m == Nth(rest, 1)
      ensures SameBut(rings, old(rings), q) == true
    {
      Visit(t, q, off, a, rest);
      m := PrefetchAfter(n, q, b, rest);
    }

    /** The entry after the one prefetched is the second of what is left. */
    method PrefetchAfter(n: Option<TaskId>, q: Q, ghost a: seq<TaskId>, ghost rest: seq<TaskId>) returns (m: Option<TaskId>)
      requires Valid() && q in head && rings.Get(q) == a + rest && n == Nth(rest, 0)
      ensures Valid()
      ensures m == Nth(rest, 1)
    {
      m := Prefetch(n, q, |a|);
    }

    /** tkmc_list_for_each_entry_safe: whichever entries the body takes off while on them, each entry the ring had
        is visited once, in order, and those spared stay in order. */
    method TraverseSafe(q: Q, off: set<TaskId>) returns (visited: seq<TaskId>)
      requires Valid() && q in head
      modifies Repr()
      ensures Valid()
      ensures visited == old(rings).Get(q)
      ensures rings.Get(q) == Spared(old(rings).Get(q), off)
      ensures forall p :: p != q ==> rings.Get(p) == old(rings).Get(p)
    {
      ghost var was, rest := rings, rings.Get(q);
      visited := [];
      var pos := FirstEntry(q);
      var n := Prefetch(pos, q, 0);
      assert [] + rest == rest;
      while pos.Some?
        invariant Valid()
        invariant Halfway(was.Get(q), off, visited, rest, rings.Get(q)) == true
        invariant SameBut(rings, was, q) == true
        invariant pos == Nth(rest, 0) && n == Nth(rest, 1)
        decreases |rest|
      {
        var t := pos.value;
        NextRound(was.Get(q), off, visited, rest, rings.Get(q));
        ghost var left := rest[1..];
        var m := Round(t, n, q, off, Spared(visited, off), left, Spared(visited + [t], off));
        visited := visited + [t];
        pos, n, rest := n, m, left;
      }
    }

    /** The abstract rings follow a change to ring q that the pointers have made. */
    ghost method Relink(t: TaskId, q: Q, r: Rings<Q>)
      requires ValidBut(q, t) == true && q in head && Coherent(r)
      requires forall p :: p != q ==> r.Get(p) == rings.Get(p)
      requires forall u: TaskId :: u != t ==> r.at[u] == rings.at[u]
      requires IsRing([head[q]] + Nodes(r.Get(q))) == true
      requires r.at[t].Detached? ==> IsRing([node[t]])
      requires r.at[t].Poison? ==> node[t].next == null && node[t].prev == null
      modifies this
      ensures Valid() && rings == r
    {
      rings := r;
    }
  }
}
