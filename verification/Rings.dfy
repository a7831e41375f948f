/** Queues of tasks as the kernel keeps them: every task owns one link, and a link is on at most one ring.
    A link remembers its ring, as an intrusive list node does: deleting it needs no queue argument. */
module Rings {
  import opened Types

  /** Detached is a node linked to itself, Poison one that was deleted and not initialised again. */
  datatype Link<Q> = Detached | Poison | On(q: Q)

  type Links<Q> = s: seq<Link<Q>> | |s| == CFN_MAX_TSKID witness seq(CFN_MAX_TSKID, _ => Detached)

  ghost predicate NoDup<T>(q: seq<T>) {
    forall i, j :: 0 <= i < j < |q| ==> q[i] != q[j]
  }

  /** q with every occurrence of x taken out. */
  function Without<T(==,!new)>(q: seq<T>, x: T): (r: seq<T>)
    ensures |r| <= |q|
    ensures forall y :: y in r <==> y in q && y != x
  {
    if q == [] then []
    else if q[0] == x then Without(q[1..], x)
    else [q[0]] + Without(q[1..], x)
  }

  function InsertAt<T>(q: seq<T>, i: nat, x: T): seq<T>
    requires i <= |q|
  {
    q[..i] + [x] + q[i..]
  }

  /** The rings, keyed by their head; a head that is no key has an empty ring. */
  datatype Rings<Q(==)> = Rings(ring: map<Q, seq<TaskId>>, at: Links<Q>)
  {
    function Get(q: Q): seq<TaskId> {
      if q in ring then ring[q] else []
    }

    function Init(t: TaskId): Rings<Q> {
      this.(at := at[t := Detached])
    }

    function Del(t: TaskId): Rings<Q> {
      var r := this.(at := at[t := Poison]);
      if at[t].On? then r.(ring := ring[at[t].q := Without(Get(at[t].q), t)]) else r
    }

    function Put(t: TaskId, q: Q, i: nat): Rings<Q>
      requires i <= |Get(q)|
    {
      Rings(ring[q := InsertAt(Get(q), i, t)], at[t := On(q)])
    }

    /** The head is initialised: its ring is empty. */
    function Clear(q: Q): Rings<Q> {
      this.(ring := ring[q := []])
    }

    function AddTail(t: TaskId, q: Q): Rings<Q> {
      Rings(ring[q := Get(q) + [t]], at[t := On(q)])
    }
  }

  /** The links and the rings agree, and no ring holds a task twice. */
  ghost predicate Coherent<Q(!new)>(r: Rings<Q>) {
    && (forall q, t: TaskId :: t in r.Get(q) ==> r.at[t] == On(q))
    && (forall t: TaskId :: r.at[t].On? ==> t in r.Get(r.at[t].q))
    && (forall q :: NoDup(r.Get(q)))
  }

  lemma {:induction false} WithoutIsCut<T(!new)>(q: seq<T>, i: nat)
    requires NoDup(q) && i < |q|
    ensures Without(q, q[i]) == q[..i] + q[i+1..]
  {
    if i == 0 {
      WithoutAbsent(q[1..], q[0]);
    } else {
      WithoutIsCut(q[1..], i - 1);
    }
  }

  lemma {:induction false} WithoutAbsent<T(!new)>(q: seq<T>, x: T)
    requires x !in q
    ensures Without(q, x) == q
  {
    if q != [] {
      WithoutAbsent(q[1..], x);
    }
  }

  lemma DelCoherent<Q(!new)>(r: Rings<Q>, t: TaskId)
    requires Coherent(r)
    ensures Coherent(r.Del(t))
    ensures forall q :: r.Del(t).Get(q) == if r.at[t] == On(q) then Without(r.Get(q), t) else r.Get(q)
  {
    var d := r.Del(t);
    forall q ensures NoDup(d.Get(q)) {
      if r.at[t] == On(q) {
        var i :| 0 <= i < |r.Get(q)| && r.Get(q)[i] == t;
        WithoutIsCut(r.Get(q), i);
      }
    }
  }

  lemma PutCoherent<Q(!new)>(r: Rings<Q>, t: TaskId, q: Q, i: nat)
    requires Coherent(r) && !r.at[t].On? && i <= |r.Get(q)|
    ensures Coherent(r.Put(t, q, i))
    ensures forall p :: r.Put(t, q, i).Get(p) == if p == q then InsertAt(r.Get(q), i, t) else r.Get(p)
  {
    var d := r.Put(t, q, i);
    assert forall u :: u in d.Get(q) <==> u == t || u in r.Get(q) by {
      assert r.Get(q) == r.Get(q)[..i] + r.Get(q)[i..];
    }
    assert NoDup(d.Get(q));
    forall p ensures NoDup(d.Get(p)) {
      assert NoDup(r.Get(p));
    }
  }

  lemma AddTailIsPut<Q(!new)>(r: Rings<Q>, t: TaskId, q: Q)
    ensures r.AddTail(t, q) == r.Put(t, q, |r.Get(q)|)
  {
    assert InsertAt(r.Get(q), |r.Get(q)|, t) == r.Get(q) + [t];
  }

  lemma ClearCoherent<Q(!new)>(r: Rings<Q>, q: Q)
    requires Coherent(r) && r.Get(q) == []
    ensures Coherent(r.Clear(q))
    ensures forall p :: r.Clear(q).Get(p) == r.Get(p)
  {
    forall p ensures NoDup(r.Clear(q).Get(p)) {
      assert NoDup(r.Get(p));
    }
  }

  lemma InitCoherent<Q(!new)>(r: Rings<Q>, t: TaskId)
    requires Coherent(r) && !r.at[t].On?
    ensures Coherent(r.Init(t))
    ensures forall q :: r.Init(t).Get(q) == r.Get(q)
  {
    forall q ensures NoDup(r.Init(t).Get(q)) {
      assert NoDup(r.Get(q));
    }
  }

  /* ---- order in a queue ---- */

  function Index<T(==)>(q: seq<T>, x: T): (i: nat)
    requires x in q
    ensures i < |q| && q[i] == x
  {
    if q[0] == x then 0 else 1 + Index(q[1..], x)
  }

  /** Every element of a is one of b, and the elements of a are in the order of b. */
  ghost predicate Thinner<T(!new)>(a: seq<T>, b: seq<T>) {
    && |a| <= |b|
    && (forall x :: x in a ==> x in b)
    && (forall x, y :: x in a && y in a && Index(a, x) < Index(a, y) ==> Index(b, x) < Index(b, y))
  }

  lemma {:induction false} WithoutIsThinner<T(!new)>(q: seq<T>, t: T)
    ensures Thinner(Without(q, t), q)
  {
    if q != [] {
      WithoutIsThinner(q[1..], t);
      var r := Without(q[1..], t);
      if q[0] != t {
        assert ([q[0]] + r)[1..] == r;
      }
    }
  }

  lemma {:induction false} IndexUnique<T(!new)>(q: seq<T>, i: nat)
    requires NoDup(q) && i < |q|
    ensures Index(q, q[i]) == i
  {
  }
}
