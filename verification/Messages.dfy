/** The order of a mailbox: stable insertion by priority. */
module Messages {
  import opened Rings
  import opened KernelState
  import opened KernelOps

  lemma {:induction false} OfPriConcat(a: seq<Msg>, b: seq<Msg>, p: int)
    ensures OfPri(a + b, p) == OfPri(a, p) + OfPri(b, p)
  {
    hide OfPri;
    if a == [] {
      OfPriEmpty(p);
      assert a + b == b;
    } else {
      OfPriConcat(a[1..], b, p);
      OfPriFirst(a, p);
      FirstOfBoth(a, b, p);
    }
  }

  lemma OfPriEmpty(p: int)
    ensures OfPri([], p) == []
  {
  }

  lemma FirstOfBoth(a: seq<Msg>, b: seq<Msg>, p: int)
    requires a != []
    ensures OfPri(a + b, p) == (if a[0].msgpri == p then [a[0]] else []) + OfPri(a[1..] + b, p)
  {
    assert (a + b)[1..] == a[1..] + b;
  }

  lemma OfPriFirst(q: seq<Msg>, p: int)
    requires q != []
    ensures OfPri(q, p) == (if q[0].msgpri == p then [q[0]] else []) + OfPri(q[1..], p)
  {
  }

  lemma {:induction false} OfPriNone(q: seq<Msg>, p: int)
    requires forall i :: 0 <= i < |q| ==> q[i].msgpri != p
    ensures OfPri(q, p) == []
  {
    if q != [] { OfPriNone(q[1..], p); }
  }

  /** Every message before the place is of the same or a higher priority, the one at it of a lower one. */
  lemma {:induction false} MsgPosIs(q: seq<Msg>, p: int)
    ensures forall j :: 0 <= j < MsgPos(q, p) ==> q[j].msgpri <= p
    ensures MsgPos(q, p) < |q| ==> p < q[MsgPos(q, p)].msgpri
  {
    if q != [] && p >= q[0].msgpri {
      MsgPosIs(q[1..], p);
      forall j | 0 <= j < MsgPos(q, p) ensures q[j].msgpri <= p {
        if j > 0 { assert q[1..][j - 1] == q[j]; }
      }
    }
  }

  function Insert(q: seq<Msg>, m: Msg): seq<Msg> {
    InsertAt(q, MsgPos(q, m.msgpri), m)
  }

  lemma OfPriSplit(a: seq<Msg>, m: Msg, b: seq<Msg>, p: int)
    ensures OfPri(a + [m] + b, p) == OfPri(a, p) + OfPri([m], p) + OfPri(b, p)
  {
    OfPriConcat(a + [m], b, p);
    OfPriConcat(a, [m], p);
  }

  /** The new message goes behind all of its own priority. */
  lemma InsertOfPri(q: seq<Msg>, m: Msg, p: int)
    requires MsgOrdered(q)
    ensures OfPri(Insert(q, m), p) == OfPri(q + [m], p)
  {
    var i := MsgPos(q, m.msgpri);
    var a, b := q[..i], q[i..];
    OfPriSplit(a, m, b, p);
    OfPriConcat(q, [m], p);
    assert q == a + b;
    OfPriConcat(a, b, p);
    if p == m.msgpri { NoneBehind(q, m); } else { OfPriNone([m], p); }
    EmptyMoves(OfPri(a, p), OfPri([m], p), OfPri(b, p));
  }

  lemma NoneBehind(q: seq<Msg>, m: Msg)
    requires MsgOrdered(q)
    ensures OfPri(q[MsgPos(q, m.msgpri)..], m.msgpri) == []
  {
    MsgPosIs(q, m.msgpri);
    OfPriNone(q[MsgPos(q, m.msgpri)..], m.msgpri);
  }

  lemma EmptyMoves(a: seq<Msg>, b: seq<Msg>, c: seq<Msg>)
    requires b == [] || c == []
    ensures a + b + c == a + c + b
  {
  }

  lemma InsertOrdered(q: seq<Msg>, m: Msg)
    requires MsgOrdered(q)
    ensures MsgOrdered(Insert(q, m))
  {
    MsgPosIs(q, m.msgpri);
  }

  /** Insertion keeps a queue ordered, and the messages of each priority in the order of arrival. */
  lemma InsertKeeps(q: seq<Msg>, m: Msg)
    requires MsgOrdered(q)
    ensures MsgOrdered(Insert(q, m))
    ensures forall p :: OfPri(Insert(q, m), p) == OfPri(q + [m], p)
  {
    InsertOrdered(q, m);
    forall p ensures OfPri(Insert(q, m), p) == OfPri(q + [m], p) { InsertOfPri(q, m, p); }
  }

  /** The reference: insertion of the arrivals one by one. */
  function StableSort(q: seq<Msg>): seq<Msg> {
    if q == [] then [] else Insert(StableSort(q[..|q| - 1]), q[|q| - 1])
  }

  lemma {:induction false} StableSortIs(q: seq<Msg>)
    ensures MsgOrdered(StableSort(q))
    ensures forall p :: OfPri(StableSort(q), p) == OfPri(q, p)
  {
    if q != [] {
      var r := q[..|q| - 1];
      var m := q[|q| - 1];
      StableSortIs(r);
      InsertKeeps(StableSort(r), m);
      forall p ensures OfPri(StableSort(q), p) == OfPri(q, p) {
        OfPriConcat(StableSort(r), [m], p);
        OfPriConcat(r, [m], p);
        assert r + [m] == q;
      }
    }
  }

  lemma {:induction false} OfPriHas(q: seq<Msg>, p: int, i: nat)
    requires i < |q| && q[i].msgpri == p
    ensures OfPri(q, p) != []
  {
    if i > 0 { OfPriHas(q[1..], p, i - 1); }
  }

  lemma {:induction false} OfPriMembers(q: seq<Msg>, p: int)
    ensures forall m :: m in OfPri(q, p) ==> m in q && m.msgpri == p
  {
    if q != [] { OfPriMembers(q[1..], p); }
  }

  /** An ordered queue with the messages of each priority in a given order is unique: it is the stable sort. */
  lemma {:induction false} StableOrderIsUnique(a: seq<Msg>, b: seq<Msg>)
    requires MsgOrdered(a) && MsgOrdered(b)
    requires forall p :: OfPri(a, p) == OfPri(b, p)
    ensures a == b
  {
    if a != [] || b != [] {
      SameFirst(a, b);
      forall r ensures OfPri(a[1..], r) == OfPri(b[1..], r) {
        var h := if a[0].msgpri == r then [a[0]] else [];
        OfPriFirst(a, r);
        OfPriFirst(b, r);
        assert OfPri(a[1..], r) == OfPri(a, r)[|h|..] && OfPri(b[1..], r) == OfPri(b, r)[|h|..];
      }
      hide OfPri;
      StableOrderIsUnique(a[1..], b[1..]);
      assert a == [a[0]] + a[1..] && b == [b[0]] + b[1..];
    }
  }

  lemma SameFirst(a: seq<Msg>, b: seq<Msg>)
    requires MsgOrdered(a) && MsgOrdered(b) && (a != [] || b != [])
    requires forall p :: OfPri(a, p) == OfPri(b, p)
    ensures a != [] && b != [] && a[0] == b[0]
  {
    if a != [] { HasPri(a, b); }
    if b != [] { HasPri(b, a); }
    OfPriFirst(a, a[0].msgpri);
    OfPriFirst(b, b[0].msgpri);
    assert OfPri(a, a[0].msgpri)[0] == a[0] && OfPri(b, b[0].msgpri)[0] == b[0];
  }

  lemma HasPri(a: seq<Msg>, b: seq<Msg>)
    requires a != [] && MsgOrdered(b) && OfPri(a, a[0].msgpri) == OfPri(b, a[0].msgpri)
    ensures b != [] && b[0].msgpri <= a[0].msgpri
  {
    var p := a[0].msgpri;
    OfPriHas(a, p, 0);
    OfPriMembers(b, p);
    assert OfPri(b, p)[0] in OfPri(b, p);
  }

  /** q without the first occurrence of x. */
  function TakeOut(q: seq<Msg>, x: Msg): seq<Msg> {
    if q == [] then [] else if q[0] == x then q[1..] else [q[0]] + TakeOut(q[1..], x)
  }

  /** What is left of the messages sent when those handed over are taken out. */
  function Outstanding(sent: seq<Msg>, handed: seq<Msg>): seq<Msg>
    decreases handed
  {
    if handed == [] then sent else Outstanding(TakeOut(sent, handed[0]), handed[1..])
  }

  /** Taking out the first message of its priority takes it off the head of that priority only. */
  lemma {:induction false} TakeOutOfPri(q: seq<Msg>, x: Msg, p: int)
    requires OfPri(q, x.msgpri) != [] && OfPri(q, x.msgpri)[0] == x
    ensures OfPri(TakeOut(q, x), p) == if p == x.msgpri then OfPri(q, p)[1..] else OfPri(q, p)
  {
    if q[0] != x {
      TakeOutOfPri(q[1..], x, p);
      OfPriFirst([q[0]] + TakeOut(q[1..], x), p);
      assert ([q[0]] + TakeOut(q[1..], x))[1..] == TakeOut(q[1..], x);
    }
  }

  /** If the messages of each priority are handed over in the order of sending, what is left has the rest of each. */
  lemma {:induction false} OutstandingOfPri(sent: seq<Msg>, handed: seq<Msg>, left: seq<Msg>)
    requires forall p :: OfPri(sent, p) == OfPri(handed, p) + OfPri(left, p)
    ensures forall p :: OfPri(Outstanding(sent, handed), p) == OfPri(left, p)
    decreases handed
  {
    if handed == [] {
      forall p ensures OfPri(sent, p) == OfPri(left, p) { OfPriEmpty(p); }
    } else {
      var x := handed[0];
      OfPriFirst(handed, x.msgpri);
      assert OfPri(sent, x.msgpri)[0] == x;
      forall p ensures OfPri(TakeOut(sent, x), p) == OfPri(handed[1..], p) + OfPri(left, p) {
        TakeOutOfPri(sent, x, p);
        OfPriFirst(handed, p);
      }
      OutstandingOfPri(TakeOut(sent, x), handed[1..], left);
    }
  }

  /** Where messages are handed over in the order of sending, the rest is what is left. */
  lemma {:induction false} OutstandingIsRest(handed: seq<Msg>, left: seq<Msg>)
    ensures Outstanding(handed + left, handed) == left
    decreases handed
  {
    if handed == [] {
      assert handed + left == left;
    } else {
      assert (handed + left)[1..] == handed[1..] + left;
      OutstandingIsRest(handed[1..], left);
    }
  }

  /** How often a message occurs is decided within its own priority. */
  lemma {:induction false} CountOfPri(q: seq<Msg>, m: Msg)
    ensures multiset(q)[m] == multiset(OfPri(q, m.msgpri))[m]
  {
    if q != [] {
      CountOfPri(q[1..], m);
      assert q == [q[0]] + q[1..];
      var h := if q[0].msgpri == m.msgpri then [q[0]] else [];
      assert multiset(h + OfPri(q[1..], m.msgpri)) == multiset(h) + multiset(OfPri(q[1..], m.msgpri));
    }
  }
}
