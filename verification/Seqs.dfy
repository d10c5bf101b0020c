/** Sub-sequences selected by a set, and sequences without repetition. */
module Seqs {
  import opened Types

  ghost predicate NoDup(q: seq<Id>) {
    forall i, j :: 0 <= i < j < |q| ==> q[i] != q[j]
  }

  /** The elements of q that lie in s, in order. */
  function Keep(q: seq<Id>, s: set<Id>): seq<Id> {
    if q == [] then [] else (if q[0] in s then [q[0]] else []) + Keep(q[1..], s)
  }

  /** The elements of q that do not lie in s, in order. */
  function Drop(q: seq<Id>, s: set<Id>): seq<Id> {
    if q == [] then [] else (if q[0] in s then [] else [q[0]]) + Drop(q[1..], s)
  }

  lemma {:induction false} Members(q: seq<Id>, s: set<Id>)
    ensures forall x :: x in Keep(q, s) <==> x in q && x in s
    ensures forall x :: x in Drop(q, s) <==> x in q && x !in s
  {
    if q != [] {
      Members(q[1..], s);
      assert q == [q[0]] + q[1..];
    }
  }

  /** One unfolding, without the empty concatenations. */
  lemma SelectCons(x: Id, q: seq<Id>, s: set<Id>)
    ensures Keep([x] + q, s) == if x in s then [x] + Keep(q, s) else Keep(q, s)
    ensures Drop([x] + q, s) == if x in s then Drop(q, s) else [x] + Drop(q, s)
  {
    assert ([x] + q)[1..] == q;
  }

  lemma Assoc(h: Id, t: seq<Id>, r: seq<Id>)
    ensures [h] + t + r == [h] + (t + r)
  {
  }

  lemma HeadAndRest(q: seq<Id>, r: seq<Id>)
    requires q != []
    ensures q == [q[0]] + q[1..] && q + r == [q[0]] + (q[1..] + r)
  {
  }

  lemma {:induction false} KeepConcat(q: seq<Id>, r: seq<Id>, s: set<Id>)
    ensures Keep(q + r, s) == Keep(q, s) + Keep(r, s)
  {
    if q == [] {
      assert q + r == r;
    } else {
      var h, t := q[0], q[1..];
      HeadAndRest(q, r);
      SelectCons(h, t, s);
      SelectCons(h, t + r, s);
      KeepConcat(t, r, s);
      hide Keep, Drop;
      if h in s {
        Assoc(h, Keep(t, s), Keep(r, s));
      }
    }
  }

  lemma {:induction false} DropConcat(q: seq<Id>, r: seq<Id>, s: set<Id>)
    ensures Drop(q + r, s) == Drop(q, s) + Drop(r, s)
  {
    if q == [] {
      assert q + r == r;
    } else {
      var h, t := q[0], q[1..];
      HeadAndRest(q, r);
      SelectCons(h, t, s);
      SelectCons(h, t + r, s);
      DropConcat(t, r, s);
      hide Keep, Drop;
      if h !in s {
        Assoc(h, Drop(t, s), Drop(r, s));
      }
    }
  }

  /** Sets that agree on q select the same elements of q. */
  lemma {:induction false} SelectAgree(q: seq<Id>, s: set<Id>, t: set<Id>)
    requires forall x :: x in q ==> (x in s <==> x in t)
    ensures Keep(q, s) == Keep(q, t) && Drop(q, s) == Drop(q, t)
  {
    if q != [] {
      assert q[0] in q;
      SelectAgree(q[1..], s, t);
    }
  }

  lemma {:induction false} SelectNone(q: seq<Id>, s: set<Id>)
    requires forall x :: x in q ==> x !in s
    ensures Keep(q, s) == [] && Drop(q, s) == q
  {
    if q != [] {
      assert q[0] in q;
      SelectNone(q[1..], s);
    }
  }

  lemma SelectMiddle(l: seq<Id>, x: Id, r: seq<Id>)
    requires x !in l && x !in r
    ensures Drop(l + ([x] + r), {x}) == l + r
    ensures Keep(l + ([x] + r), {x}) == [x]
  {
    DropConcat(l, [x] + r, {x});
    KeepConcat(l, [x] + r, {x});
    SelectCons(x, r, {x});
    SelectNone(l, {x});
    SelectNone(r, {x});
    hide Keep, Drop;
  }

  lemma OnlyAt(q: seq<Id>, k: nat)
    requires NoDup(q) && k < |q|
    ensures q[k] !in q[..k] && q[k] !in q[k + 1..]
  {
  }

  /** Dropping the one occurrence of an element cuts the sequence at its position. */
  lemma DropAt(q: seq<Id>, k: nat)
    requires NoDup(q) && k < |q|
    ensures Drop(q, {q[k]}) == q[..k] + q[k + 1..]
    ensures Keep(q, {q[k]}) == [q[k]]
  {
    OnlyAt(q, k);
    Cut(q, k);
    hide *;
    SelectMiddle(q[..k], q[k], q[k + 1..]);
  }

  lemma Cut(q: seq<Id>, k: nat)
    requires k < |q|
    ensures q == q[..k] + ([q[k]] + q[k + 1..])
  {
    var r := [q[k]] + q[k + 1..];
    assert r == q[k..];
    assert q == q[..k] + q[k..];
  }

  /** A sequence without the element at position i. */
  function Without<T>(q: seq<T>, i: nat): (r: seq<T>)
    requires i < |q|
    ensures |r| == |q| - 1
    ensures forall k :: 0 <= k < |r| ==> r[k] == q[if k < i then k else k + 1]
  {
    q[..i] + q[i + 1..]
  }

  lemma DropWithout(q: seq<Id>, i: nat)
    requires NoDup(q) && i < |q|
    ensures Drop(q, {q[i]}) == Without(q, i) && NoDup(Without(q, i))
  {
    DropAt(q, i);
    SelectNoDup(q, {q[i]});
  }

  lemma {:induction false} SelectNoDup(q: seq<Id>, s: set<Id>)
    requires NoDup(q)
    ensures NoDup(Keep(q, s)) && NoDup(Drop(q, s))
    ensures forall x :: x in Keep(q, s) <==> x in q && x in s
    ensures forall x :: x in Drop(q, s) <==> x in q && x !in s
  {
    Members(q, s);
    if q != [] {
      Members(q[1..], s);
      SelectNoDup(q[1..], s);
      assert q[0] !in q[1..];
    }
  }

  /** What a sequence without repetition holds before a position, it does not hold from there on. */
  lemma SplitDisjoint(q: seq<Id>, i: nat)
    requires NoDup(q) && i <= |q|
    ensures forall x :: x in q[..i] ==> x !in q[i..]
  {
    forall j, k | 0 <= j < i && 0 <= k < |q| - i
      ensures q[..i][j] != q[i..][k]
    {
      assert q[..i][j] == q[j] && q[i..][k] == q[i + k];
    }
  }

  lemma NoDupConcat(q: seq<Id>, r: seq<Id>)
    requires NoDup(q) && NoDup(r)
    requires forall x :: x in q ==> x !in r
    ensures NoDup(q + r)
  {
    forall i, j | 0 <= i < j < |q + r|
      ensures (q + r)[i] != (q + r)[j]
    {
      if i < |q| <= j {
        assert q[i] in q && r[j - |q|] in r;
      }
    }
  }

  /** Dropping in two rounds is dropping the union. */
  lemma {:induction false} DropTwice(q: seq<Id>, s: set<Id>, t: set<Id>)
    ensures Drop(Drop(q, s), t) == Drop(q, s + t)
  {
    if q != [] {
      var h, r := q[0], q[1..];
      assert q == [h] + r;
      DropTwice(r, s, t);
      SelectCons(h, r, s);
      SelectCons(h, r, s + t);
      SelectCons(h, Drop(r, s), t);
    }
  }

  lemma {:induction false} DropIsKeep(q: seq<Id>, d: set<Id>, s: set<Id>)
    requires forall t :: t in q ==> (t in s <==> t !in d)
    ensures Drop(q, d) == Keep(q, s)
  {
    if q != [] {
      assert q[0] in q;
      DropIsKeep(q[1..], d, s);
    }
  }

  /** a occurs somewhere before b. */
  predicate Before(q: seq<Id>, a: Id, b: Id) {
    q != [] && ((q[0] == a && b in q[1..]) || Before(q[1..], a, b))
  }

  lemma {:induction false} KeepOrder(q: seq<Id>, s: set<Id>, a: Id, b: Id)
    requires Before(q, a, b) && a in s && b in s
    ensures Before(Keep(q, s), a, b)
  {
    var h, r := q[0], q[1..];
    assert q == [h] + r;
    SelectCons(h, r, s);
    Members(r, s);
    if Before(r, a, b) {
      KeepOrder(r, s, a, b);
    }
    assert h in s ==> ([h] + Keep(r, s))[1..] == Keep(r, s);
  }

  lemma {:induction false} BeforeLeft(q: seq<Id>, r: seq<Id>, a: Id, b: Id)
    requires Before(q, a, b)
    ensures Before(q + r, a, b)
  {
    assert (q + r)[1..] == q[1..] + r;
    if q[0] != a || b !in q[1..] {
      BeforeLeft(q[1..], r, a, b);
    }
  }

  lemma {:induction false} BeforeAcross(q: seq<Id>, r: seq<Id>, a: Id, b: Id)
    requires a in q && b in r
    ensures Before(q + r, a, b)
  {
    assert (q + r)[1..] == q[1..] + r;
    if q[0] != a {
      assert q == [q[0]] + q[1..];
      BeforeAcross(q[1..], r, a, b);
    }
  }
}
