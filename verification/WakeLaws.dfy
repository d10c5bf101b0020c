/** Waking a set of tasks one at a time, in blocked-list order, is waking the set. */
module WakeLaws {
  import opened Types
  import opened Seqs
  import opened SchedSpec

  /** The members of d among the first i elements of q. */
  ghost function Upto(q: seq<Id>, i: nat, d: set<Id>): set<Id>
    requires i <= |q|
  {
    set t | t in q[..i] && t in d
  }

  lemma WakeNobody(s: State, how: Wakeup)
    ensures Wake(s, {}, how) == s
  {
    SelectNone(s.blocked, {});
    forall p: nat | p < MAX_PRIORITY
      ensures Wake(s, {}, how).ready[p] == s.ready[p]
    {
      SelectNone(s.blocked, WithPriority(s.info, {}, p));
    }
    assert Wake(s, {}, how).info == s.info;
  }

  /** Waking one task: off the blocked list, to the tail of its ready list. */
  lemma WakeOne(s: State, t: Id, how: Wakeup)
    requires NoDup(s.blocked) && t in s.blocked && t in s.info
    ensures var p, r := s.info[t].priority, Wake(s, {t}, how);
            r == s.(info := s.info[t := Woken(s.info[t], how)], blocked := Drop(s.blocked, {t}),
                    ready := s.ready[p := s.ready[p] + [t]])
  {
    var r := Wake(s, {t}, how);
    var i :| 0 <= i < |s.blocked| && s.blocked[i] == t;
    DropAt(s.blocked, i);
    var p := s.info[t].priority;
    forall q: nat | q < MAX_PRIORITY
      ensures Keep(s.blocked, WithPriority(s.info, {t}, q)) == if q == p then [t] else []
    {
      if q == p {
        assert WithPriority(s.info, {t}, q) == {t};
      } else {
        assert WithPriority(s.info, {t}, q) == {};
        SelectNone(s.blocked, {});
      }
    }
    forall q: nat | q < MAX_PRIORITY
      ensures r.ready[q] == s.ready[p := s.ready[p] + [t]][q]
    {
    }
    assert r.info == s.info[t := Woken(s.info[t], how)];
  }

  /** After i elements, what is left of the walk starts right behind the survivors. */
  lemma WalkPosition(q: seq<Id>, i: nat, d: set<Id>)
    requires NoDup(q) && i <= |q|
    ensures Drop(q, Upto(q, i, d)) == Drop(q[..i], d) + q[i..]
    ensures i < |q| ==> q[i] !in Upto(q, i, d)
  {
    assert q == q[..i] + q[i..];
    DropConcat(q[..i], q[i..], Upto(q, i, d));
    SelectAgree(q[..i], Upto(q, i, d), d);
    SelectNone(q[i..], Upto(q, i, d));
  }

  lemma UptoNext(q: seq<Id>, i: nat, d: set<Id>)
    requires i < |q|
    ensures Upto(q, i + 1, d) == if q[i] in d then Upto(q, i, d) + {q[i]} else Upto(q, i, d)
  {
    assert q[..i + 1] == q[..i] + [q[i]];
  }

  /** How many of the first i elements of q are members of d. */
  ghost function CountUpto(q: seq<Id>, i: nat, d: set<Id>): nat
    requires i <= |q|
  {
    |Keep(q[..i], d)|
  }

  lemma CountNext(q: seq<Id>, i: nat, d: set<Id>)
    requires i < |q|
    ensures CountUpto(q, i + 1, d) == CountUpto(q, i, d) + if q[i] in d then 1 else 0
  {
    assert q[..i + 1] == q[..i] + [q[i]];
    KeepConcat(q[..i], [q[i]], d);
    SelectCons(q[i], [], d);
    assert [q[i]] + [] == [q[i]];
  }

  lemma UptoAll(q: seq<Id>, d: set<Id>)
    requires forall t :: t in d ==> t in q
    ensures Upto(q, |q|, d) == d
    ensures CountUpto(q, |q|, d) == |Keep(q, d)|
  {
    assert q[..|q|] == q;
  }

  /** Keeping one more element of q, later than all kept so far, appends it. */
  lemma KeepNext(l: seq<Id>, x: Id, r: seq<Id>, w: set<Id>)
    requires x !in l && x !in w && x !in r
    requires forall t :: t in r ==> t !in w
    ensures Keep(l + [x] + r, w + {x}) == Keep(l + [x] + r, w) + [x]
  {
    KeepTail(x, r, w);
    KeepConcat(l, [x] + r, w);
    KeepConcat(l, [x] + r, w + {x});
    SelectAgree(l, w, w + {x});
    assert l + [x] + r == l + ([x] + r);
  }

  lemma KeepTail(x: Id, r: seq<Id>, w: set<Id>)
    requires x !in w && x !in r
    requires forall t :: t in r ==> t !in w
    ensures Keep([x] + r, w) == [] && Keep([x] + r, w + {x}) == [x]
  {
    SelectCons(x, r, w);
    SelectCons(x, r, w + {x});
    SelectNone(r, w);
    SelectNone(r, w + {x});
  }

  lemma KeepNextAt(s: State, i: nat, w: set<Id>, p: nat)
    requires NoDup(s.blocked) && i < |s.blocked| && s.blocked[i] in s.info
    requires forall t :: t in w ==> t in s.blocked[..i]
    ensures var x, k := s.blocked[i], Keep(s.blocked, WithPriority(s.info, w, p));
            Keep(s.blocked, WithPriority(s.info, w + {x}, p)) == if s.info[x].priority == p then k + [x] else k
  {
    var x := s.blocked[i];
    var wp := WithPriority(s.info, w, p);
    var l, r := s.blocked[..i], s.blocked[i + 1..];
    SplitDisjoint(s.blocked, i);
    SplitDisjoint(s.blocked, i + 1);
    assert s.blocked == l + [x] + r;
    assert x in s.blocked[i..] && x in s.blocked[..i + 1];
    assert forall t :: t in r ==> t in s.blocked[i..];
    if s.info[x].priority == p {
      assert WithPriority(s.info, w + {x}, p) == wp + {x};
      KeepNext(l, x, r, wp);
    } else {
      assert WithPriority(s.info, w + {x}, p) == wp;
    }
  }

  /** The step of a wake-up walk: the set woken so far, then one more task. */
  lemma WakeNext(s: State, i: nat, w: set<Id>, how: Wakeup)
    requires NoDup(s.blocked) && i < |s.blocked| && s.blocked[i] in s.info
    requires forall t :: t in w ==> t in s.blocked[..i]
    ensures Wake(Wake(s, w, how), {s.blocked[i]}, how) == Wake(s, w + {s.blocked[i]}, how)
  {
    var q, x, r := s.blocked, s.blocked[i], Wake(s, w + {s.blocked[i]}, how);
    SplitDisjoint(q, i);
    assert x in q[i..] && x !in w;
    var a := Wake(s, w, how);
    SelectNoDup(q, w);
    WakeOne(a, x, how);
    WakeNextInfo(s, x, w, how);
    DropTwice(q, w, {x});
    WakeNextReady(s, i, w, how);
    assert Wake(a, {x}, how).ready == r.ready;
  }

  lemma WakeNextReady(s: State, i: nat, w: set<Id>, how: Wakeup)
    requires NoDup(s.blocked) && i < |s.blocked| && s.blocked[i] in s.info
    requires forall t :: t in w ==> t in s.blocked[..i]
    ensures var x, a := s.blocked[i], Wake(s, w, how);
            forall p: nat :: p < MAX_PRIORITY ==>
              Wake(s, w + {x}, how).ready[p] == if s.info[x].priority == p then a.ready[p] + [x] else a.ready[p]
  {
    forall p: nat | p < MAX_PRIORITY
      ensures var x, a := s.blocked[i], Wake(s, w, how);
              Wake(s, w + {x}, how).ready[p] == if s.info[x].priority == p then a.ready[p] + [x] else a.ready[p]
    {
      KeepNextAt(s, i, w, p);
    }
  }

  lemma WakeNextInfo(s: State, x: Id, w: set<Id>, how: Wakeup)
    requires x in s.info && x !in w
    ensures Wake(Wake(s, w, how), {x}, how).info == Wake(s, w + {x}, how).info
  {
  }

  /** Wake-ups that give a task the same record are the same wake-up. */
  lemma SameWake(s: State, t: Id, a: Wakeup, b: Wakeup)
    requires t in s.info && Woken(s.info[t], a) == Woken(s.info[t], b)
    ensures Wake(s, {t}, a) == Wake(s, {t}, b)
  {
  }

  // ---- The choice of the task to wake ----

  /** Scanning one element further. */
  lemma {:induction false} BestNext(info: map<Id, Task>, q: seq<Id>, x: Id, reason: Reason, obj: nat)
    ensures var b := Best(info, q, reason, obj);
            Best(info, q + [x], reason, obj) ==
            if Waits(info, x, reason, obj) && (b.None? || info[x].priority < info[b.value].priority)
            then Some(x) else b
  {
    if q == [] {
      assert q + [x] == [x];
      assert Best(info, [], reason, obj) == None;
      assert [x][1..] == [];
    } else {
      assert (q + [x])[1..] == q[1..] + [x];
      BestNext(info, q[1..], x, reason, obj);
    }
  }

  /** The waiter at position i outranks every earlier waiter and is outranked by none. */
  ghost predicate FirstMinimal(info: map<Id, Task>, q: seq<Id>, i: nat, reason: Reason, obj: nat)
    requires i < |q|
  {
    && Waits(info, q[i], reason, obj)
    && (forall j :: 0 <= j < |q| && Waits(info, q[j], reason, obj) ==> info[q[i]].priority <= info[q[j]].priority)
    && (forall j :: 0 <= j < i && Waits(info, q[j], reason, obj) ==> info[q[i]].priority < info[q[j]].priority)
  }

  /** Best is the first waiter of minimal priority, and there is one unless nobody waits. */
  lemma {:induction false} BestIsFirstMinimal(info: map<Id, Task>, q: seq<Id>, reason: Reason, obj: nat)
      returns (i: nat)
    ensures var b := Best(info, q, reason, obj);
            && (b.None? ==> forall t :: t in q ==> !Waits(info, t, reason, obj))
            && (b.Some? ==> i < |q| && q[i] == b.value && FirstMinimal(info, q, i, reason, obj))
  {
    i := 0;
    if q != [] {
      var b := Best(info, q, reason, obj);
      var k := BestIsFirstMinimal(info, q[1..], reason, obj);
      assert q == [q[0]] + q[1..];
      if b.Some? && b != Some(q[0]) {
        i := k + 1;
        assert FirstMinimal(info, q[1..], k, reason, obj);
      }
    }
  }

  /** The choice depends only on the records of the tasks scanned. */
  lemma {:induction false} BestAgree(a: map<Id, Task>, b: map<Id, Task>, q: seq<Id>, reason: Reason, obj: nat)
    requires forall t :: t in q ==> t in a && t in b && a[t] == b[t]
    ensures Best(a, q, reason, obj) == Best(b, q, reason, obj)
  {
    if q != [] {
      assert q[0] in q;
      BestAgree(a, b, q[1..], reason, obj);
    }
  }
}
