/**
 * Round after round: while nobody joins the best ready list or outranks it, its tasks take
 * turns for ever, each for a whole slice, and a round takes the same time every time.
 */
module Rounds {
  import opened Types
  import opened Seqs
  import opened SchedSpec
  import opened SchedInv
  import opened SchedRuns
  import opened Slices
  import opened TaskLaws
  import opened TickLaws
  import opened RoundRobin

  /** The best non-empty ready list is q, and its first task is current. */
  ghost predicate Whole(s: State, p: Prio, q: seq<Id>) {
    InFront(s, p, q) && s.ready[p] == q
  }

  /** The list after one tick. */
  ghost function Turned(s: State, q: seq<Id>): seq<Id>
    requires |q| > 0
  {
    if SliceOf(s, q[0]) > 1 then q else q[1..] + [q[0]]
  }

  lemma TickWhole(s: State, p: Prio, q: seq<Id>, m: nat)
    requires Inv(s) && Whole(s, p, q) && Quiet(s, p + 1, m) && m > 0 && SlicesOk(s)
    ensures var r, n := Tick(s), Turned(s, q);
            && (forall i :: 0 <= i < p ==> r.ready[i] == []) && r.ready[p] == n
            && r.current == s.current && r.locks == 0 && (n != q ==> r.pending)
  {
    hide Inv, Tick, Joined, Quiet, SlicesOk, NoDup;
    FrontMembers(s, p, q);
    assert q[0] in q;
    forall i: nat | i < p
      ensures Tick(s).ready[i] == []
    {
      NobodyJoins(s, p + 1, m, i);
      TickLists(s, i);
    }
    NobodyJoins(s, p + 1, m, p);
    TickLists(s, p);
    assert |q| == 1 ==> q[1..] + [q[0]] == q;
    EndOfSlice(s, q[0]);
  }

  /** A tick that ends the slice of the current task asks for a switch, unless the scheduler is locked. */
  lemma EndOfSlice(s: State, c: Id)
    requires Inv(s) && s.current == Some(c) && s.locks == 0
    ensures Tick(s).current == s.current && Tick(s).locks == 0
    ensures s.info[c].slice <= 1 ==> Tick(s).pending
  {
    assert Expire(s).info[c].slice == s.info[c].slice;
    hide Expire, Highest, Inv;
  }

  lemma TickSlices(s: State, q: seq<Id>)
    requires Inv(s) && |q| > 0 && s.current == Some(q[0]) && (forall t :: t in q ==> t in s.info)
    ensures forall t :: t in q ==>
              SliceOf(Tick(s), t) ==
              if t != q[0] then SliceOf(s, t) else if SliceOf(s, t) > 1 then SliceOf(s, t) - 1 else TIME_SLICE
  {
    hide Inv, Tick;
    forall t | t in q
      ensures SliceOf(Tick(s), t) ==
              if t != q[0] then SliceOf(s, t) else if SliceOf(s, t) > 1 then SliceOf(s, t) - 1 else TIME_SLICE
    {
      TickSlice(s, t);
    }
  }

  /** One tick and its switch: the front task pays, and goes to the back when its slice is used up. */
  lemma OneTickWhole(s: State, p: Prio, q: seq<Id>, m: nat)
    requires Inv(s) && Whole(s, p, q) && Quiet(s, p + 1, m) && m > 0 && SlicesOk(s)
    ensures var r, n := TickAndSwitch(s), Turned(s, q);
            && Whole(r, p, n) && Quiet(r, p + 1, m - 1) && SlicesOk(r)
    ensures forall t :: t in q ==>
              SliceOf(TickAndSwitch(s), t) ==
              if t != q[0] then SliceOf(s, t) else if SliceOf(s, t) > 1 then SliceOf(s, t) - 1 else TIME_SLICE
  {
    TickWhole(s, p, q, m);
    FrontMembers(s, p, q);
    TickSlices(s, q);
    TickQuiet(s, p + 1, m);
    StepSlices(s, DoTick);
    var t, n := Next(s, DoTick), Turned(s, q);
    assert t == Tick(s) && t.ready[p][..|n|] == n;
    SwitchFront(t, p, n);
    SwitchKeeps(t);
    hide Inv, Next, Tick, PendSV, SlicesOk, Quiet;
    assert Whole(TickAndSwitch(s), p, n);
  }

  /** A switch changes nothing but the current task and the flag. */
  lemma SwitchKeeps(t: State)
    requires Inv(t)
    ensures var r := if t.pending then Next(t, DoSwitch) else t;
            && r.info == t.info && r.ready == t.ready && r.tick == t.tick
            && (SlicesOk(t) ==> SlicesOk(r))
            && (forall p: nat, m: nat :: Quiet(t, p, m) ==> Quiet(r, p, m))
  {
    hide Inv, Highest;
    var r := PendSV(t);
    if SlicesOk(t) {
      forall u | u in r.info
        ensures SliceOk(r, u)
      {
        assert SliceOk(t, u);
      }
    }
  }

  /** The list stands whole, and nobody joins or outranks it within m ticks. */
  ghost predicate Steady(s: State, p: Prio, q: seq<Id>, m: nat) {
    Inv(s) && Whole(s, p, q) && Quiet(s, p + 1, m) && SlicesOk(s)
  }

  /** The front task spends its whole slice and goes to the back with a full one. */
  lemma {:induction false} SpendFront(s: State, p: Prio, q: seq<Id>, m: nat)
    requires Steady(s, p, q, m) && |q| > 0 && SliceOf(s, q[0]) <= m
    ensures var n, r := SliceOf(s, q[0]), Spin(s, SliceOf(s, q[0]));
            && Steady(r, p, q[1..] + [q[0]], m - n)
            && (forall t :: t in q ==> SliceOf(r, t) == if t == q[0] then TIME_SLICE else SliceOf(s, t))
    decreases SliceOf(s, q[0])
  {
    FrontSlice(s, p, q);
    assert q[0] in q;
    hide Inv, InFront, SlicesOk, Quiet, SliceOf, TickAndSwitch;
    OneTickWhole(s, p, q, m);
    if SliceOf(s, q[0]) > 1 {
      SpendFront(TickAndSwitch(s), p, q, m - 1);
    } else {
      assert Spin(s, 1) == Spin(TickAndSwitch(s), 0) == TickAndSwitch(s);
    }
  }

  lemma {:induction false} SpinAdd(s: State, a: nat, b: nat)
    requires Inv(s)
    ensures Inv(Spin(s, a)) && Spin(s, a + b) == Spin(Spin(s, a), b)
    decreases a
  {
    hide Inv, TickAndSwitch;
    if a > 0 {
      SpinAdd(TickAndSwitch(s), a - 1, b);
    }
  }

  /** Every task of q has a full slice. */
  ghost predicate Full(s: State, q: seq<Id>) {
    forall t :: t in q ==> SliceOf(s, t) == TIME_SLICE
  }

  lemma Moved(a: seq<Id>, d: seq<Id>)
    requires |a| > 0
    ensures |a + d| > 0 && (a + d)[0] == a[0] && (a + d)[1..] + [a[0]] == a[1..] + (d + [a[0]])
    ensures (d + [a[0]]) + a[1..] == d + a
    ensures forall t :: t in a[1..] + (d + [a[0]]) <==> t in a + d
  {
    assert a == [a[0]] + a[1..];
  }

  lemma NotAgain(a: seq<Id>, d: seq<Id>)
    requires |a| > 0 && NoDup(a + d)
    ensures a[0] !in a[1..] && a[0] !in d && forall t :: t in a[1..] || t in d ==> t in a + d
  {
    forall i | 0 < i < |a + d|
      ensures (a + d)[i] != a[0]
    {
      assert (a + d)[0] == a[0];
    }
    assert forall i :: 0 < i < |a| ==> (a + d)[i] == a[i];
    assert forall i :: 0 <= i < |d| ==> (a + d)[i + |a|] == d[i];
  }

  /** The front of a goes to the back of d; the rest of a keeps its slices. */
  lemma FrontMoves(s: State, p: Prio, a: seq<Id>, d: seq<Id>, m: nat)
    requires Steady(s, p, a + d, m) && Full(s, d) && |a| > 0 && SliceSum(s, a, |a|) <= m
    ensures var h, r := SliceOf(s, a[0]), Spin(s, SliceOf(s, a[0]));
            && Steady(r, p, a[1..] + (d + [a[0]]), m - h) && Full(r, d + [a[0]])
            && SliceSum(s, a, |a|) == h + SliceSum(r, a[1..], |a| - 1)
  {
    hide Steady, SliceOf, Spin, NoDup, SliceSum;
    SteadyNoDup(s, p, a + d, m);
    NotAgain(a, d);
    Moved(a, d);
    SumHead(s, a);
    SpendFront(s, p, a + d, m);
    var r := Spin(s, SliceOf(s, a[0]));
    SumSame(s, r, a[1..], |a| - 1);
  }

  lemma SteadyNoDup(s: State, p: Prio, q: seq<Id>, m: nat)
    requires Steady(s, p, q, m)
    ensures Inv(s) && NoDup(q)
  {
    FrontMembers(s, p, q);
  }

  lemma SumHead(s: State, a: seq<Id>)
    requires |a| > 0
    ensures SliceSum(s, a, |a|) == SliceOf(s, a[0]) + SliceSum(s, a[1..], |a| - 1)
  {
  }

  /** The tasks of a spend their slices one after the other and end up, with full slices, behind those of d. */
  lemma {:induction false} SpendAll(s: State, p: Prio, a: seq<Id>, d: seq<Id>, m: nat)
    requires Steady(s, p, a + d, m) && Full(s, d) && SliceSum(s, a, |a|) <= m
    ensures Inv(s)
    ensures var n, r := SliceSum(s, a, |a|), Spin(s, SliceSum(s, a, |a|));
            Steady(r, p, d + a, m - n) && Full(r, d + a)
    decreases |a|
  {
    hide Steady, SliceOf, SliceSum, NoDup, Inv, TickAndSwitch, Full;
    SteadyNoDup(s, p, a + d, m);
    if a == [] {
      assert a + d == d == d + a;
      NoSum(s, a);
    } else {
      var h, r := SliceOf(s, a[0]), Spin(s, SliceOf(s, a[0]));
      var rest := SliceSum(r, a[1..], |a| - 1);
      FrontMoves(s, p, a, d, m);
      Moved(a, d);
      SpinAdd(s, h, rest);
      SpendAll(r, p, a[1..], d + [a[0]], m - h);
    }
  }

  lemma NoSum(s: State, a: seq<Id>)
    requires a == []
    ensures SliceSum(s, a, |a|) == 0
  {
  }

  lemma {:induction false} FullSum(s: State, q: seq<Id>, n: nat)
    requires n <= |q| && Full(s, q)
    ensures SliceSum(s, q, n) == n * TIME_SLICE
  {
    if n > 0 {
      assert q[0] in q;
      FullSum(s, q[1..], n - 1);
    }
  }

  /** The ticks that n rounds of k tasks take. */
  function RoundTicks(n: nat, k: nat): (ticks: nat)
    ensures ticks == n * (k * TIME_SLICE)
  {
    if n == 0 then 0 else k * TIME_SLICE + RoundTicks(n - 1, k)
  }

  /** After a round the line stands as before, with full slices. */
  lemma {:induction false} EveryRound(s: State, p: Prio, q: seq<Id>, n: nat, m: nat)
    requires Steady(s, p, q, m) && Full(s, q) && RoundTicks(n, |q|) <= m
    ensures Inv(s)
    ensures Steady(Spin(s, RoundTicks(n, |q|)), p, q, m - RoundTicks(n, |q|)) && Full(Spin(s, RoundTicks(n, |q|)), q)
    decreases n
  {
    hide Steady, SliceOf, SliceSum, NoDup, Inv, TickAndSwitch, Full;
    SteadyNoDup(s, p, q, m);
    if n > 0 {
      var round, rest := |q| * TIME_SLICE, RoundTicks(n - 1, |q|);
      assert RoundTicks(n, |q|) == round + rest;
      FullSum(s, q, |q|);
      WholeRound(s, p, q, m);
      SpinAdd(s, round, rest);
      EveryRound(Spin(s, round), p, q, n - 1, m - round);
    }
  }

  lemma WholeRound(s: State, p: Prio, q: seq<Id>, m: nat)
    requires Steady(s, p, q, m) && SliceSum(s, q, |q|) <= m
    ensures Inv(s)
    ensures var n, r := SliceSum(s, q, |q|), Spin(s, SliceSum(s, q, |q|));
            Steady(r, p, q, m - n) && Full(r, q)
  {
    assert Full(s, []);
    hide Steady, SliceOf, SliceSum, NoDup, Inv, Spin, Full;
    assert q + [] == q && [] + q == q;
    SpendAll(s, p, q, [], m);
  }

  /** Within a round that starts with full slices. */
  lemma DuringRound(s: State, p: Prio, q: seq<Id>, i: nat, d: nat)
    requires Steady(s, p, q, i * TIME_SLICE + d) && Full(s, q) && i < |q| && d < TIME_SLICE
    ensures Inv(s) && Spin(s, i * TIME_SLICE + d).current == Some(q[i])
  {
    hide Inv, SlicesOk, Spin, SliceSum, SliceOf, InFront;
    FullSum(s, q, i);
    FullSum(s, q, i + 1);
    TurnAt(s, p, q, i * TIME_SLICE + d, i);
  }

  /**
   * While nobody joins or outranks the line, turns recur for ever: once each of the k tasks
   * has used up the slice it began with, the task at position i is current during the i-th
   * slice of every round, and each round takes k * CONFIG_TIME_SLICE ticks.
   */
  lemma TurnRecurs(s: State, p: Prio, q: seq<Id>, n: nat, i: nat, d: nat)
    requires i < |q| && d < TIME_SLICE
    requires Steady(s, p, q, SliceSum(s, q, |q|) + n * (|q| * TIME_SLICE) + i * TIME_SLICE + d)
    ensures Inv(s)
    ensures Spin(s, SliceSum(s, q, |q|) + n * (|q| * TIME_SLICE) + i * TIME_SLICE + d).current == Some(q[i])
  {
    hide Steady, SliceOf, SliceSum, NoDup, Inv, Spin, Full, RoundTicks;
    var first, rounds, into := SliceSum(s, q, |q|), RoundTicks(n, |q|), i * TIME_SLICE + d;
    WholeRound(s, p, q, first + rounds + into);
    var s1 := Spin(s, first);
    EveryRound(s1, p, q, n, rounds + into);
    SpinAdd(s, first, rounds + into);
    SpinAdd(s1, rounds, into);
    DuringRound(Spin(s1, rounds), p, q, i, d);
  }
}
