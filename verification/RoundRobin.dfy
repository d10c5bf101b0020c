/**
 * Round-robin among the tasks of the highest priority: when each gets its turn, in ticks,
 * and the bound that follows. Tasks of the same or lower priority may wake meanwhile.
 */
module RoundRobin {
  import opened Types
  import opened Seqs
  import opened SchedSpec
  import opened SchedInv
  import opened SchedRuns
  import opened Slices
  import opened TaskLaws
  import opened TickLaws
  import opened TimedWake

  /** One tick, and the switch it asks for. */
  ghost function TickAndSwitch(s: State): (r: State)
    requires Inv(s)
    ensures Inv(r)
  {
    var t := Next(s, DoTick);
    if t.pending then Next(t, DoSwitch) else t
  }

  ghost function Spin(s: State, m: nat): State
    requires Inv(s)
    decreases m
  {
    if m == 0 then s else Spin(TickAndSwitch(s), m - 1)
  }

  /** The tasks of q are first in line at the best non-empty priority p, the current one in front. */
  ghost predicate InFront(s: State, p: Prio, q: seq<Id>) {
    && (forall i :: 0 <= i < p ==> s.ready[i] == [])
    && 0 < |q| <= |s.ready[p]| && s.ready[p][..|q|] == q
    && s.current == Some(q[0]) && s.locks == 0
  }

  /** No task that outranks p falls due within m ticks. */
  ghost predicate Quiet(s: State, p: nat, m: nat) {
    forall t :: t in s.info && Timed(s.info[t]) && s.info[t].priority < p ==> Left(s.tick, s.info[t].wakeTick) > m
  }

  function SliceOf(s: State, t: Id): nat {
    if t in s.info then s.info[t].slice else 0
  }

  /** The slices of the first n tasks of q, together. */
  function SliceSum(s: State, q: seq<Id>, n: nat): nat
    requires n <= |q|
  {
    if n == 0 then 0 else SliceOf(s, q[0]) + SliceSum(s, q[1..], n - 1)
  }

  lemma {:induction false} SumBound(s: State, q: seq<Id>, n: nat)
    requires n <= |q| && SlicesOk(s) && forall t :: t in q ==> t in s.info
    ensures n <= SliceSum(s, q, n) <= n * TIME_SLICE
  {
    if n > 0 {
      assert q[0] in q && SliceOk(s, q[0]);
      SumBound(s, q[1..], n - 1);
    }
  }

  lemma {:induction false} SumSame(s: State, r: State, q: seq<Id>, n: nat)
    requires n <= |q| && forall t :: t in q ==> SliceOf(s, t) == SliceOf(r, t)
    ensures SliceSum(s, q, n) == SliceSum(r, q, n)
  {
    if n > 0 {
      assert q[0] in q;
      SumSame(s, r, q[1..], n - 1);
    }
  }

  lemma FrontMembers(s: State, p: Prio, q: seq<Id>)
    requires Inv(s) && InFront(s, p, q)
    ensures NoDup(q) && forall t :: t in q ==> t in s.info && s.info[t].Runnable() && s.info[t].priority == p
  {
    assert ListOk(s, p);
    forall t | t in q
      ensures t in s.ready[p]
    {
    }
  }

  /** While it is quiet above p, a tick brings nobody into a list above p. */
  lemma NobodyJoins(s: State, p: nat, m: nat, i: nat)
    requires Inv(s) && Quiet(s, p, m) && m > 0 && i < p && i < MAX_PRIORITY
    ensures Joined(s, i) == s.ready[i]
  {
    var w := WithPriority(s.info, DueNext(s), i);
    forall t | t in s.blocked
      ensures t !in w
    {
      if t in w {
        LeftCounts(s.info[t], s.tick);
        assert false;
      }
    }
    SelectNone(s.blocked, w);
  }

  /** Where one tick and its switch leave the line. */
  ghost function Line(s: State, q: seq<Id>): seq<Id>
    requires |q| > 0
  {
    if SliceOf(s, q[0]) > 1 || |q| == 1 then q else q[1..]
  }

  lemma TickFront(s: State, p: Prio, q: seq<Id>, m: nat)
    requires Inv(s) && InFront(s, p, q) && Quiet(s, p, m) && m > 0 && SlicesOk(s)
    requires SliceOf(s, q[0]) > 1 || |q| > 1
    ensures var r := Tick(s); var n := Line(s, q);
            && (forall i :: 0 <= i < p ==> r.ready[i] == [])
            && 0 < |n| <= |r.ready[p]| && r.ready[p][..|n|] == n
            && r.current == s.current && r.locks == 0
            && (n != q ==> r.pending)
  {
    FrontMembers(s, p, q);
    assert SliceOk(s, q[0]);
    forall i: nat | i < p
      ensures Tick(s).ready[i] == []
    {
      NobodyJoins(s, p, m, i);
      TickLists(s, i);
    }
    TickLists(s, p);
    var j := Joined(s, p);
    assert j[..|q|] == q;
    assert Line(s, q) != q ==> Tick(s).pending by {
      assert Expire(s).info[q[0]].slice == s.info[q[0]].slice;
      hide Expire, Highest, Inv, Keep, Drop;
    }
    assert Tick(s).current == s.current && Tick(s).locks == 0 by {
      hide Inv, Keep, Drop, Highest;
    }
    hide Tick, Joined;
  }

  lemma SwitchFront(s: State, p: Prio, q: seq<Id>)
    requires Inv(s) && (forall i :: 0 <= i < p ==> s.ready[i] == [])
    requires 0 < |q| <= |s.ready[p]| && s.ready[p][..|q|] == q && s.locks == 0
    requires s.pending || s.current == Some(q[0])
    ensures InFront(if s.pending then PendSV(s) else s, p, q)
  {
    assert Highest(s) == p;
    assert s.ready[p][0] == q[0];
  }

  /** The line moves by whole slices; behind the front nothing changes. */
  lemma OneTick(s: State, p: Prio, q: seq<Id>, m: nat)
    requires Inv(s) && InFront(s, p, q) && Quiet(s, p, m) && m > 0 && SlicesOk(s)
    requires SliceOf(s, q[0]) > 1 || |q| > 1
    ensures var r, n := TickAndSwitch(s), Line(s, q);
            && InFront(r, p, n) && SlicesOk(r) && Quiet(r, p, m - 1)
            && (forall t :: t in q[1..] ==> SliceOf(r, t) == SliceOf(s, t))
            && (n == q ==> SliceOf(r, q[0]) == SliceOf(s, q[0]) - 1)
  {
    TickFront(s, p, q, m);
    var t := Next(s, DoTick);
    SwitchFront(t, p, Line(s, q));
    StepSlices(s, DoTick);
    var r := TickAndSwitch(s);
    assert r.info == t.info && r.tick == t.tick;
    TickSlicesOf(s, p, q);
    TickQuiet(s, p, m);
    assert SlicesOk(r) by {
      forall u | u in r.info
        ensures SliceOk(r, u)
      {
        assert SliceOk(t, u);
      }
    }
    hide Inv, Next, TickAndSwitch;
  }

  lemma TickSlicesOf(s: State, p: Prio, q: seq<Id>)
    requires Inv(s) && InFront(s, p, q) && SlicesOk(s)
    ensures forall t :: t in q[1..] ==> SliceOf(Tick(s), t) == SliceOf(s, t)
    ensures SliceOf(s, q[0]) > 1 ==> SliceOf(Tick(s), q[0]) == SliceOf(s, q[0]) - 1
  {
    FrontMembers(s, p, q);
    assert q == [q[0]] + q[1..];
    hide Inv, Tick;
    forall t | t in q
      ensures SliceOf(Tick(s), t) ==
              if t != q[0] then SliceOf(s, t)
              else if SliceOf(s, t) > 1 then SliceOf(s, t) - 1
              else TIME_SLICE
    {
      TickSlice(s, t);
    }
  }

  lemma TickQuiet(s: State, p: nat, m: nat)
    requires Inv(s) && Quiet(s, p, m) && m > 0
    ensures Quiet(Tick(s), p, m - 1)
  {
    assert Sane(s) && Next(s, DoTick) == Tick(s);
    hide Tick, Inv, Left, Due, Next;
    var r := Tick(s);
    StepClock(s, DoTick);
    TickKeys(s);
    forall t | t in r.info && Timed(r.info[t]) && r.info[t].priority < p
      ensures Left(r.tick, r.info[t].wakeTick) > m - 1
    {
      StillAsleep(s, t);
    }
  }

  /** A task that sleeps on through a tick has one tick less to go. */
  lemma StillAsleep(s: State, t: Id)
    requires Inv(s) && t in Tick(s).info && Timed(Tick(s).info[t])
    ensures t in s.info && Timed(s.info[t]) && Tick(s).info[t].priority == s.info[t].priority
    ensures Left(s.tick, s.info[t].wakeTick) == Left((s.tick + 1) % TWO32, Tick(s).info[t].wakeTick) + 1
  {
    assert Sane(s) && Next(s, DoTick) == Tick(s);
    hide Tick, Inv, Left, Due, Next;
    DeadlineSource(s, DoTick, t);
    TickRecord(s, t);
    LeftCounts(s.info[t], s.tick);
  }

  lemma TurnNow(s: State, p: Prio, q: seq<Id>, i: nat)
    requires Inv(s) && InFront(s, p, q) && SlicesOk(s) && i < |q| && SliceSum(s, q, i) == 0
    ensures i == 0 && Spin(s, 0).current == Some(q[0])
  {
    FrontMembers(s, p, q);
    SumBound(s, q, i);
  }

  lemma FrontSlice(s: State, p: Prio, q: seq<Id>)
    requires Inv(s) && InFront(s, p, q) && SlicesOk(s)
    ensures SliceOf(s, q[0]) >= 1
  {
    FrontMembers(s, p, q);
    assert q[0] in q && SliceOk(s, q[0]);
  }

  /** One tick takes one from the sum of slices still to come. */
  lemma TurnNearer(s: State, p: Prio, q: seq<Id>, m: nat, i: nat) returns (j: nat)
    requires Inv(s) && InFront(s, p, q) && Quiet(s, p, m) && SlicesOk(s)
    requires i < |q| && SliceSum(s, q, i) <= m < SliceSum(s, q, i + 1) && m > 0
    ensures var r, n := TickAndSwitch(s), Line(s, q);
            && InFront(r, p, n) && Quiet(r, p, m - 1) && SlicesOk(r)
            && j < |n| && n[j] == q[i]
            && SliceSum(r, n, j) <= m - 1 < SliceSum(r, n, j + 1)
  {
    hide Inv, Quiet, SlicesOk, TickAndSwitch, InFront, SliceOf;
    FrontSlice(s, p, q);
    OneSlice(s, q);
    OneTick(s, p, q, m);
    var r, n := TickAndSwitch(s), Line(s, q);
    SumSame(s, r, q[1..], i);
    if i > 0 {
      SumSame(s, r, q[1..], i - 1);
    }
    j := if n == q then i else i - 1;
  }

  lemma OneSlice(s: State, q: seq<Id>)
    requires |q| > 0
    ensures SliceSum(s, q, 1) == SliceOf(s, q[0])
  {
  }

  /** The task at position i is current exactly while the ticks run through its slice. */
  lemma {:induction false} TurnAt(s: State, p: Prio, q: seq<Id>, m: nat, i: nat)
    requires Inv(s) && InFront(s, p, q) && Quiet(s, p, m) && SlicesOk(s)
    requires i < |q| && SliceSum(s, q, i) <= m < SliceSum(s, q, i + 1)
    ensures Spin(s, m).current == Some(q[i])
    decreases m
  {
    hide Inv, Quiet, SlicesOk, InFront, TickAndSwitch, SliceSum, Line;
    if m == 0 {
      TurnNow(s, p, q, i);
    } else {
      var j := TurnNearer(s, p, q, m, i);
      TurnAt(TickAndSwitch(s), p, Line(s, q), m - 1, j);
    }
  }

  /**
   * With k tasks in the highest non-empty list and the current one in front, the task at
   * position i < k is current after exactly the slices ahead of it, so after at most
   * i * CONFIG_TIME_SLICE ticks.
   */
  lemma FairTurn(s: State, i: nat) returns (m: nat)
    requires Inv(s) && SlicesOk(s) && s.locks == 0
    requires Highest(s) < MAX_PRIORITY && s.current == GetNext(s)
    requires i < |s.ready[Highest(s)]| && Quiet(s, Highest(s), i * TIME_SLICE)
    ensures m == SliceSum(s, s.ready[Highest(s)], i) <= i * TIME_SLICE
    ensures Spin(s, m).current == Some(s.ready[Highest(s)][i])
  {
    var p := Highest(s);
    var q := s.ready[p];
    assert q[..|q|] == q;
    FrontMembers(s, p, q);
    SumBound(s, q, i);
    m := SliceSum(s, q, i);
    SumStep(s, q, i);
    TurnAt(s, p, q, m, i);
  }

  lemma {:induction false} SumStep(s: State, q: seq<Id>, n: nat)
    requires n < |q| && SlicesOk(s) && forall t :: t in q ==> t in s.info
    ensures SliceSum(s, q, n) < SliceSum(s, q, n + 1)
  {
    assert q[0] in q && SliceOk(s, q[0]);
    if n > 0 {
      SumStep(s, q[1..], n - 1);
    }
  }
}
