/** The order in which timers fire at one tick: the one started last goes first. */
module TimerOrder {
  import opened Types
  import opened Seqs
  import opened TimerRuns

  /** The timers of q whose time is up with this tick, and those of them that are done with it. */
  function Firing(s: State, q: seq<Id>): set<Id> {
    set t | t in q && t in s.timers && Fires(s.timers[t])
  }

  function Ending(s: State, q: seq<Id>): set<Id> {
    set t | t in q && t in s.timers && Fires(s.timers[t]) && !s.timers[t].periodic
  }

  lemma TickOneLists(s: State, t: Id)
    requires t in s.timers && s.timers[t].active
    ensures var r, a := TickOne(s, t), s.timers[t];
            && r.fired == s.fired + (if Fires(a) then [t] else [])
            && r.list == (if Fires(a) && !a.periodic then Drop(s.list, {t}) else s.list)
  {
  }

  /** What the walk has still to do after its first timer. */
  lemma RestOfWalk(s: State, q: seq<Id>)
    requires NoDup(q) && q != [] && forall u :: u in q ==> u in s.timers && s.timers[u].active
    ensures q[0] in q && q[0] !in q[1..]
    ensures var s1 := TickOne(s, q[0]);
            && (forall v :: v in q[1..] ==> v in s1.timers && s1.timers[v] == s.timers[v])
            && Firing(s1, q[1..]) == Firing(s, q) - {q[0]} && Ending(s1, q[1..]) == Ending(s, q) - {q[0]}
  {
    var u, s1 := q[0], TickOne(s, q[0]);
    assert q == [u] + q[1..] && u in q && u !in q[1..];
    forall v | v in q[1..]
      ensures v in s1.timers && s1.timers[v] == s.timers[v]
    {
      assert v in q;
      TickOneOther(s, u, v);
    }
  }

  lemma FiredAhead(log: seq<Id>, u: Id, rest: seq<Id>, f: set<Id>)
    requires u !in rest
    ensures log + (if u in f then [u] else []) + Keep(rest, f - {u}) == log + Keep([u] + rest, f)
  {
    SelectCons(u, rest, f);
    SelectAgree(rest, f - {u}, f);
    hide Keep;
    if u in f {
      assert log + [u] + Keep(rest, f) == log + ([u] + Keep(rest, f));
    } else {
      assert log + [] == log;
    }
  }

  lemma DroppedAhead(q: seq<Id>, u: Id, e: set<Id>)
    ensures Drop(if u in e then Drop(q, {u}) else q, e - {u}) == Drop(q, e)
  {
    if u in e {
      DropTwice(q, {u}, e - {u});
      assert {u} + (e - {u}) == e;
    } else {
      assert e - {u} == e;
    }
  }

  /** The walk makes its callbacks in list order, and drops the timers that are done. */
  lemma {:induction false} WalkLists(s: State, q: seq<Id>)
    requires NoDup(q) && forall u :: u in q ==> u in s.timers && s.timers[u].active
    ensures TickAll(s, q).fired == s.fired + Keep(q, Firing(s, q))
    ensures TickAll(s, q).list == Drop(s.list, Ending(s, q))
    decreases |q|
  {
    hide TickOne, Keep, Drop;
    if q == [] {
      SelectNone(q, Firing(s, q));
      SelectNone(s.list, Ending(s, q));
    } else {
      var u, rest := q[0], q[1..];
      RestOfWalk(s, q);
      TickOneLists(s, u);
      WalkLists(TickOne(s, u), rest);
      FiredAhead(s.fired, u, rest, Firing(s, q));
      DroppedAhead(s.list, u, Ending(s, q));
      assert q == [u] + rest;
    }
  }

  /** One tick makes the callbacks of all timers whose time is up, in list order, and nothing else moves. */
  lemma TickInOrder(s: State)
    requires Inv(s)
    ensures var r, f := Next(s, DoTick), Firing(s, s.list);
            && r.fired == s.fired + Keep(s.list, f) && r.list == Drop(s.list, Ending(s, s.list))
            && forall t :: t in s.timers ==> (t in f <==> s.timers[t].active && s.timers[t].remaining == 1)
  {
    forall u | u in s.timers
      ensures TimerOk(s, u)
    {
    }
    WalkLists(s, s.list);
    hide Keep, Drop;
  }

  /** A timer just started heads the list with its full period ahead; no other is touched. */
  lemma StartFronts(s: State, t: Id, p: U32, periodic: bool)
    requires Inv(s) && Enabled(s, DoStart(t, p, periodic))
    ensures Next(s, DoStart(t, p, periodic)) ==
            State([t] + Drop(s.list, {t}), s.timers[t := Timer(p, p, periodic, true)], s.fired)
  {
    assert TimerOk(s, t);
    if !s.timers[t].active {
      SelectNone(s.list, {t});
    }
    hide Drop;
  }

  /** A stop takes the timer off the list and leaves its times as they are; for an inactive one it does nothing. */
  lemma StopTakesOff(s: State, t: Id)
    requires Inv(s) && t in s.timers
    ensures Next(s, DoStop(t)) ==
            State(Drop(s.list, {t}), s.timers[t := s.timers[t].(active := false)], s.fired)
    ensures !s.timers[t].active ==> Next(s, DoStop(t)) == s
  {
    assert TimerOk(s, t);
    if !s.timers[t].active {
      SelectNone(s.list, {t});
    }
    hide Drop;
  }

  lemma ConsOrder(h: Id, q: seq<Id>, a: Id, b: Id)
    requires Before(q, a, b)
    ensures Before([h] + q, a, b)
  {
    assert ([h] + q)[1..] == q;
  }

  lemma {:induction false} DropOrder(q: seq<Id>, d: set<Id>, a: Id, b: Id)
    requires Before(q, a, b) && a !in d && b !in d
    ensures Before(Drop(q, d), a, b)
  {
    var s := (set t | t in q) - d;
    DropIsKeep(q, d, s);
    BeforeIn(q, a, b);
    KeepOrder(q, s, a, b);
  }

  lemma {:induction false} BeforeIn(q: seq<Id>, a: Id, b: Id)
    requires Before(q, a, b)
    ensures a in q && b in q
  {
    assert q == [q[0]] + q[1..];
    if Before(q[1..], a, b) {
      BeforeIn(q[1..], a, b);
    }
  }

  /** A step that names neither timer keeps their order in the list while both stay in it. */
  lemma StepOrder(s: State, step: Step, a: Id, b: Id)
    requires Inv(s) && Enabled(s, step) && (step == DoTick || (step.timer != a && step.timer != b))
    requires Before(s.list, a, b) && a in Next(s, step).list && b in Next(s, step).list
    ensures Before(Next(s, step).list, a, b)
  {
    match step
    case DoTick =>
      TickInOrder(s);
      Members(s.list, Ending(s, s.list));
      hide Inv, Next;
      DropOrder(s.list, Ending(s, s.list), a, b);
    case DoStart(t, p, periodic) =>
      StartFronts(s, t, p, periodic);
      hide Inv, Next;
      DropOrder(s.list, {t}, a, b);
      ConsOrder(t, Drop(s.list, {t}), a, b);
    case DoStop(t) =>
      DropOrder(s.list, {t}, a, b);
      hide Inv, Drop;
    case DoCreate(_) =>
  }

  lemma {:induction false} RunOrder(s: State, steps: seq<Step>, a: Id, b: Id)
    requires Inv(s) && Run(s, steps) && LeftAlone(steps, a) && LeftAlone(steps, b)
    requires Before(s.list, a, b) && a in After(s, steps).list && b in After(s, steps).list
    ensures Before(After(s, steps).list, a, b)
    decreases |steps|
  {
    if steps != [] {
      assert steps[0] in steps && forall x :: x in steps[1..] ==> x in steps;
      BeforeIn(s.list, a, b);
      StillListed(s, steps, a);
      StillListed(s, steps, b);
      hide Inv, Enabled, Next, LeftAlone;
      StepOrder(s, steps[0], a, b);
      RunOrder(Next(s, steps[0]), steps[1..], a, b);
    }
  }

  lemma ListedIs(s: State, t: Id)
    requires Inv(s)
    ensures t in s.list <==> t in s.timers && s.timers[t].active
  {
    assert t in s.timers ==> TimerOk(s, t);
  }

  /** A timer that is left alone and still listed at the end has been listed throughout. */
  lemma StillListed(s: State, steps: seq<Step>, t: Id)
    requires Inv(s) && steps != [] && Run(s, steps) && LeftAlone(steps, t)
    requires t in s.list && t in After(s, steps).list
    ensures t in Next(s, steps[0]).list
    ensures LeftAlone(steps[1..], t) && (steps[0] == DoTick || steps[0].timer != t)
  {
    assert steps[0] in steps && forall x :: x in steps[1..] ==> x in steps;
    StepTimer(s, steps[0], t);
    var r := Next(s, steps[0]);
    ListedIs(r, t);
    ListedIs(After(s, steps), t);
    if !r.timers[t].active {
      IdleStays(r, steps[1..], t);
    }
  }

  /**
   * Two timers that are due at the same tick, neither touched since the second was started:
   * the callback of the one started later comes first.
   */
  lemma LaterFirst(s: State, t: Id, p: U32, periodic: bool, u: Id, steps: seq<Step>)
    requires Inv(s) && Enabled(s, DoStart(t, p, periodic)) && u in s.list && u != t
    requires Run(Next(s, DoStart(t, p, periodic)), steps) && LeftAlone(steps, t) && LeftAlone(steps, u)
    requires var m := After(Next(s, DoStart(t, p, periodic)), steps);
             {t, u} <= Firing(m, m.list)
    ensures var m := After(Next(s, DoStart(t, p, periodic)), steps);
            var log := Next(m, DoTick).fired;
            && |m.fired| <= |log| && log[..|m.fired|] == m.fired && Before(log[|m.fired|..], t, u)
  {
    var s1 := Next(s, DoStart(t, p, periodic));
    var m := After(s1, steps);
    StartFronts(s, t, p, periodic);
    Members(s.list, {t});
    assert s1.list[1..] == Drop(s.list, {t});
    hide Inv, Enabled, Next, Drop, Keep;
    RunOrder(s1, steps, t, u);
    TickInOrder(m);
    KeepOrder(m.list, Firing(m, m.list), t, u);
  }
}
