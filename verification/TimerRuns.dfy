/** Software timers as values, and how often they fire over whole runs. */
module TimerRuns {
  import opened Types
  import opened Seqs
  import opened Arith

  datatype Timer = Timer(period: U32, remaining: U32, periodic: bool, active: bool)

  /** The timer list, the timers that exist, and every callback made so far. */
  datatype State = State(list: seq<Id>, timers: map<Id, Timer>, fired: seq<Id>)

  /** A timer is active iff it is in the list, once; an active one has time left, at most its period. */
  ghost predicate TimerOk(s: State, t: Id)
    requires t in s.timers
  {
    && (s.timers[t].active <==> t in s.list)
    && (s.timers[t].active ==> 1 <= s.timers[t].remaining <= s.timers[t].period)
  }

  ghost predicate Inv(s: State) {
    && NoDup(s.list)
    && (forall t :: t in s.list ==> t in s.timers)
    && (forall t {:trigger TimerOk(s, t)} :: t in s.timers ==> TimerOk(s, t))
  }

  function Empty(): State {
    State([], map[], [])
  }

  /** timer_create */
  function Create(s: State, t: Id): State {
    s.(timers := s.timers[t := Timer(0, 0, false, false)])
  }

  /** timer_list_remove, for a timer in the list. */
  function Remove(s: State, t: Id): State
    requires t in s.timers
  {
    s.(list := Drop(s.list, {t}), timers := s.timers[t := s.timers[t].(active := false)])
  }

  /** timer_stop */
  function Stop(s: State, t: Id): State
    requires t in s.timers
  {
    if s.timers[t].active then Remove(s, t) else s
  }

  /** timer_start with a period that is not zero. */
  function Start(s: State, t: Id, period: U32, periodic: bool): State
    requires t in s.timers
  {
    var s1 := Stop(s, t);
    s1.(list := [t] + s1.list, timers := s1.timers[t := Timer(period, period, periodic, true)])
  }

  /** timer_tick_isr at one timer of the list. */
  function TickOne(s: State, t: Id): State
    requires t in s.timers
  {
    var a := s.timers[t];
    var left := if a.remaining > 0 then a.remaining - 1 else 0;
    if left > 0 then s.(timers := s.timers[t := a.(remaining := left)])
    else
      var s1 := s.(fired := s.fired + [t]);
      if a.periodic then s1.(timers := s1.timers[t := a.(remaining := a.period)])
      else Remove(s1.(timers := s1.timers[t := a.(remaining := 0)]), t)
  }

  /** The rest of the walk, over the timers q. */
  function TickAll(s: State, q: seq<Id>): State
    requires forall t :: t in q ==> t in s.timers
    decreases |q|
  {
    if q == [] then s
    else
      assert q[0] in q;
      TickAll(TickOne(s, q[0]), q[1..])
  }

  /** The walk's next stop. */
  lemma TickAllStep(s: State, q: seq<Id>)
    requires q != [] && forall t :: t in q ==> t in s.timers
    ensures q[0] in s.timers
    ensures var r := TickOne(s, q[0]);
            (forall t :: t in q[1..] ==> t in r.timers) && TickAll(s, q) == TickAll(r, q[1..])
  {
    assert q[0] in q;
  }

  function Tick(s: State): State
    requires forall t :: t in s.list ==> t in s.timers
  {
    TickAll(s, s.list)
  }

  // ---- One tick, timer by timer ----

  function FiredCount(log: seq<Id>, t: Id): nat {
    multiset(log)[t]
  }

  /** The timer after a tick, by its own situation. */
  function Ticked(a: Timer): Timer {
    if !a.active then a
    else if a.remaining > 1 then a.(remaining := a.remaining - 1)
    else if a.periodic then a.(remaining := a.period)
    else a.(remaining := 0, active := false)
  }

  predicate Fires(a: Timer) {
    a.active && a.remaining <= 1
  }

  /** The walk at u does not touch another timer t. */
  lemma TickOneOther(s: State, u: Id, t: Id)
    requires u in s.timers && t != u
    ensures var r := TickOne(s, u);
            && (t in r.list <==> t in s.list) && (t in r.timers <==> t in s.timers)
            && (t in s.timers ==> r.timers[t] == s.timers[t])
            && FiredCount(r.fired, t) == FiredCount(s.fired, t)
  {
    Members(s.list, {u});
  }

  lemma TickOneSelf(s: State, t: Id)
    requires t in s.timers && s.timers[t].active
    ensures var a, r := s.timers[t], TickOne(s, t);
            && t in r.timers && r.timers[t] == Ticked(a)
            && FiredCount(r.fired, t) == FiredCount(s.fired, t) + (if Fires(a) then 1 else 0)
            && (t in r.list <==> t in s.list && Ticked(a).active)
  {
    Members(s.list, {t});
  }

  /** The walk over q ticks each timer of q exactly once, and no other. */
  lemma {:induction false} TickAllTimer(s: State, q: seq<Id>, t: Id)
    requires NoDup(q) && forall u :: u in q ==> u in s.timers && s.timers[u].active
    ensures var r := TickAll(s, q);
            && (t in r.timers <==> t in s.timers)
            && (t !in q ==> (t in r.list <==> t in s.list) && FiredCount(r.fired, t) == FiredCount(s.fired, t))
            && (t !in q && t in s.timers ==> r.timers[t] == s.timers[t])
            && (t in q ==>
                  && r.timers[t] == Ticked(s.timers[t])
                  && FiredCount(r.fired, t) == FiredCount(s.fired, t) + (if Fires(s.timers[t]) then 1 else 0)
                  && (t in r.list <==> t in s.list && Ticked(s.timers[t]).active))
    decreases |q|
  {
    if q != [] {
      var u, rest := q[0], q[1..];
      assert q == [u] + rest && u in q;
      var s1 := TickOne(s, u);
      assert u !in rest;
      forall v | v in rest
        ensures v in s1.timers && s1.timers[v].active
      {
        assert v in q;
        TickOneOther(s, u, v);
      }
      TickOneSelf(s, u);
      if t != u {
        TickOneOther(s, u, t);
      }
      TickAllTimer(s1, rest, t);
    }
  }

  lemma {:induction false} TickAllNoDup(s: State, q: seq<Id>)
    requires NoDup(s.list) && forall u :: u in q ==> u in s.timers
    ensures NoDup(TickAll(s, q).list)
    decreases |q|
  {
    if q != [] {
      assert q[0] in q;
      SelectNoDup(s.list, {q[0]});
      TickAllNoDup(TickOne(s, q[0]), q[1..]);
    }
  }

  // ---- The invariant ----

  lemma TickInv(s: State)
    requires Inv(s)
    ensures Inv(Tick(s))
  {
    var r := Tick(s);
    forall u | u in s.list
      ensures u in s.timers && s.timers[u].active
    {
      assert TimerOk(s, u);
    }
    TickAllNoDup(s, s.list);
    forall t
      ensures t in r.list ==> t in r.timers
      ensures t in r.timers ==> TimerOk(r, t)
    {
      TickAllTimer(s, s.list, t);
      assert t in s.timers ==> TimerOk(s, t);
    }
  }

  lemma StopInv(s: State, t: Id)
    requires Inv(s) && t in s.timers
    ensures Inv(Stop(s, t)) && t !in Stop(s, t).list
  {
    SelectNoDup(s.list, {t});
    var r := Stop(s, t);
    forall u | u in r.timers
      ensures TimerOk(r, u)
    {
      assert TimerOk(s, u);
    }
    assert TimerOk(s, t);
  }

  lemma StartInv(s: State, t: Id, period: U32, periodic: bool)
    requires Inv(s) && t in s.timers && period > 0
    ensures Inv(Start(s, t, period, periodic))
  {
    StopInv(s, t);
    var s1, r := Stop(s, t), Start(s, t, period, periodic);
    NoDupConcat([t], s1.list);
    forall u | u in r.timers
      ensures TimerOk(r, u)
    {
      assert TimerOk(s1, u);
    }
  }

  /** Creating a timer keeps the invariant exactly when it is not active; an active one stays listed. */
  lemma CreateInv(s: State, t: Id)
    requires Inv(s)
    ensures Inv(Create(s, t)) <==> (t in s.timers ==> !s.timers[t].active)
  {
    var r := Create(s, t);
    assert t in s.timers ==> TimerOk(s, t);
    if t in s.timers && s.timers[t].active {
      assert t in r.list && !r.timers[t].active;
      assert Inv(r) ==> TimerOk(r, t);
    } else {
      forall u | u in r.timers
        ensures TimerOk(r, u)
      {
        assert u in s.timers ==> TimerOk(s, u);
      }
    }
  }

  // ---- Runs ----

  datatype Step = DoTick | DoStart(timer: Id, period: U32, periodic: bool) | DoStop(timer: Id) | DoCreate(timer: Id)

  predicate Enabled(s: State, step: Step) {
    match step
    case DoTick => true
    case DoStart(t, period, _) => t in s.timers && period > 0
    case DoStop(t) => t in s.timers
    case DoCreate(t) => t in s.timers ==> !s.timers[t].active
  }

  ghost function Next(s: State, step: Step): (r: State)
    requires Inv(s) && Enabled(s, step)
    ensures Inv(r)
  {
    match step
    case DoTick => TickInv(s); Tick(s)
    case DoStart(t, period, periodic) => StartInv(s, t, period, periodic); Start(s, t, period, periodic)
    case DoStop(t) => StopInv(s, t); Stop(s, t)
    case DoCreate(t) => CreateInv(s, t); Create(s, t)
  }

  ghost predicate Run(s: State, steps: seq<Step>)
    requires Inv(s)
    decreases |steps|
  {
    steps == [] || (Enabled(s, steps[0]) && Run(Next(s, steps[0]), steps[1..]))
  }

  ghost function After(s: State, steps: seq<Step>): (r: State)
    requires Inv(s) && Run(s, steps)
    ensures Inv(r)
    decreases |steps|
  {
    if steps == [] then s else After(Next(s, steps[0]), steps[1..])
  }

  function TicksIn(steps: seq<Step>): nat {
    if steps == [] then 0 else (if steps[0] == DoTick then 1 else 0) + TicksIn(steps[1..])
  }

  /** Nobody starts, stops or re-creates t. */
  predicate LeftAlone(steps: seq<Step>, t: Id) {
    forall x :: x in steps ==> x == DoTick || x.timer != t
  }

  /** One step, seen from a timer it does not name. */
  lemma StepTimer(s: State, step: Step, t: Id)
    requires Inv(s) && Enabled(s, step) && t in s.timers && (step == DoTick || step.timer != t)
    ensures var a, r := s.timers[t], Next(s, step);
            && t in r.timers && r.timers[t] == (if step == DoTick then Ticked(a) else a)
            && FiredCount(r.fired, t) == FiredCount(s.fired, t) + if step == DoTick && Fires(a) then 1 else 0
  {
    assert TimerOk(s, t);
    if step == DoTick {
      forall u | u in s.list
        ensures u in s.timers && s.timers[u].active
      {
        assert TimerOk(s, u);
      }
      TickAllTimer(s, s.list, t);
    }
  }

  lemma DivStep(p: nat, e: nat, k: nat)
    requires p > 0 && e < p && k > 0
    ensures e + 1 < p ==> (e + k) / p == (e + 1 + (k - 1)) / p && (e + k) % p == (e + 1 + (k - 1)) % p
    ensures e + 1 == p ==> (e + k) / p == 1 + (k - 1) / p && (e + k) % p == (k - 1) % p
  {
    if e + 1 == p {
      var x := k - 1;
      assert e + k == p + x;
      assert x == p * (x / p) + x % p;
      assert p + x == p * (1 + x / p) + x % p;
      DivUnique(p + x, p, 1 + x / p, x % p);
    }
  }

  /** A periodic timer that has run for e ticks of its period fires (e + k) / period times in k more. */
  lemma {:induction false} PeriodicFrom(s: State, steps: seq<Step>, t: Id)
    requires Inv(s) && Run(s, steps) && LeftAlone(steps, t)
    requires t in s.timers && s.timers[t].active && s.timers[t].periodic
    ensures var a, r := s.timers[t], After(s, steps);
            var x := a.period - a.remaining + TicksIn(steps);
            && a.period > 0 && t in r.timers
            && r.timers[t] == a.(remaining := a.period - x % a.period)
            && FiredCount(r.fired, t) == FiredCount(s.fired, t) + x / a.period
    decreases |steps|
  {
    var a := s.timers[t];
    assert TimerOk(s, t);
    hide Inv, Enabled, TimerOk;
    if steps == [] {
      DivUnique(a.period - a.remaining, a.period, 0, a.period - a.remaining);
    } else {
      assert steps[0] in steps && forall x :: x in steps[1..] ==> x in steps;
      StepTimer(s, steps[0], t);
      var r := Next(s, steps[0]);
      hide Next, FiredCount;
      PeriodicFrom(r, steps[1..], t);
      if steps[0] == DoTick {
        DivStep(a.period, a.period - a.remaining, TicksIn(steps));
      }
    }
  }

  /** A one-shot timer fires once, at the tick that uses up its time, and is then inactive. */
  lemma {:induction false} OneShotFrom(s: State, steps: seq<Step>, t: Id)
    requires Inv(s) && Run(s, steps) && LeftAlone(steps, t)
    requires t in s.timers && s.timers[t].active && !s.timers[t].periodic
    ensures var a, r, k := s.timers[t], After(s, steps), TicksIn(steps);
            && t in r.timers
            && r.timers[t] == (if k < a.remaining then a.(remaining := a.remaining - k)
                               else a.(remaining := 0, active := false))
            && FiredCount(r.fired, t) == FiredCount(s.fired, t) + (if k < a.remaining then 0 else 1)
    decreases |steps|
  {
    var a := s.timers[t];
    assert TimerOk(s, t);
    hide Inv, Enabled, TimerOk;
    if steps != [] {
      assert steps[0] in steps && forall x :: x in steps[1..] ==> x in steps;
      StepTimer(s, steps[0], t);
      var r := Next(s, steps[0]);
      hide Next, FiredCount;
      if r.timers[t].active {
        OneShotFrom(r, steps[1..], t);
      } else {
        IdleStays(r, steps[1..], t);
      }
    }
  }

  lemma {:induction false} IdleStays(s: State, steps: seq<Step>, t: Id)
    requires Inv(s) && Run(s, steps) && LeftAlone(steps, t) && t in s.timers && !s.timers[t].active
    ensures var r := After(s, steps);
            t in r.timers && r.timers[t] == s.timers[t] && FiredCount(r.fired, t) == FiredCount(s.fired, t)
    decreases |steps|
  {
    if steps != [] {
      assert steps[0] in steps && forall x :: x in steps[1..] ==> x in steps;
      StepTimer(s, steps[0], t);
      var r := Next(s, steps[0]);
      hide Next, FiredCount, Inv, Enabled;
      IdleStays(r, steps[1..], t);
    }
  }

  /**
   * The main result: a timer started with period p and left alone for k ticks, whatever
   * happens to other timers, has fired k / p times if periodic and once iff k >= p if not;
   * while it is active it has p - k mod p ticks to go.
   */
  lemma FiringCounts(s: State, t: Id, p: U32, periodic: bool, steps: seq<Step>)
    requires Inv(s) && t in s.timers && p > 0
    requires Run(Next(s, DoStart(t, p, periodic)), steps) && LeftAlone(steps, t)
    ensures var r, k := After(Next(s, DoStart(t, p, periodic)), steps), TicksIn(steps);
            && t in r.timers
            && (r.timers[t].active <==> periodic || k < p)
            && (r.timers[t].active ==> r.timers[t].remaining == p - k % p)
            && FiredCount(r.fired, t) == FiredCount(s.fired, t) + if periodic then k / p else if k >= p then 1 else 0
  {
    var s0 := Next(s, DoStart(t, p, periodic));
    if periodic {
      PeriodicFrom(s0, steps, t);
    } else {
      OneShotFrom(s0, steps, t);
      if TicksIn(steps) < p {
        DivUnique(TicksIn(steps), p, 0, TicksIn(steps));
      }
    }
  }
}
