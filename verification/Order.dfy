/**
 * Arrival order. Whatever a step does to a ready list, tasks that stay keep their order
 * and tasks that join, join behind them; so nobody overtakes a task that waits its turn.
 */
module Order {
  import opened Types
  import opened Seqs
  import opened SchedSpec
  import opened SchedInv
  import opened SchedRuns
  import opened TaskLaws
  import opened TickLaws

  ghost function All(q: seq<Id>): set<Id> {
    set t | t in q
  }

  lemma KeepAll(q: seq<Id>)
    ensures Keep(q, All(q)) == q
  {
    DropIsKeep(q, {}, All(q));
    SelectNone(q, {});
  }

  lemma {:induction false} RestIsKeep(q: seq<Id>)
    requires q != [] && NoDup(q)
    ensures Keep(q, All(q) - {q[0]}) == q[1..]
  {
    DropWithout(q, 0);
    DropIsKeep(q, {q[0]}, All(q) - {q[0]});
    assert Without(q, 0) == q[1..];
  }

  /** The step may take t out of its list and put it back behind the others. */
  predicate Moves(s: State, step: Step, t: Id) {
    match step
    case DoSetPriority(u, _) => u == t
    case DoYield => s.current == Some(t)
    case DoTick => s.current == Some(t) && t in s.info && s.info[t].slice <= 1
    case _ => false
  }

  /** r is what stays of q, in order, then tail; a task that is not moved and is in r has stayed. */
  ghost predicate Shaped(s: State, step: Step, q: seq<Id>, r: seq<Id>, stay: set<Id>, tail: seq<Id>) {
    && r == Keep(q, stay) + tail
    && forall t :: t in q && t in r && !Moves(s, step, t) ==> t in stay && t !in tail
  }

  lemma ShapeSame(s: State, step: Step, q: seq<Id>) returns (stay: set<Id>, tail: seq<Id>)
    ensures Shaped(s, step, q, q, stay, tail)
  {
    KeepAll(q);
    stay, tail := All(q), [];
    assert q + [] == q;
  }

  lemma ShapeAdded(s: State, step: Step, q: seq<Id>, k: seq<Id>) returns (stay: set<Id>, tail: seq<Id>)
    requires forall t :: t in k ==> t !in q
    ensures Shaped(s, step, q, q + k, stay, tail)
  {
    KeepAll(q);
    stay, tail := All(q), k;
  }

  lemma ShapeDropped(s: State, step: Step, q: seq<Id>, t: Id) returns (stay: set<Id>, tail: seq<Id>)
    ensures Shaped(s, step, q, Drop(q, {t}), stay, tail)
  {
    Members(q, {t});
    stay, tail := All(q) - {t}, [];
    DropIsKeep(q, {t}, stay);
    assert Keep(q, stay) + [] == Keep(q, stay);
  }

  lemma ShapeRequeued(s: State, step: Step, q: seq<Id>, t: Id) returns (stay: set<Id>, tail: seq<Id>)
    requires Moves(s, step, t)
    ensures Shaped(s, step, q, Drop(q, {t}) + [t], stay, tail)
  {
    Members(q, {t});
    stay, tail := All(q) - {t}, [t];
    DropIsKeep(q, {t}, stay);
  }

  lemma ShapeRotated(s: State, step: Step, q: seq<Id>, k: seq<Id>) returns (stay: set<Id>, tail: seq<Id>)
    requires |q + k| > 0 && NoDup(q) && (forall t :: t in k ==> t !in q) && Moves(s, step, (q + k)[0])
    ensures Shaped(s, step, q, (q + k)[1..] + [(q + k)[0]], stay, tail)
  {
    if q == [] {
      stay, tail := {}, (q + k)[1..] + [(q + k)[0]];
    } else {
      RestIsKeep(q);
      stay, tail := All(q) - {q[0]}, k + [q[0]];
      assert (q + k)[1..] + [q[0]] == q[1..] + (k + [q[0]]);
    }
  }

  lemma TickShape(s: State, p: Prio) returns (stay: set<Id>, tail: seq<Id>)
    requires Inv(s)
    ensures Shaped(s, DoTick, s.ready[p], Tick(s).ready[p], stay, tail)
  {
    TickLists(s, p);
    assert ListOk(s, p);
    var w := WithPriority(s.info, DueNext(s), p);
    Members(s.blocked, w);
    var q, k := s.ready[p], Keep(s.blocked, w);
    hide Inv, Keep, Tick, ListOk;
    if Rotates(s, q + k) && s.info[s.current.value].priority == p {
      stay, tail := ShapeRotated(s, DoTick, q, k);
    } else {
      stay, tail := ShapeAdded(s, DoTick, q, k);
    }
  }

  lemma WakeShape(s: State, step: Step, w: set<Id>, how: Wakeup, p: Prio) returns (stay: set<Id>, tail: seq<Id>)
    requires Inv(s)
    ensures Shaped(s, step, s.ready[p], Wake(s, w, how).ready[p], stay, tail)
  {
    assert ListOk(s, p);
    Members(s.blocked, WithPriority(s.info, w, p));
    stay, tail := ShapeAdded(s, step, s.ready[p], Keep(s.blocked, WithPriority(s.info, w, p)));
  }

  lemma WakersShape(s: State, step: Step, p: Prio) returns (stay: set<Id>, tail: seq<Id>)
    requires Inv(s) && Enabled(s, step) && (step.DoUnblockTask? || step.DoUnblockOne? || step.DoUnblockAll?)
    ensures Shaped(s, step, s.ready[p], Apply(s, step).ready[p], stay, tail)
  {
    hide Inv, Shaped, Wake;
    match step
    case DoUnblockTask(t, code) =>
      if s.info[t].state == Blocked {
        stay, tail := WakeShape(s, step, {t}, Answer(code), p);
      } else {
        stay, tail := ShapeSame(s, step, s.ready[p]);
      }
    case DoUnblockOne(reason, obj, code) =>
      match Best(s.info, s.blocked, reason, obj) {
        case Some(b) => stay, tail := WakeShape(s, step, {b}, Answer(code), p);
        case None => stay, tail := ShapeSame(s, step, s.ready[p]);
      }
    case DoUnblockAll(reason, obj, code) =>
      if Waiters(s, reason, obj) != {} {
        stay, tail := WakeShape(s, step, Waiters(s, reason, obj), Answer(code), p);
      } else {
        stay, tail := ShapeSame(s, step, s.ready[p]);
      }
  }

  lemma RankShape(s: State, t: Id, to: Prio, p: Prio) returns (stay: set<Id>, tail: seq<Id>)
    requires Inv(s) && t in s.info
    ensures Shaped(s, DoSetPriority(t, to), s.ready[p], SetPriority(s, t, to).ready[p], stay, tail)
  {
    var step, q, from := DoSetPriority(t, to), s.ready[p], s.info[t].priority;
    assert ListOk(s, p);
    hide Inv, Shaped, Keep, Drop, Preempt;
    if !s.info[t].Runnable() || (p != from && p != to) {
      stay, tail := ShapeSame(s, step, q);
    } else if p == from && p == to {
      stay, tail := ShapeRequeued(s, step, q, t);
    } else if p == from {
      stay, tail := ShapeDropped(s, step, q, t);
    } else {
      stay, tail := ShapeAdded(s, step, q, [t]);
    }
  }

  lemma YieldShape(s: State, p: Prio) returns (stay: set<Id>, tail: seq<Id>)
    requires Sane(s) && ListOk(s, p)
    ensures Shaped(s, DoYield, s.ready[p], Yield(s).ready[p], stay, tail)
  {
    hide Shaped;
    var q := s.ready[p];
    if s.current.Some? && s.locks == 0 && s.info[s.current.value].priority == p && |q| > 1 && q[0] == s.current.value {
      assert q + [] == q;
      stay, tail := ShapeRotated(s, DoYield, q, []);
    } else {
      stay, tail := ShapeSame(s, DoYield, q);
    }
  }

  lemma SimpleShape(s: State, step: Step, p: Prio) returns (stay: set<Id>, tail: seq<Id>)
    requires Inv(s) && Enabled(s, step) && Simple(step) && !step.DoSetPriority?
    ensures Shaped(s, step, s.ready[p], Apply(s, step).ready[p], stay, tail)
  {
    var q := s.ready[p];
    assert ListOk(s, p);
    hide Inv, Shaped, Keep, Drop, Preempt, Highest;
    match step
    case DoCreate(t, to) =>
      if to == p {
        stay, tail := ShapeAdded(s, step, q, [t]);
      } else {
        stay, tail := ShapeSame(s, step, q);
      }
    case DoAdd(t) =>
      if s.info[t].priority == p {
        stay, tail := ShapeAdded(s, step, q, [t]);
      } else {
        stay, tail := ShapeSame(s, step, q);
      }
    case DoRetire(t, _) =>
      if s.info[t].priority == p {
        stay, tail := ShapeDropped(s, step, q, t);
      } else {
        stay, tail := ShapeSame(s, step, q);
      }
    case DoBlock(_, _, _) =>
      if s.current.Some? && s.info[s.current.value].priority == p {
        stay, tail := ShapeDropped(s, step, q, s.current.value);
      } else {
        stay, tail := ShapeSame(s, step, q);
      }
    case DoYield => stay, tail := YieldShape(s, p);
    case _ => stay, tail := ShapeSame(s, step, q);
  }

  /** Every step: what stays keeps its order, and what joins, joins behind. */
  lemma StepShape(s: State, step: Step, p: Prio) returns (stay: set<Id>, tail: seq<Id>)
    requires Inv(s) && Enabled(s, step)
    ensures Shaped(s, step, s.ready[p], Next(s, step).ready[p], stay, tail)
  {
    hide Shaped, Inv;
    if step.DoTick? {
      stay, tail := TickShape(s, p);
    } else if step.DoSetPriority? {
      stay, tail := RankShape(s, step.task, step.priority, p);
    } else if Simple(step) {
      stay, tail := SimpleShape(s, step, p);
    } else {
      stay, tail := WakersShape(s, step, p);
    }
  }

  // ---- No overtaking ----

  /** b is behind a, or not in the list. */
  predicate Behind(q: seq<Id>, a: Id, b: Id) {
    b in q ==> Before(q, a, b)
  }

  /** A waits in list p through the step: it is there before and after, and is not moved. */
  ghost predicate Stays(s: State, step: Step, p: Prio, a: Id)
    requires Inv(s) && Enabled(s, step)
  {
    a in s.ready[p] && a in Next(s, step).ready[p] && !Moves(s, step, a)
  }

  lemma StepBehind(s: State, step: Step, p: Prio, a: Id, b: Id)
    requires Inv(s) && Enabled(s, step) && Stays(s, step, p, a) && a != b && Behind(s.ready[p], a, b)
    ensures Behind(Next(s, step).ready[p], a, b)
  {
    var stay, tail := StepShape(s, step, p);
    var q, r := s.ready[p], Next(s, step).ready[p];
    hide Inv, Next, Enabled, Before;
    Members(q, stay);
    if b in r {
      if b in tail {
        BeforeAcross(Keep(q, stay), tail, a, b);
      } else {
        KeepOrder(q, stay, a, b);
        BeforeLeft(Keep(q, stay), tail, a, b);
      }
    }
  }

  ghost predicate StaysThrough(s: State, steps: seq<Step>, p: Prio, a: Id)
    requires Inv(s) && Run(s, steps)
    decreases |steps|
  {
    steps == [] || (Stays(s, steps[0], p, a) && StaysThrough(Next(s, steps[0]), steps[1..], p, a))
  }

  /**
   * While a task waits in its ready list, nobody that was behind it, and nobody that became
   * ready later, gets in front of it.
   */
  lemma {:induction false} NoOvertaking(s: State, steps: seq<Step>, p: Prio, a: Id, b: Id)
    requires Inv(s) && Run(s, steps) && StaysThrough(s, steps, p, a)
    requires a != b && Behind(s.ready[p], a, b)
    ensures Behind(After(s, steps).ready[p], a, b)
    decreases |steps|
  {
    hide Inv, Next, Enabled, Stays, Behind;
    if steps != [] {
      StepBehind(s, steps[0], p, a, b);
      NoOvertaking(Next(s, steps[0]), steps[1..], p, a, b);
    }
  }

  // ---- The blocked list ----

  /** The tasks that are blocked. */
  ghost function BlockedNow(s: State): set<Id> {
    set t | t in s.info && s.info[t].state == Blocked
  }

  lemma BlockedKept(s: State, r: State, w: set<Id>)
    requires Inv(s) && Inv(r) && r.blocked == Drop(s.blocked, w)
    ensures r.blocked == Keep(s.blocked, BlockedNow(r))
  {
    Members(s.blocked, w);
    DropIsKeep(s.blocked, w, BlockedNow(r));
  }

  /** A step that is neither a block nor a wake-up does not touch the blocked list. */
  lemma Untouched(s: State, step: Step)
    requires Inv(s) && Enabled(s, step) && !(step.DoBlock? && s.current.Some?)
    requires !step.DoTick? && !step.DoUnblockTask? && !step.DoUnblockOne? && !step.DoUnblockAll?
    ensures Next(s, step).blocked == s.blocked
  {
    assert Sane(s) && Next(s, step) == Apply(s, step);
    hide Inv, Next, Highest, Drop;
  }

  /** The wake-ups only take tasks off it. */
  lemma WokenOff(s: State, step: Step) returns (w: set<Id>)
    requires Inv(s) && Enabled(s, step) && (step.DoUnblockTask? || step.DoUnblockOne? || step.DoUnblockAll?)
    ensures Next(s, step).blocked == Drop(s.blocked, w)
  {
    assert Sane(s) && Next(s, step) == Apply(s, step);
    hide Inv, Next, Keep, Drop, Best, Waiters, WithPriority;
    SelectNone(s.blocked, {});
    w := {};
    if step.DoUnblockTask? {
      w := if s.info[step.task].state == Blocked then {step.task} else {};
    } else if step.DoUnblockOne? {
      var b := Best(s.info, s.blocked, step.reason, step.obj);
      w := if b.Some? then {b.value} else {};
    } else {
      w := Waiters(s, step.reason, step.obj);
    }
  }

  /** Steps other than a block only take tasks off the blocked list. */
  lemma Dropped(s: State, step: Step) returns (w: set<Id>)
    requires Inv(s) && Enabled(s, step) && !(step.DoBlock? && s.current.Some?)
    ensures Next(s, step).blocked == Drop(s.blocked, w)
  {
    if step.DoTick? {
      assert Next(s, step) == Tick(s);
      hide Inv, Next, Enabled, Drop, Tick;
      TickLists(s, 0);
      w := DueNext(s);
    } else if step.DoUnblockTask? || step.DoUnblockOne? || step.DoUnblockAll? {
      w := WokenOff(s, step);
    } else {
      Untouched(s, step);
      SelectNone(s.blocked, {});
      w := {};
    }
  }

  lemma BlockFronts(s: State, reason: Reason, obj: nat, timeout: U32)
    requires Inv(s) && Enabled(s, DoBlock(reason, obj, timeout)) && s.current.Some?
    ensures Next(s, DoBlock(reason, obj, timeout)).blocked == [s.current.value] + s.blocked
    ensures s.current.value !in s.blocked
  {
    hide Drop;
  }

  /** Who blocks goes to the front of the blocked list; all who stay blocked keep their order. */
  lemma StepBlockedOrder(s: State, step: Step)
    requires Inv(s) && Enabled(s, step)
    ensures var r := Next(s, step);
            r.blocked ==
            (if step.DoBlock? && s.current.Some? then [s.current.value] else []) + Keep(s.blocked, BlockedNow(r))
  {
    var r := Next(s, step);
    if step.DoBlock? && s.current.Some? {
      BlockFronts(s, step.reason, step.obj, step.timeout);
      StaysBlocked(s, r);
      hide Inv, Next;
      DropIsKeep(s.blocked, {}, BlockedNow(r));
      SelectNone(s.blocked, {});
    } else {
      var w := Dropped(s, step);
      hide Inv, Next, Enabled;
      BlockedKept(s, r, w);
    }
  }

  lemma StaysBlocked(s: State, r: State)
    requires Inv(r) && r.blocked != [] && s.blocked == r.blocked[1..]
    ensures forall t :: t in s.blocked ==> t in BlockedNow(r)
  {
    forall t | t in s.blocked
      ensures t in r.blocked
    {
    }
  }
}
