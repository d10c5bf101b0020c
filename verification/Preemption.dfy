/**
 * No missed preemption: whenever a ready task outranks the current one, a switch is
 * pending. One kind of step can break this, a step that lowers the current task's own
 * priority, and the next tick repairs it.
 */
module Preemption {
  import opened Types
  import opened Seqs
  import opened SchedSpec
  import opened SchedInv
  import opened SchedRuns
  import opened TaskLaws

  /** The runnable task t has a higher priority than the current task. */
  ghost predicate Outranks(s: State, t: Id)
    requires Sane(s)
  {
    s.current.Some? && t in s.info && s.info[t].Runnable() && s.info[t].priority < s.info[s.current.value].priority
  }

  ghost predicate NoGap(s: State)
    requires Sane(s)
  {
    (exists t :: Outranks(s, t)) ==> s.pending
  }

  /** The step gives the current task a numerically larger, so lower, priority. */
  predicate Lowers(s: State, step: Step)
    requires Sane(s)
  {
    s.current.Some? && PriorityAfter(s, step, s.current.value) > s.info[s.current.value].priority
  }

  lemma HighestBounds(s: State, t: Id)
    requires Inv(s) && t in s.info && s.info[t].Runnable()
    ensures Highest(s) <= s.info[t].priority
  {
    Runs(s, t);
  }

  /** A tick leaves no gap, whatever it starts from. */
  lemma TickNoGap(s: State)
    requires Inv(s)
    ensures Inv(Tick(s)) && NoGap(Tick(s))
  {
    TickInv(s);
    var r := Tick(s);
    forall t | Outranks(r, t)
      ensures r.pending
    {
      HighestBounds(r, t);
      assert Highest(r) == Highest(ChargeSlice(Expire(s)));
    }
  }

  /** Right after a switch nothing outranks the current task. */
  lemma SwitchNoGap(s: State)
    requires Inv(s)
    ensures Inv(PendSV(s)) && Inv(Start(s)) && (forall t :: !Outranks(PendSV(s), t))
    ensures GetNext(s).Some? ==> forall t :: !Outranks(Start(s), t)
  {
    PendSVInv(s);
    StartInv(s);
    if GetNext(s).Some? {
      NextKnown(s);
      forall t | t in s.info && s.info[t].Runnable()
        ensures Highest(s) <= s.info[t].priority
      {
        HighestBounds(s, t);
      }
    }
  }

  lemma WakeKeeps(s: State, w: set<Id>, how: Wakeup)
    ensures Wake(s, w, how).current == s.current && Wake(s, w, how).pending == s.pending
  {
    hide Keep, Drop, WithPriority;
  }

  lemma TickKeeps(s: State)
    requires Sane(s)
    ensures Tick(s).current == s.current && (s.pending ==> Tick(s).pending)
  {
    var s1 := s.(tick := (s.tick + 1) % TWO32);
    hide Wake, DueSet, Highest, Rotate;
    WakeKeeps(s1, DueSet(s1), Expired);
  }

  lemma WakersKeep(s: State, step: Step)
    requires Sane(s) && Enabled(s, step) && !Simple(step) && !step.DoTick?
    ensures Apply(s, step).current == s.current && (s.pending ==> Apply(s, step).pending)
  {
    hide Inv, Wake, Best, Waiters;
    match step
    case DoUnblockTask(u, code) => WakeKeeps(s, {u}, Answer(code));
    case DoUnblockOne(reason, obj, code) =>
      var b := Best(s.info, s.blocked, reason, obj);
      if b.Some? {
        WakeKeeps(s, {b.value}, Answer(code));
      }
    case DoUnblockAll(reason, obj, code) => WakeKeeps(s, Waiters(s, reason, obj), Answer(code));
  }

  /** Other steps leave the current task alone, and withdraw no pending switch. */
  lemma StepCurrent(s: State, step: Step)
    requires Inv(s) && Enabled(s, step) && !step.DoSwitch? && !step.DoStart?
    ensures Next(s, step).current == s.current && (s.pending ==> Next(s, step).pending)
  {
    assert Sane(s);
    hide Inv, Tick, Drop, Rotate, UnblockTask, UnblockOne, UnblockAll;
    if step.DoTick? {
      TickKeeps(s);
    } else if !Simple(step) {
      WakersKeep(s, step);
    }
  }

  /** A task that becomes runnable, or rises, above the current one makes a switch pending. */
  lemma RiserPends(s: State, step: Step, t: Id)
    requires Inv(s) && Enabled(s, step) && !step.DoSwitch? && !step.DoStart? && !step.DoTick?
    requires !Lowers(s, step) && !Outranks(s, t) && Outranks(Next(s, step), t)
    ensures Next(s, step).pending
  {
    assert Sane(s) && Next(s, step) == Apply(s, step);
    hide Inv, Apply, Next, Best, Due;
    StepCurrent(s, step);
    if t in s.info {
      StepCore(s, step, t);
      StepPriority(s, step, t);
    }
    StepKeys(s, step);
    StepPriority(s, step, s.current.value);
    RiserCases(s, step, t);
  }

  /** The step concerns t directly: it creates, re-ranks, resumes or wakes it. */
  predicate Concerns(s: State, step: Step, t: Id) {
    match step
    case DoCreate(u, _) => u == t
    case DoSetPriority(u, _) => u == t && t in s.info && s.info[t].Runnable()
    case DoAdd(u) => u == t
    case _ => t in s.info && s.info[t].state == Blocked && Fate(s, step, t).Some?
  }

  /** A task added above the current one makes a switch pending. */
  lemma AddedPends(s: State, t: Id)
    requires Sane(s) && t in s.info && s.current.Some?
    ensures var r := AddTask(s, t);
            && t in r.info && r.current == s.current
            && (r.info[t].priority < r.info[s.current.value].priority ==> r.pending)
  {
  }

  lemma WokenPends(s: State, t: Id, code: Code)
    requires Sane(s) && t in s.info && s.current.Some?
    ensures var r := Preempt(Wake(s, {t}, Answer(code)), s.info[t].priority);
            && t in r.info && Sane(r) && r.current == s.current
            && (r.info[t].priority < r.info[s.current.value].priority ==> r.pending)
  {
    WakeRecord(s, {t}, Answer(code), t);
    WakeRecord(s, {t}, Answer(code), s.current.value);
    hide Wake;
  }

  lemma RiserCases(s: State, step: Step, t: Id)
    requires Inv(s) && Enabled(s, step) && !step.DoTick?
    requires Concerns(s, step, t) && s.current.Some?
    requires t in Apply(s, step).info
    requires s.current.value in Apply(s, step).info
    requires Apply(s, step).info[t].priority < Apply(s, step).info[s.current.value].priority
    ensures Apply(s, step).pending
  {
    assert Sane(s) && (t in s.info ==> (t in s.blocked <==> s.info[t].state == Blocked));
    hide Inv, Highest, Drop, Wake, Best, AddTask, Preempt;
    match step
    case DoCreate(u, p) => AddedPends(s.(info := s.info[t := NewTask(p)]), t);
    case DoSetPriority(u, p) =>
      var s1 := RemoveTask(s, t);
      AddedPends(s1.(info := s1.info[t := s1.info[t].(priority := p)]), t);
    case DoAdd(u) => AddedPends(s, t);
    case DoUnblockTask(u, code) => WokenPends(s, t, code);
    case DoUnblockOne(reason, obj, code) => WokenPends(s, t, code);
    case DoUnblockAll(reason, obj, code) => assert t in Waiters(s, reason, obj);
    case _ =>
  }

  /** Every step but a lowering of the current task keeps the property. */
  lemma StepNoGap(s: State, step: Step)
    requires Inv(s) && Enabled(s, step) && NoGap(s) && !Lowers(s, step)
    ensures NoGap(Next(s, step))
  {
    if step.DoTick? {
      TickNoGap(s);
    } else if step.DoSwitch? || step.DoStart? {
      SwitchNoGap(s);
    } else {
      StepCurrent(s, step);
      var r := Next(s, step);
      forall t | Outranks(r, t)
        ensures r.pending
      {
        hide Inv, Next, Lowers, Apply, Enabled;
        if !Outranks(s, t) {
          RiserPends(s, step, t);
        }
      }
    }
  }

  /** No step of the run lowers the task that is current when it is taken. */
  ghost predicate NeverLowers(s: State, steps: seq<Step>)
    requires Inv(s) && Run(s, steps)
    decreases |steps|
  {
    steps == [] || (!Lowers(s, steps[0]) && NeverLowers(Next(s, steps[0]), steps[1..]))
  }

  lemma {:induction false} RunNoGap(s: State, steps: seq<Step>)
    requires Inv(s) && Run(s, steps) && NeverLowers(s, steps) && NoGap(s)
    ensures NoGap(After(s, steps))
    decreases |steps|
  {
    hide Inv, Enabled, Next, NoGap, Lowers;
    if steps != [] {
      StepNoGap(s, steps[0]);
      RunNoGap(Next(s, steps[0]), steps[1..]);
    }
  }

  /**
   * Over whole runs: after any history at all, one tick closes the gap, and it stays
   * closed for as long as nobody lowers the current task.
   */
  lemma GapEndsAtTick(history: seq<Step>, more: seq<Step>)
    requires KernelRun(history) && Run(Next(Reached(history), DoTick), more)
    requires NeverLowers(Next(Reached(history), DoTick), more)
    ensures NoGap(After(Next(Reached(history), DoTick), more))
  {
    TickNoGap(Reached(history));
    RunNoGap(Next(Reached(history), DoTick), more);
  }

  /**
   * The steps that can open a gap: a set-priority of the current task to a lower priority p,
   * or its creation anew at such a priority, which is possible once it has been suspended or
   * deleted and not yet switched out. With no switch pending a gap opens exactly when another
   * task is runnable at a priority better than p.
   */
  lemma LoweringGap(s: State, step: Step)
    requires Inv(s) && Enabled(s, step) && NoGap(s) && !s.pending && Lowers(s, step)
    ensures step.DoSetPriority? || step.DoCreate?
    ensures var c, r := s.current.value, Next(s, step);
            && !r.pending && step.task == c
            && (NoGap(r) <==>
                !exists t :: t in s.info && t != c && s.info[t].Runnable() && s.info[t].priority < step.priority)
  {
    var c := s.current.value;
    var r := Next(s, step);
    StepKeys(s, step);
    StepPriority(s, step, c);
    forall t | t in s.info
      ensures t in r.info
      ensures Outranks(r, t) <==> t != c && s.info[t].Runnable() && s.info[t].priority < step.priority
    {
      StepCore(s, step, t);
      StepPriority(s, step, t);
    }
    StepCurrent(s, step);
    LoweringPends(s, step);
  }

  lemma LoweringPends(s: State, step: Step)
    requires Inv(s) && Enabled(s, step) && !s.pending && Lowers(s, step)
    ensures !Next(s, step).pending
  {
    hide Inv, Highest, Keep, Drop;
  }
}
