/**
 * Exact timed waits over runs: how many ticks a blocked task sleeps when nobody wakes it
 * explicitly, with the 32-bit tick counter wrapping as it does.
 */
module TimedWake {
  import opened Types
  import opened SchedSpec
  import opened SchedInv
  import opened SchedRuns
  import opened TaskLaws
  import W = Words

  /** The task is blocked with a deadline that the tick checks. */
  predicate Timed(a: Task) {
    a.state == Blocked && (a.reason == Delay || (a.timeout != TIMEOUT_NONE && a.timeout != TIMEOUT_FOREVER))
  }

  /** The number of ticks, from clock value tick on, up to the first that finds wakeTick reached. */
  function Left(tick: U32, wakeTick: U32): (k: nat)
    ensures k >= 1
  {
    if tick == TWO32 - 1 then wakeTick + 1
    else if wakeTick <= tick + 1 then 1
    else wakeTick - tick
  }

  /** Left is what the tick handler's comparison makes it: one less each tick, due at the first tick when 1. */
  lemma LeftCounts(a: Task, tick: U32)
    requires Timed(a)
    ensures Due(a, (tick + 1) % TWO32) <==> Left(tick, a.wakeTick) == 1
    ensures Left(tick, a.wakeTick) > 1 ==> Left((tick + 1) % TWO32, a.wakeTick) == Left(tick, a.wakeTick) - 1
  {
  }

  function TicksIn(steps: seq<Step>): nat {
    if steps == [] then 0 else (if steps[0] == DoTick then 1 else 0) + TicksIn(steps[1..])
  }

  /** Nobody but the tick wakes t along the run. */
  ghost predicate Undisturbed(s: State, steps: seq<Step>, t: Id)
    requires Inv(s) && Run(s, steps)
    decreases |steps|
  {
    steps == [] || (
      && (t in s.info && !steps[0].DoTick? ==> Fate(s, steps[0], t).None?)
      && Undisturbed(Next(s, steps[0]), steps[1..], t))
  }

  lemma FateOfTick(s: State, t: Id)
    requires t in s.info
    ensures Fate(s, DoTick, t) == if Due(s.info[t], (s.tick + 1) % TWO32) then Some(Expired) else None
  {
  }

  lemma StepSleeps(s: State, step: Step, t: Id)
    requires Inv(s) && Enabled(s, step) && t in s.info && Timed(s.info[t])
    requires step == DoTick || Fate(s, step, t).None?
    ensures var a, r, n := s.info[t], Next(s, step), Left(s.tick, s.info[t].wakeTick);
            && t in r.info
            && (step != DoTick ==> Core(r.info[t]) == Core(a) && r.tick == s.tick)
            && (step == DoTick && n > 1 ==> Core(r.info[t]) == Core(a) && Left(r.tick, a.wakeTick) == n - 1)
            && (step == DoTick && n == 1 ==> Core(r.info[t]) == Core(Woken(a, Expired)))
  {
    hide Next, Inv, Enabled, Left, Due, Fate;
    StepCore(s, step, t);
    StepClock(s, step);
    LeftCounts(s.info[t], s.tick);
    FateOfTick(s, t);
  }

  /** Before its last tick the sleeper's wait is exactly what it was when it blocked. */
  lemma {:induction false} StaysBlocked(s: State, steps: seq<Step>, t: Id)
    requires Inv(s) && Run(s, steps) && Undisturbed(s, steps, t)
    requires t in s.info && Timed(s.info[t])
    requires TicksIn(steps) < Left(s.tick, s.info[t].wakeTick)
    ensures var a, r := s.info[t], After(s, steps);
            && t in r.info && Core(r.info[t]) == Core(a) && Timed(r.info[t])
            && Left(r.tick, a.wakeTick) == Left(s.tick, a.wakeTick) - TicksIn(steps)
    decreases |steps|
  {
    hide Inv, Enabled, Left;
    if steps != [] {
      StepSleeps(s, steps[0], t);
      StaysBlocked(Next(s, steps[0]), steps[1..], t);
    }
  }

  /** How the sleeper comes back: runnable, with a timeout error unless it was a delay. */
  ghost predicate TimedOut(a: Task, b: Task) {
    && b.Runnable()
    && b.result == (if a.reason == Delay then a.result else ErrTimeout)
    && b.reason == NoReason && b.obj == NO_OBJECT && b.timeout == 0
  }

  /**
   * A task with a deadline, left alone, sleeps through exactly Left - 1 ticks and is woken
   * by the next, whatever else runs in between.
   */
  lemma ExactWake(s: State, steps: seq<Step>, t: Id)
    requires Inv(s) && Run(s, steps + [DoTick]) && Undisturbed(s, steps + [DoTick], t)
    requires t in s.info && Timed(s.info[t])
    requires TicksIn(steps) == Left(s.tick, s.info[t].wakeTick) - 1
    ensures Run(s, steps) && t in After(s, steps).info && After(s, steps).info[t].state == Blocked
    ensures var r := After(s, steps + [DoTick]);
            && t in r.info && TimedOut(s.info[t], r.info[t])
            && t in r.ready[r.info[t].priority] && t !in r.blocked
  {
    var a := s.info[t];
    RunConcat(s, steps, [DoTick]);
    UndisturbedPrefix(s, steps, [DoTick], t);
    StaysBlocked(s, steps, t);
    var m := After(s, steps);
    var r := Next(m, DoTick);
    StepSleeps(m, DoTick, t);
    assert After(m, [DoTick]) == r by {
      hide Inv, Next;
      assert [DoTick][1..] == [];
    }
    assert Core(r.info[t]) == Core(Woken(m.info[t], Expired));
    Runs(r, t);
  }

  lemma {:induction false} UndisturbedPrefix(s: State, a: seq<Step>, b: seq<Step>, t: Id)
    requires Inv(s) && Run(s, a + b) && Undisturbed(s, a + b, t)
    ensures Run(s, a) && Undisturbed(s, a, t)
    decreases |a|
  {
    hide Apply, Enabled, Inv;
    if a != [] {
      assert (a + b)[0] == a[0] && (a + b)[1..] == a[1..] + b;
      UndisturbedPrefix(Next(s, a[0]), a[1..], b, t);
    }
  }

  /**
   * Blocking for n ticks at clock value T lasts exactly n ticks iff T + n does not pass
   * the end of the counter or T is its last value; otherwise it lasts one tick, and so does
   * a delay of 0.
   */
  lemma TimeoutTicks(tick: U32, n: U32)
    requires n != TIMEOUT_FOREVER
    ensures Left(tick, WakeTick(tick, n)) == if n > 0 && (tick + n < TWO32 || tick == TWO32 - 1) then n else 1
  {
  }

  /** A delay of TIMEOUT_FOREVER is cut short at the counter's last value. */
  lemma LongestDelay(tick: U32)
    ensures Left(tick, WakeTick(tick, TIMEOUT_FOREVER)) ==
            if tick == TWO32 - 1 then TWO32 else if tick == TWO32 - 2 then 1 else TIMEOUT_FOREVER - tick
  {
  }

  /** The whole wait, from the block on: no earlier and no later than n ticks. */
  lemma BlockLasts(s: State, reason: Reason, obj: nat, n: U32, steps: seq<Step>)
    requires Inv(s) && s.current.Some? && n != TIMEOUT_NONE && n != TIMEOUT_FOREVER
    requires Enabled(s, DoBlock(reason, obj, n))
    requires s.tick + n < TWO32 || s.tick == TWO32 - 1
    requires var b := Next(s, DoBlock(reason, obj, n));
             Run(b, steps + [DoTick]) && Undisturbed(b, steps + [DoTick], s.current.value) && TicksIn(steps) == n - 1
    ensures var c, b := s.current.value, Next(s, DoBlock(reason, obj, n));
            && Run(b, steps) && c in After(b, steps).info && After(b, steps).info[c].state == Blocked
            && c in After(b, steps + [DoTick]).info
            && After(b, steps + [DoTick]).info[c].Runnable()
            && After(b, steps + [DoTick]).info[c].result == if reason == Delay then Ok else ErrTimeout
  {
    var c, b := s.current.value, Next(s, DoBlock(reason, obj, n));
    StepCore(s, DoBlock(reason, obj, n), c);
    StepClock(s, DoBlock(reason, obj, n));
    TimeoutTicks(s.tick, n);
    assert Timed(b.info[c]);
    ExactWake(b, steps, c);
  }

  /** Without a deadline nothing but an explicit wake-up ends a wait. */
  lemma {:induction false} ForeverStays(s: State, steps: seq<Step>, t: Id)
    requires Inv(s) && Run(s, steps) && Undisturbed(s, steps, t)
    requires t in s.info && s.info[t].state == Blocked && !Timed(s.info[t])
    ensures t in After(s, steps).info && Core(After(s, steps).info[t]) == Core(s.info[t])
    decreases |steps|
  {
    if steps != [] {
      StepCore(s, steps[0], t);
      hide Inv, Enabled, Apply;
      ForeverStays(Next(s, steps[0]), steps[1..], t);
    }
  }

  /** t neither blocks again nor has its control block reused along the run. */
  ghost predicate NotReused(s: State, steps: seq<Step>, t: Id)
    requires Inv(s) && Run(s, steps)
    decreases |steps|
  {
    steps == [] || (
      && !(steps[0].DoBlock? && s.current == Some(t))
      && !(steps[0].DoCreate? && steps[0].task == t)
      && NotReused(Next(s, steps[0]), steps[1..], t))
  }

  /** Once woken, a task keeps its result until it blocks again. */
  lemma {:induction false} ResultKept(s: State, steps: seq<Step>, t: Id)
    requires Inv(s) && Run(s, steps) && NotReused(s, steps, t)
    requires t in s.info && s.info[t].state != Blocked
    ensures t in After(s, steps).info && After(s, steps).info[t].state != Blocked
    ensures After(s, steps).info[t].result == s.info[t].result
    decreases |steps|
  {
    hide Inv, Enabled, Next;
    if steps != [] {
      StepResult(s, steps[0], t);
      ResultKept(Next(s, steps[0]), steps[1..], t);
    }
  }

  lemma StepResult(s: State, step: Step, t: Id)
    requires Inv(s) && Enabled(s, step) && t in s.info && s.info[t].state != Blocked
    requires !(step.DoBlock? && s.current == Some(t)) && !(step.DoCreate? && step.task == t)
    ensures var r := Next(s, step);
            t in r.info && r.info[t].state != Blocked && r.info[t].result == s.info[t].result
  {
    hide Inv, Next;
    StepCore(s, step, t);
  }

  // ---- One wake-up for each block ----

  ghost predicate IsBlocked(s: State, t: Id) {
    t in s.info && s.info[t].state == Blocked
  }

  predicate Blocks(s: State, step: Step, t: Id) {
    step.DoBlock? && s.current == Some(t)
  }

  /** How often t blocks along a run, and how often a step wakes it. */
  ghost function BlockCount(s: State, steps: seq<Step>, t: Id): nat
    requires Inv(s) && Run(s, steps)
    decreases |steps|
  {
    if steps == [] then 0
    else W.Low(Blocks(s, steps[0], t)) + BlockCount(Next(s, steps[0]), steps[1..], t)
  }

  ghost function WakeCount(s: State, steps: seq<Step>, t: Id): nat
    requires Inv(s) && Run(s, steps)
    decreases |steps|
  {
    if steps == [] then 0
    else W.Low(IsBlocked(s, t) && Fate(s, steps[0], t).Some?) + WakeCount(Next(s, steps[0]), steps[1..], t)
  }

  lemma StepBlocked(s: State, step: Step, t: Id)
    requires Inv(s) && Enabled(s, step) && t in s.info
    ensures t in Next(s, step).info
    ensures IsBlocked(Next(s, step), t) <==> (IsBlocked(s, t) && Fate(s, step, t).None?) || Blocks(s, step, t)
    ensures Blocks(s, step, t) ==> !IsBlocked(s, t)
  {
    StepCore(s, step, t);
    hide Inv, Next;
  }

  /** Over any run each block of a task is answered by one wake-up, but for the wait it may end in. */
  lemma {:induction false} OneWakeEach(s: State, steps: seq<Step>, t: Id)
    requires Inv(s) && Run(s, steps) && t in s.info
    ensures BlockCount(s, steps, t) + W.Low(IsBlocked(s, t)) ==
            WakeCount(s, steps, t) + W.Low(IsBlocked(After(s, steps), t))
    decreases |steps|
  {
    hide Inv, Enabled, Next, IsBlocked, Blocks, Fate;
    if steps != [] {
      StepBlocked(s, steps[0], t);
      assert t in s.info;
      OneWakeEach(Next(s, steps[0]), steps[1..], t);
    }
  }

  // ---- Deadlines lie ahead ----

  /** Every deadline of a blocked task lies ahead of the clock. */
  ghost predicate Ahead(s: State) {
    forall t :: t in s.info && Timed(s.info[t]) ==> s.info[t].wakeTick > s.tick
  }

  /** The step blocks the current task with a deadline that wraps behind the clock. */
  predicate Wraps(s: State, step: Step) {
    match step
    case DoBlock(reason, obj, timeout) =>
      && s.current.Some?
      && (reason == Delay || (timeout != TIMEOUT_NONE && timeout != TIMEOUT_FOREVER))
      && (if timeout == TIMEOUT_NONE || timeout == TIMEOUT_FOREVER then s.tick == TWO32 - 1
          else s.tick + timeout >= TWO32)
    case _ => false
  }

  /** Where a deadline comes from: it was there before and is not due, or this step set it. */
  lemma DeadlineSource(s: State, step: Step, t: Id)
    requires Inv(s) && Enabled(s, step) && t in Next(s, step).info && Timed(Next(s, step).info[t])
    ensures t in s.info
    ensures if step.DoBlock? && s.current == Some(t) then
              Core(Next(s, step).info[t]) == Core(Waiting(s.info[t], step.reason, step.obj, step.timeout, s.tick))
            else
              && Core(Next(s, step).info[t]) == Core(s.info[t])
              && (step == DoTick ==> !Due(s.info[t], (s.tick + 1) % TWO32))
  {
    hide Inv, Next, Due, CoreAfter, Fate, Enabled, WakeTick;
    if t in s.info {
      StepCore(s, step, t);
      BlockedAfter(s, step, t);
      FateOfTick(s, t);
    } else {
      Newcomer(s, step, t);
    }
  }

  /** Only a wrapping block leaves a deadline behind the clock; the next tick clears it. */
  lemma StepAhead(s: State, step: Step)
    requires Inv(s) && Enabled(s, step)
    ensures step == DoTick ==> Ahead(Next(s, step))
    ensures Ahead(s) ==> (Ahead(Next(s, step)) <==> !Wraps(s, step))
  {
    var r := Next(s, step);
    StepClock(s, step);
    forall t | t in r.info && Timed(r.info[t])
      ensures step == DoTick || (Ahead(s) && !Wraps(s, step)) ==> r.info[t].wakeTick > r.tick
    {
      DeadlineSource(s, step, t);
      hide Inv, Enabled, Next;
    }
    if Wraps(s, step) {
      var c := s.current.value;
      StepCore(s, step, c);
      hide Inv, Enabled, Next;
      assert Timed(r.info[c]) && r.info[c].wakeTick <= r.tick;
    }
  }

  ghost predicate NeverWraps(s: State, steps: seq<Step>)
    requires Inv(s) && Run(s, steps)
    decreases |steps|
  {
    steps == [] || (!Wraps(s, steps[0]) && NeverWraps(Next(s, steps[0]), steps[1..]))
  }

  lemma {:induction false} RunAhead(s: State, steps: seq<Step>)
    requires Inv(s) && Run(s, steps) && NeverWraps(s, steps) && Ahead(s)
    ensures Ahead(After(s, steps))
    decreases |steps|
  {
    hide Inv, Enabled, Next, Ahead, Wraps;
    if steps != [] {
      StepAhead(s, steps[0]);
      RunAhead(Next(s, steps[0]), steps[1..]);
    }
  }

  /**
   * Over whole runs: from scheduler_init on no deadline falls behind the clock as long as no
   * block wraps; and after any history at all, one tick and no wrapping block do as well.
   */
  lemma DeadlinesAhead(history: seq<Step>, more: seq<Step>)
    requires KernelRun(history)
    ensures NeverWraps(Initial(), history) ==> Ahead(Reached(history))
    ensures Run(Next(Reached(history), DoTick), more) && NeverWraps(Next(Reached(history), DoTick), more) ==>
              Ahead(After(Next(Reached(history), DoTick), more))
  {
    var s := Reached(history);
    assert Ahead(Initial());
    hide Inv, Next, Ahead;
    if NeverWraps(Initial(), history) {
      RunAhead(Initial(), history);
    }
    StepAhead(s, DoTick);
    if Run(Next(s, DoTick), more) && NeverWraps(Next(s, DoTick), more) {
      RunAhead(Next(s, DoTick), more);
    }
  }

  // ---- A task that does not wait ----

  /** A task that is not blocked waits for nothing. */
  predicate AtRest(a: Task) {
    a.state != Blocked ==> a.reason == NoReason && a.obj == NO_OBJECT && a.timeout == TIMEOUT_NONE
  }

  ghost predicate AllAtRest(s: State) {
    forall t {:trigger AtRest(s.info[t])} :: t in s.info ==> AtRest(s.info[t])
  }

  lemma RestAfter(s: State, step: Step, t: Id)
    requires Inv(s) && Enabled(s, step) && t in Next(s, step).info && (t in s.info ==> AtRest(s.info[t]))
    ensures AtRest(Next(s, step).info[t])
  {
    hide Inv, Next, Fate, WakeTick;
    if t in s.info {
      StepCore(s, step, t);
    } else {
      Newcomer(s, step, t);
    }
  }

  lemma StepAtRest(s: State, step: Step)
    requires Inv(s) && Enabled(s, step) && AllAtRest(s)
    ensures AllAtRest(Next(s, step))
  {
    var r := Next(s, step);
    hide Inv, Next, Enabled, AtRest;
    forall t | t in r.info
      ensures AtRest(r.info[t])
    {
      assert t in s.info ==> AtRest(s.info[t]);
      RestAfter(s, step, t);
    }
  }

  lemma {:induction false} RunAtRest(s: State, steps: seq<Step>)
    requires Inv(s) && Run(s, steps) && AllAtRest(s)
    ensures AllAtRest(After(s, steps))
    decreases |steps|
  {
    hide Inv, Enabled, Next, AllAtRest;
    if steps != [] {
      StepAtRest(s, steps[0]);
      RunAtRest(Next(s, steps[0]), steps[1..]);
    }
  }

  /** In every reachable state whoever does not wait is filed under no reason, object or timeout. */
  lemma WaitsForgotten(steps: seq<Step>, t: Id)
    requires KernelRun(steps) && t in Reached(steps).info && Reached(steps).info[t].state != Blocked
    ensures var a := Reached(steps).info[t];
            a.reason == NoReason && a.obj == NO_OBJECT && a.timeout == TIMEOUT_NONE
  {
    RunAtRest(Initial(), steps);
    assert AtRest(Reached(steps).info[t]);
    hide Inv;
  }
}
