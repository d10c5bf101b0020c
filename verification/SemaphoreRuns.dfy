/** A counting semaphore together with the scheduler, over whole interleaved runs. */
module SemaphoreRuns {
  import opened Types
  import opened SchedSpec
  import opened SchedInv
  import opened SchedRuns
  import opened TaskLaws
  import opened Waiting

  const INT32_MAX: int := 0x7FFF_FFFF

  /** The handle, the initial count, and the limit; a limit that is not positive means none. */
  datatype Config = Config(obj: nat, initial: int, max: int)

  predicate Accepted(c: Config) {
    c.initial >= 0 && (c.max > 0 ==> c.initial <= c.max)
  }

  /**
   * Kernel state and count, with the history: takes, gives, and gives spent on waking a
   * waiter; and the interrupt handlers inside sem_give_isr: those that have woken nobody, those
   * of them that have passed the check of the limit, and what the others have read of the count
   * since, to write it back plus one.
   */
  datatype Sys = Sys(
    s: State, count: int, takes: nat, gives: nat, spent: nat,
    asked: set<nat>, passed: set<nat>, loads: map<nat, int>)

  /**
   * Take and Give are the test parts of sem_take and sem_give, by whoever calls. sem_give_isr
   * is four steps: the wake-up, which is a critical section, and outside of any the check of
   * the limit, which reads the count, a second read of it, and the write of that plus one.
   */
  datatype SStep =
    | Kernel(step: Step)
    | Take
    | Give
    | IsrWake(caller: nat)
    | IsrCheck(caller: nat)
    | IsrLoad(caller: nat)
    | IsrStore(caller: nat)

  predicate AtLimit(max: int, count: int) {
    max > 0 && count >= max
  }

  /** A give that adds a token must not overflow the 32-bit count. */
  predicate SEnabled(c: Config, q: Sys, step: SStep)
    requires Sane(q.s)
  {
    match step
    case Kernel(st) => Enabled(q.s, st)
    case Give => Chosen(q.s, Semaphore, c.obj).Some? || AtLimit(c.max, q.count) || q.count < INT32_MAX
    case IsrCheck(caller) => caller in q.asked
    case IsrLoad(caller) => caller in q.passed && q.count < INT32_MAX
    case IsrStore(caller) => caller in q.loads
    case _ => true
  }

  ghost function SNext(c: Config, q: Sys, step: SStep): (r: Sys)
    requires Inv(q.s) && SEnabled(c, q, step)
    ensures Inv(r.s)
  {
    UnblockOneInv(q.s, Semaphore, c.obj, Ok);
    match step
    case Kernel(st) => q.(s := Next(q.s, st))
    case Take => if q.count > 0 then q.(count := q.count - 1, takes := q.takes + 1) else q
    case Give =>
      if Chosen(q.s, Semaphore, c.obj).Some? then
        q.(s := UnblockOne(q.s, Semaphore, c.obj, Ok), gives := q.gives + 1, spent := q.spent + 1)
      else if AtLimit(c.max, q.count) then q
      else q.(count := q.count + 1, gives := q.gives + 1)
    case IsrWake(caller) =>
      if Chosen(q.s, Semaphore, c.obj).Some? then
        q.(s := UnblockOne(q.s, Semaphore, c.obj, Ok), gives := q.gives + 1, spent := q.spent + 1)
      else q.(asked := q.asked + {caller})
    case IsrCheck(caller) =>
      if AtLimit(c.max, q.count) then q.(asked := q.asked - {caller})
      else q.(asked := q.asked - {caller}, passed := q.passed + {caller})
    case IsrLoad(caller) => q.(passed := q.passed - {caller}, loads := q.loads[caller := q.count])
    case IsrStore(caller) =>
      q.(count := q.loads[caller] + 1, gives := q.gives + 1, loads := q.loads - {caller})
  }

  ghost predicate SRun(c: Config, q: Sys, steps: seq<SStep>)
    requires Inv(q.s)
    decreases |steps|
  {
    steps == [] || (SEnabled(c, q, steps[0]) && SRun(c, SNext(c, q, steps[0]), steps[1..]))
  }

  ghost function SAfter(c: Config, q: Sys, steps: seq<SStep>): (r: Sys)
    requires Inv(q.s) && SRun(c, q, steps)
    ensures Inv(r.s)
    decreases |steps|
  {
    if steps == [] then q else SAfter(c, SNext(c, q, steps[0]), steps[1..])
  }

  /** x is enabled in q and leads to r. */
  ghost predicate Leads(c: Config, q: Sys, x: SStep, r: Sys) {
    Inv(q.s) && SEnabled(c, q, x) && r == SNext(c, q, x)
  }

  /** The states that a run goes through. */
  lemma {:induction false} Trace(c: Config, steps: seq<SStep>, qs: seq<Sys>)
    requires |qs| == |steps| + 1 && Inv(qs[0].s)
    requires forall i :: 0 <= i < |steps| ==> Leads(c, qs[i], steps[i], qs[i + 1])
    ensures SRun(c, qs[0], steps) && SAfter(c, qs[0], steps) == qs[|steps|]
    decreases |steps|
  {
    hide Inv, SNext, SEnabled;
    if steps != [] {
      assert Leads(c, qs[0], steps[0], qs[1]);
      forall i | 0 <= i < |steps| - 1
        ensures Leads(c, qs[1..][i], steps[1..][i], qs[1..][i + 1])
      {
        assert Leads(c, qs[i + 1], steps[i + 1], qs[i + 2]);
      }
      Trace(c, steps[1..], qs[1..]);
    }
  }

  // ---- The ledger ----

  /** The tokens add up. */
  predicate Balanced(c: Config, q: Sys) {
    q.count + q.takes + q.spent == c.initial + q.gives
  }

  predicate CountOk(c: Config, count: int) {
    0 <= count <= INT32_MAX && (c.max > 0 ==> count <= c.max)
  }

  /** The count is within its limits, and so is what a handler is about to write. */
  ghost predicate Bounded(c: Config, q: Sys) {
    CountOk(c, q.count) && forall w :: w in q.loads ==> CountOk(c, q.loads[w] + 1) && q.loads[w] >= 0
  }

  /** A handler writes the count only when it is still what it has read. */
  predicate Steady(q: Sys, step: SStep) {
    match step
    case IsrStore(caller) => caller in q.loads && q.loads[caller] == q.count
    case _ => true
  }

  /** A handler that has passed the check of the limit still finds the count below it. */
  predicate Below(c: Config, q: Sys, step: SStep) {
    match step
    case IsrLoad(_) => !AtLimit(c.max, q.count)
    case _ => true
  }

  /** Only the write of sem_give_isr can lose count, and does exactly when the count has changed since its read. */
  lemma StepBalanced(c: Config, q: Sys, step: SStep)
    requires Inv(q.s) && SEnabled(c, q, step) && Balanced(c, q)
    ensures Balanced(c, SNext(c, q, step)) <==> Steady(q, step)
  {
    hide Inv, Next, UnblockOne, Chosen, Enabled;
  }

  /** Only the second read can break the limit, and does exactly when the count has reached it since the check. */
  lemma StepBounded(c: Config, q: Sys, step: SStep)
    requires Inv(q.s) && SEnabled(c, q, step) && Bounded(c, q)
    ensures Bounded(c, SNext(c, q, step)) <==> Below(c, q, step)
  {
    hide Inv, Next, UnblockOne, Chosen, Enabled;
    var r := SNext(c, q, step);
    if step.IsrLoad? {
      assert step.caller in r.loads && r.loads[step.caller] == q.count;
    }
  }

  /**
   * The write of sem_give_isr leaves the tokens balanced and the count within its limits
   * exactly when the count has not changed since the second read and was below the limit then.
   */
  lemma StoreLedger(c: Config, q: Sys, caller: nat)
    requires Inv(q.s) && SEnabled(c, q, IsrStore(caller)) && Balanced(c, q)
    requires 0 <= q.loads[caller] < INT32_MAX
    ensures var r := SNext(c, q, IsrStore(caller));
            Balanced(c, r) && CountOk(c, r.count) <==>
            q.loads[caller] == q.count && !AtLimit(c.max, q.loads[caller])
  {
    hide Inv;
  }

  ghost predicate SteadyRun(c: Config, q: Sys, steps: seq<SStep>)
    requires Inv(q.s) && SRun(c, q, steps)
    decreases |steps|
  {
    steps == [] || (Steady(q, steps[0]) && SteadyRun(c, SNext(c, q, steps[0]), steps[1..]))
  }

  ghost predicate BelowRun(c: Config, q: Sys, steps: seq<SStep>)
    requires Inv(q.s) && SRun(c, q, steps)
    decreases |steps|
  {
    steps == [] || (Below(c, q, steps[0]) && BelowRun(c, SNext(c, q, steps[0]), steps[1..]))
  }

  /** Every accepted token is still counted, was taken, or was spent on a wake-up. */
  lemma {:induction false} RunBalanced(c: Config, q: Sys, steps: seq<SStep>)
    requires Inv(q.s) && SRun(c, q, steps) && SteadyRun(c, q, steps) && Balanced(c, q)
    ensures Balanced(c, SAfter(c, q, steps))
    decreases |steps|
  {
    hide Inv, SNext, SEnabled, Balanced, Steady;
    if steps != [] {
      StepBalanced(c, q, steps[0]);
      RunBalanced(c, SNext(c, q, steps[0]), steps[1..]);
    }
  }

  /** The count stays within its limits, whether or not the writes are steady. */
  lemma {:induction false} RunBounded(c: Config, q: Sys, steps: seq<SStep>)
    requires Inv(q.s) && SRun(c, q, steps) && BelowRun(c, q, steps) && Bounded(c, q)
    ensures Bounded(c, SAfter(c, q, steps))
    decreases |steps|
  {
    hide Inv, SNext, SEnabled, Bounded, Below;
    if steps != [] {
      StepBounded(c, q, steps[0]);
      RunBounded(c, SNext(c, q, steps[0]), steps[1..]);
    }
  }

  ghost predicate NotNegative(q: Sys) {
    q.count >= 0 && forall w :: w in q.loads ==> q.loads[w] >= 0
  }

  lemma StepNotNegative(c: Config, q: Sys, step: SStep)
    requires Inv(q.s) && SEnabled(c, q, step) && NotNegative(q)
    ensures NotNegative(SNext(c, q, step))
  {
    hide Inv, Next, UnblockOne, Chosen, Enabled;
  }

  lemma {:induction false} RunNotNegative(c: Config, q: Sys, steps: seq<SStep>)
    requires Inv(q.s) && SRun(c, q, steps) && NotNegative(q)
    ensures NotNegative(SAfter(c, q, steps))
    decreases |steps|
  {
    hide Inv, SNext, SEnabled, NotNegative;
    if steps != [] {
      StepNotNegative(c, q, steps[0]);
      RunNotNegative(c, SNext(c, q, steps[0]), steps[1..]);
    }
  }

  ghost function Fresh(c: Config, s: State): Sys {
    Sys(s, c.initial, 0, 0, 0, {}, {}, map[])
  }

  /** From sem_init on: takes never exceed the tokens put in, less those spent on wake-ups. */
  lemma TakesBounded(c: Config, s: State, steps: seq<SStep>)
    requires Inv(s) && Accepted(c)
    requires SRun(c, Fresh(c, s), steps) && SteadyRun(c, Fresh(c, s), steps)
    ensures var r := SAfter(c, Fresh(c, s), steps);
            && r.takes + r.spent <= c.initial + r.gives
            && (r.takes + r.spent == c.initial + r.gives <==> r.count == 0)
  {
    hide Inv, SNext, SEnabled, SAfter, SRun, SteadyRun;
    RunBalanced(c, Fresh(c, s), steps);
    RunNotNegative(c, Fresh(c, s), steps);
  }

  predicate WithoutIsr(steps: seq<SStep>) {
    forall x :: x in steps ==> !x.IsrWake?
  }

  /** A handler is nowhere inside sem_give_isr. */
  predicate NoHandler(q: Sys) {
    q.asked == {} && q.passed == {} && q.loads == map[]
  }

  lemma {:induction false} GivesAreSafe(c: Config, q: Sys, steps: seq<SStep>)
    requires Inv(q.s) && SRun(c, q, steps) && WithoutIsr(steps) && NoHandler(q)
    ensures SteadyRun(c, q, steps) && BelowRun(c, q, steps)
    decreases |steps|
  {
    hide Inv, Next, UnblockOne, Chosen, Enabled;
    if steps != [] {
      assert steps[0] in steps && forall x :: x in steps[1..] ==> x in steps;
      GivesAreSafe(c, SNext(c, q, steps[0]), steps[1..]);
    }
  }

  /** From sem_init on, with sem_give alone: the tokens always add up, and the limit always holds. */
  lemma PlainGives(c: Config, s: State, steps: seq<SStep>)
    requires Inv(s) && Accepted(c) && c.initial <= INT32_MAX && SRun(c, Fresh(c, s), steps) && WithoutIsr(steps)
    ensures var r := SAfter(c, Fresh(c, s), steps);
            Balanced(c, r) && CountOk(c, r.count)
  {
    hide Inv, SNext, SEnabled, SAfter, SRun, SteadyRun, BelowRun;
    GivesAreSafe(c, Fresh(c, s), steps);
    RunBalanced(c, Fresh(c, s), steps);
    RunBounded(c, Fresh(c, s), steps);
  }

  /** Two gives and one token: an interrupt inside sem_give_isr gives too, and its token is overwritten. */
  lemma LostToken(c: Config, s: State, w: nat)
    requires Inv(s) && Accepted(c) && c.initial < INT32_MAX && !AtLimit(c.max, c.initial)
    requires Waiters(s, Semaphore, c.obj) == {}
    ensures var steps := [IsrWake(w), IsrCheck(w), IsrLoad(w), Give, IsrStore(w)];
            && SRun(c, Fresh(c, s), steps)
            && var r := SAfter(c, Fresh(c, s), steps);
               r.gives == 2 && r.takes == 0 && r.spent == 0 && r.count == c.initial + 1 && !Balanced(c, r)
  {
    var steps := [IsrWake(w), IsrCheck(w), IsrLoad(w), Give, IsrStore(w)];
    ChosenIff(s, Semaphore, c.obj);
    hide Inv, UnblockOne, Chosen, Waiters;
    var q0 := Fresh(c, s);
    var q1 := SNext(c, q0, steps[0]);
    var q2 := SNext(c, q1, steps[1]);
    var q3 := SNext(c, q2, steps[2]);
    var q4 := SNext(c, q3, steps[3]);
    var q5 := SNext(c, q4, steps[4]);
    Trace(c, steps, [q0, q1, q2, q3, q4, q5]);
  }

  /** The same interrupt a step earlier, between check and read: all tokens add up, one above the limit. */
  lemma OverLimit(c: Config, s: State, w: nat)
    requires Inv(s) && Accepted(c) && c.max == c.initial + 1 && c.max < INT32_MAX
    requires Waiters(s, Semaphore, c.obj) == {}
    ensures var steps := [IsrWake(w), IsrCheck(w), Give, IsrLoad(w), IsrStore(w)];
            && SRun(c, Fresh(c, s), steps) && SteadyRun(c, Fresh(c, s), steps)
            && var r := SAfter(c, Fresh(c, s), steps);
               Balanced(c, r) && r.count == c.max + 1 && !CountOk(c, r.count)
  {
    var steps := [IsrWake(w), IsrCheck(w), Give, IsrLoad(w), IsrStore(w)];
    ChosenIff(s, Semaphore, c.obj);
    hide Inv, UnblockOne, Chosen, Waiters;
    var q0 := Fresh(c, s);
    var q1 := SNext(c, q0, steps[0]);
    var q2 := SNext(c, q1, steps[1]);
    var q3 := SNext(c, q2, steps[2]);
    var q4 := SNext(c, q3, steps[3]);
    var q5 := SNext(c, q4, steps[4]);
    Trace(c, steps, [q0, q1, q2, q3, q4, q5]);
    SteadyTrace(c, steps, [q0, q1, q2, q3, q4, q5]);
  }

  lemma {:induction false} SteadyTrace(c: Config, steps: seq<SStep>, qs: seq<Sys>)
    requires |qs| == |steps| + 1 && Inv(qs[0].s)
    requires forall i :: 0 <= i < |steps| ==> Leads(c, qs[i], steps[i], qs[i + 1]) && Steady(qs[i], steps[i])
    requires SRun(c, qs[0], steps)
    ensures SteadyRun(c, qs[0], steps)
    decreases |steps|
  {
    if steps != [] {
      assert Leads(c, qs[0], steps[0], qs[1]) && Steady(qs[0], steps[0]);
      forall i | 0 <= i < |steps| - 1
        ensures Leads(c, qs[1..][i], steps[1..][i], qs[1..][i + 1]) && Steady(qs[1..][i], steps[1..][i])
      {
        assert Leads(c, qs[i + 1], steps[i + 1], qs[i + 2]) && Steady(qs[i + 1], steps[i + 1]);
      }
      hide Inv, SNext, SEnabled, Steady;
      SteadyTrace(c, steps[1..], qs[1..]);
    }
  }

  // ---- Blocked tasks and tokens ----

  /** While somebody is blocked on the semaphore there is no token. */
  ghost predicate NoIdleToken(c: Config, q: Sys)
    requires Inv(q.s)
  {
    Waiters(q.s, Semaphore, c.obj) != {} ==> q.count == 0
  }

  /**
   * A task blocks on the semaphore only while the test it failed still fails; and a handler
   * that found nobody to wake writes its token while that is still so.
   */
  ghost predicate Disciplined(c: Config, q: Sys, step: SStep) {
    match step
    case Kernel(DoBlock(reason, obj, _)) => reason == Semaphore && obj == c.obj ==> q.count == 0
    case IsrStore(_) => Waiters(q.s, Semaphore, c.obj) == {}
    case _ => true
  }

  lemma StepNoIdleToken(c: Config, q: Sys, step: SStep)
    requires Inv(q.s) && SEnabled(c, q, step) && NotNegative(q) && NoIdleToken(c, q) && Disciplined(c, q, step)
    ensures NoIdleToken(c, SNext(c, q, step))
  {
    hide Inv, Next, UnblockOne, Chosen, Enabled, Waiters;
    match step
    case Kernel(st) => StepWaiters(q.s, st, Semaphore, c.obj);
    case Give =>
      ChosenIff(q.s, Semaphore, c.obj);
      UnblockOneWaiters(q.s, Semaphore, c.obj, Ok);
    case IsrWake(_) =>
      ChosenIff(q.s, Semaphore, c.obj);
      UnblockOneWaiters(q.s, Semaphore, c.obj, Ok);
    case _ =>
  }

  ghost predicate DisciplinedRun(c: Config, q: Sys, steps: seq<SStep>)
    requires Inv(q.s) && SRun(c, q, steps)
    decreases |steps|
  {
    steps == [] || (Disciplined(c, q, steps[0]) && DisciplinedRun(c, SNext(c, q, steps[0]), steps[1..]))
  }

  lemma {:induction false} RunNoIdleToken(c: Config, q: Sys, steps: seq<SStep>)
    requires Inv(q.s) && SRun(c, q, steps) && DisciplinedRun(c, q, steps) && NotNegative(q) && NoIdleToken(c, q)
    ensures NoIdleToken(c, SAfter(c, q, steps))
    decreases |steps|
  {
    hide Inv, SNext, SEnabled, NotNegative, NoIdleToken, Disciplined;
    if steps != [] {
      StepNotNegative(c, q, steps[0]);
      StepNoIdleToken(c, q, steps[0]);
      RunNoIdleToken(c, SNext(c, q, steps[0]), steps[1..]);
    }
  }

  /** From sem_init on, with nobody blocked yet: over every disciplined run nobody is blocked while there is a token. */
  lemma NobodyOnToken(c: Config, s: State, steps: seq<SStep>)
    requires Inv(s) && Accepted(c) && Waiters(s, Semaphore, c.obj) == {}
    requires SRun(c, Fresh(c, s), steps) && DisciplinedRun(c, Fresh(c, s), steps)
    ensures NoIdleToken(c, SAfter(c, Fresh(c, s), steps))
  {
    hide Inv, SNext, SEnabled, SAfter, SRun, DisciplinedRun, Waiters;
    RunNoIdleToken(c, Fresh(c, s), steps);
  }

  /** The block that follows a failed test keeps the property exactly when there is still no token. */
  lemma TakerBlocks(c: Config, q: Sys, timeout: U32)
    requires Inv(q.s) && NoIdleToken(c, q) && q.s.current.Some?
    requires Enabled(q.s, DoBlock(Semaphore, c.obj, timeout))
    ensures NoIdleToken(c, SNext(c, q, Kernel(DoBlock(Semaphore, c.obj, timeout)))) <==> q.count == 0
  {
    var step := DoBlock(Semaphore, c.obj, timeout);
    var r := Next(q.s, step);
    StepCore(q.s, step, q.s.current.value);
    WaitersAre(r, Semaphore, c.obj);
    hide Inv, Enabled, Next, Waiters;
    assert q.s.current.value in Waiters(r, Semaphore, c.obj);
  }

  /** The write of sem_give_isr keeps it exactly when nobody has blocked since its search for a waiter. */
  lemma StoreIdle(c: Config, q: Sys, caller: nat)
    requires Inv(q.s) && SEnabled(c, q, IsrStore(caller)) && NotNegative(q)
    ensures NoIdleToken(c, SNext(c, q, IsrStore(caller))) <==> Waiters(q.s, Semaphore, c.obj) == {}
  {
    hide Inv, Waiters;
  }

  /** A lost wake-up: a take finds no token, a give finds nobody to wake, and only then the task blocks. */
  lemma LostGive(c: Config, s: State)
    requires Inv(s) && c.initial == 0 && !AtLimit(c.max, 0) && Waiters(s, Semaphore, c.obj) == {}
    requires s.current.Some? && s.info[s.current.value].state != Blocked
    ensures var steps := [Take, Give, Kernel(DoBlock(Semaphore, c.obj, TIMEOUT_FOREVER))];
            SRun(c, Fresh(c, s), steps) && !NoIdleToken(c, SAfter(c, Fresh(c, s), steps))
  {
    var steps := [Take, Give, Kernel(DoBlock(Semaphore, c.obj, TIMEOUT_FOREVER))];
    ChosenIff(s, Semaphore, c.obj);
    var q0 := Fresh(c, s);
    var q1 := SNext(c, q0, steps[0]);
    var q2 := SNext(c, q1, steps[1]);
    assert q2.s == s && q2.count == 1;
    TakerBlocks(c, q2, TIMEOUT_FOREVER);
    hide Inv, NoIdleToken, SNext;
    Trace(c, steps, [q0, q1, q2, SNext(c, q2, steps[2])]);
  }

  // ---- What a give is worth ----

  /** An accepted give adds a token exactly when nobody is blocked; otherwise it is all wake-up. */
  lemma GiveAddsToken(c: Config, q: Sys)
    requires Inv(q.s) && SEnabled(c, q, Give) && !AtLimit(c.max, q.count)
    ensures var r := SNext(c, q, Give);
            && (r.count == q.count + 1 <==> Waiters(q.s, Semaphore, c.obj) == {})
            && (r.count == q.count <==> Waiters(q.s, Semaphore, c.obj) != {})
  {
    ChosenIff(q.s, Semaphore, c.obj);
    hide Inv, UnblockOne, Waiters;
  }

  predicate KernelOnly(steps: seq<SStep>) {
    forall x :: x in steps ==> x.Kernel?
  }

  lemma {:induction false} KernelKeepsCount(c: Config, q: Sys, steps: seq<SStep>)
    requires Inv(q.s) && SRun(c, q, steps) && KernelOnly(steps)
    ensures SAfter(c, q, steps).count == q.count && SAfter(c, q, steps).takes == q.takes
    decreases |steps|
  {
    if steps != [] {
      assert steps[0] in steps && forall x :: x in steps[1..] ==> x in steps;
      hide Inv, SEnabled, Next;
      KernelKeepsCount(c, SNext(c, q, steps[0]), steps[1..]);
    }
  }

  /**
   * A waiter woken by a give finds no token when it retries, whatever the kernel does in
   * between: the give was spent on the wake-up, and the retry's test fails again.
   */
  lemma WokenFindsNothing(c: Config, q: Sys, mid: seq<SStep>)
    requires Inv(q.s) && NoIdleToken(c, q) && Waiters(q.s, Semaphore, c.obj) != {} && SEnabled(c, q, Give)
    requires KernelOnly(mid) && SRun(c, SNext(c, q, Give), mid)
    ensures var r := SAfter(c, SNext(c, q, Give), mid);
            && r.count == 0 && SNext(c, r, Take) == r && r.takes == q.takes
  {
    ChosenIff(q.s, Semaphore, c.obj);
    KernelKeepsCount(c, SNext(c, q, Give), mid);
    hide Inv, UnblockOne, Waiters, SAfter, SRun;
  }

  lemma GiveWakes(c: Config, q: Sys) returns (b: Id)
    requires Inv(q.s) && NoIdleToken(c, q) && Waiters(q.s, Semaphore, c.obj) != {}
    ensures SEnabled(c, q, Give) && b in Waiters(q.s, Semaphore, c.obj)
    ensures var r := SNext(c, q, Give);
            && Waiters(r.s, Semaphore, c.obj) == Waiters(q.s, Semaphore, c.obj) - {b}
            && r.count == 0 && r.spent == q.spent + 1
  {
    hide Inv, UnblockOne, Waiters, Chosen;
    ChosenIff(q.s, Semaphore, c.obj);
    UnblockOneWaiters(q.s, Semaphore, c.obj, Ok);
    b := Chosen(q.s, Semaphore, c.obj).value;
  }

  /** As many gives as there are waiters wake them all, and leave not one token for them. */
  lemma {:induction false} GivesWakeAllForNothing(c: Config, q: Sys, n: nat)
    requires Inv(q.s) && NoIdleToken(c, q) && n > 0 && |Waiters(q.s, Semaphore, c.obj)| == n
    ensures var steps := seq(n, i => Give);
            && SRun(c, q, steps)
            && Waiters(SAfter(c, q, steps).s, Semaphore, c.obj) == {}
            && SAfter(c, q, steps).count == 0
            && SAfter(c, q, steps).spent == q.spent + n
    decreases n
  {
    hide Inv, SNext, SEnabled, UnblockOne, Waiters, Chosen;
    var w := Waiters(q.s, Semaphore, c.obj);
    var steps := seq(n, i => Give);
    var b := GiveWakes(c, q);
    var r := SNext(c, q, Give);
    assert steps[0] == Give && steps[1..] == seq(n - 1, i => Give);
    if n == 1 {
      assert w == {b} + (w - {b});
      assert w - {b} == {};
      assert steps[1..] == [];
    } else {
      GivesWakeAllForNothing(c, r, n - 1);
    }
  }
}
