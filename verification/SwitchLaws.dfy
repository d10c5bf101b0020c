/**
 * Exactly when a switch is pending, the scheduler locked and a yield deferred, after each
 * step and over runs; and why a task that blocks or retires does not run on.
 */
module SwitchLaws {
  import opened Types
  import opened Seqs
  import opened SchedSpec
  import opened SchedInv
  import opened SchedRuns
  import opened TaskLaws
  import opened Preemption
  import opened Waiting

  // ---- One step ----

  /** The lock level a step leaves: locks nest modulo 2^32, and an unlock too many does nothing. */
  function LocksAfter(s: State, step: Step): nat {
    match step
    case DoLock => if s.locks == TWO32 - 1 then 0 else s.locks + 1
    case DoUnlock => if s.locks == 0 then 0 else s.locks - 1
    case _ => s.locks
  }

  /** The current task gives way: it yields, or its slice ends with this tick. */
  predicate Yields(s: State, step: Step)
    requires Sane(s)
  {
    s.current.Some? && (step == DoYield || (step == DoTick && s.info[s.current.value].slice <= 1))
  }

  /** A yield under lock is noted; the note stands until an unlock takes the level to 0. */
  predicate NoteAfter(s: State, step: Step)
    requires Sane(s)
  {
    if step == DoUnlock then s.resched && s.locks > 1
    else s.resched || (Yields(s, step) && s.locks > 0)
  }

  /** t has a higher priority than the current task. */
  predicate Better(s: State, t: Id)
    requires Sane(s)
  {
    s.current.Some? && t in s.info && s.info[t].priority < s.info[s.current.value].priority
  }

  /** t can run once the next tick has woken those that are due. */
  predicate RunsByTick(s: State, t: Id) {
    t in s.info && (s.info[t].Runnable() || (s.info[t].state == Blocked && Due(s.info[t], (s.tick + 1) % TWO32)))
  }

  /** What makes a step ask for a switch. */
  ghost predicate Asks(s: State, step: Step)
    requires Sane(s)
  {
    match step
    case DoTick => (Yields(s, step) && s.locks == 0) || exists t :: RunsByTick(s, t) && Better(s, t)
    case DoYield => Yields(s, step) && s.locks == 0
    case DoUnlock => s.locks <= 1 && s.resched
    case DoBlock(_, _, _) => s.current.Some?
    case DoCreate(t, p) => s.current.Some? && s.current != Some(t) && p < s.info[s.current.value].priority
    case DoSetPriority(t, p) =>
      && s.current.Some? && s.current != Some(t) && t in s.info && s.info[t].Runnable()
      && p < s.info[s.current.value].priority
    case DoAdd(t) => Better(s, t)
    case DoUnblockTask(t, _) => t in s.info && s.info[t].state == Blocked && Better(s, t)
    case DoUnblockOne(reason, obj, _) => exists t :: t in Waiters(s, reason, obj) && Better(s, t)
    case DoUnblockAll(reason, obj, _) => Waiters(s, reason, obj) != {}
    case _ => false
  }

  /** Level, note and pending flag after a step. */
  ghost predicate Flags(s: State, step: Step, r: State)
    requires Sane(s)
  {
    && r.locks == LocksAfter(s, step)
    && (r.resched <==> NoteAfter(s, step))
    && (r.pending <==> step != DoSwitch && (s.pending || Asks(s, step)))
  }

  lemma WakeFlags(s: State, w: set<Id>, how: Wakeup)
    ensures var r := Wake(s, w, how);
            r.locks == s.locks && r.resched == s.resched && r.pending == s.pending && r.current == s.current
  {
    hide Keep, Drop, WithPriority;
  }

  lemma ExpireFlags(s: State)
    requires Inv(s)
    ensures var e := Expire(s);
            && e.locks == s.locks && e.resched == s.resched && e.pending == s.pending && e.current == s.current
            && forall t :: t in s.info ==>
                 && t in e.info && e.info[t].slice == s.info[t].slice && e.info[t].priority == s.info[t].priority
                 && (e.info[t].Runnable() <==> RunsByTick(s, t))
    ensures Inv(Expire(s)) && Expire(s).info.Keys == s.info.Keys
  {
    var s1 := s.(tick := (s.tick + 1) % TWO32);
    WakeFlags(s1, DueSet(s1), Expired);
    ExpireInv(s);
    forall t | t in s.info
      ensures var e := Expire(s);
              && t in e.info && e.info[t].slice == s.info[t].slice && e.info[t].priority == s.info[t].priority
              && (e.info[t].Runnable() <==> RunsByTick(s, t))
    {
      ExpireRecord(s, t);
      hide Inv, Wake;
    }
    hide Inv, Wake, DueSet;
  }

  lemma YieldFlags(s: State)
    requires Sane(s)
    ensures Flags(s, DoYield, Yield(s)) && Yield(s).current == s.current
  {
  }

  lemma ChargeFlags(e: State)
    requires Inv(e)
    ensures var r, out := ChargeSlice(e), Yields(e, DoTick);
            && Inv(r) && r.locks == e.locks && (r.resched <==> e.resched || (out && e.locks > 0))
            && (r.pending <==> e.pending || (out && e.locks == 0)) && r.current == e.current
            && r.info.Keys == e.info.Keys
            && forall t :: t in e.info ==>
                 r.info[t].priority == e.info[t].priority && (r.info[t].Runnable() <==> e.info[t].Runnable())
  {
    ChargeSliceInv(e);
    if e.current.Some? {
      var c := e.current.value;
      var full := e.(info := e.info[c := e.info[c].(slice := TIME_SLICE)]);
      YieldFlags(full);
      YieldRecords(full);
    }
    hide Inv, Yield;
  }

  /** The last look of the tick asks for a switch exactly when somebody outranks the current task. */
  lemma HighestAsks(s: State)
    requires Inv(s) && s.current.Some?
    ensures Highest(s) < s.info[s.current.value].priority <==>
            exists t :: t in s.info && s.info[t].Runnable() && Better(s, t)
  {
    var p := s.info[s.current.value].priority;
    if Highest(s) < p {
      NextKnown(s);
      assert Better(s, GetNext(s).value);
    }
    if t :| t in s.info && s.info[t].Runnable() && Better(s, t) {
      HighestBounds(s, t);
    }
  }

  lemma LastLook(s: State)
    requires Inv(s)
    ensures var r := PreemptByHighest(s);
            && r.locks == s.locks && r.resched == s.resched && r.current == s.current
            && (r.pending <==> s.pending || exists t :: t in s.info && s.info[t].Runnable() && Better(s, t))
  {
    assert Sane(s);
    if s.current.Some? {
      HighestAsks(s);
    }
    hide Inv, Highest;
  }

  lemma TickFlags(s: State)
    requires Inv(s)
    ensures Flags(s, DoTick, Tick(s)) && Tick(s).current == s.current
  {
    assert Sane(s);
    hide Inv, Expire, ChargeSlice, PreemptByHighest;
    ExpireFlags(s);
    var e := Expire(s);
    ChargeFlags(e);
    var c := ChargeSlice(e);
    LastLook(c);
    forall t
      ensures t in c.info && c.info[t].Runnable() && Better(c, t) <==> RunsByTick(s, t) && Better(s, t)
    {
    }
  }

  lemma WokenFlags(s: State, t: Id, code: Code)
    requires Inv(s) && t in s.blocked && t in s.info
    ensures var r := Preempt(Wake(s, {t}, Answer(code)), s.info[t].priority);
            && r.locks == s.locks && r.resched == s.resched && r.current == s.current
            && (r.pending <==> s.pending || Better(s, t))
  {
    WakeFlags(s, {t}, Answer(code));
    if s.current.Some? {
      WakeRecord(s, {t}, Answer(code), s.current.value);
    }
    hide Inv, Wake;
  }

  /** Some waiter outranks the current task exactly when the one that unblock_one picks does. */
  lemma PickBetter(s: State, reason: Reason, obj: nat)
    requires Inv(s)
    ensures var b := Chosen(s, reason, obj);
            && (b.Some? ==> b.value in s.blocked && b.value in s.info)
            && ((exists t :: t in Waiters(s, reason, obj) && Better(s, t)) <==> b.Some? && Better(s, b.value))
  {
    ChosenIff(s, reason, obj);
    UnblockOneWaiters(s, reason, obj, Ok);
    var b := Chosen(s, reason, obj);
    assert b.Some? ==> b.value in s.blocked && b.value in s.info;
    hide Inv, Chosen, UnblockOne;
    if t :| t in Waiters(s, reason, obj) && Better(s, t) {
      assert b.Some? && Better(s, b.value);
    }
  }

  /** A step that leaves level and note alone has the right flags when it asks for a switch as it should. */
  lemma OnlyAsks(s: State, step: Step, r: State)
    requires Sane(s) && step != DoLock && step != DoUnlock && !Yields(s, step) && step != DoSwitch
    requires r.locks == s.locks && r.resched == s.resched && (r.pending <==> s.pending || Asks(s, step))
    ensures Flags(s, step, r)
  {
    hide Asks;
  }

  lemma OneAsks(s: State, reason: Reason, obj: nat, code: Code)
    requires Inv(s)
    ensures var b := Chosen(s, reason, obj);
            && (b.Some? ==> b.value in s.blocked && b.value in s.info)
            && (Asks(s, DoUnblockOne(reason, obj, code)) <==> b.Some? && Better(s, b.value))
  {
    assert Sane(s);
    hide Inv, Chosen, Waiters, Better;
    PickBetter(s, reason, obj);
  }

  lemma OneFlags(s: State, reason: Reason, obj: nat, code: Code)
    requires Inv(s)
    ensures Flags(s, DoUnblockOne(reason, obj, code), UnblockOne(s, reason, obj, code))
  {
    assert Sane(s);
    hide Inv, UnblockOne, Chosen, Preempt, Wake, Better, Asks, Flags;
    OneIs(s, reason, obj, code);
    OneAsks(s, reason, obj, code);
    var b := Chosen(s, reason, obj);
    if b.Some? {
      WokenFlags(s, b.value, code);
    }
    OnlyAsks(s, DoUnblockOne(reason, obj, code), UnblockOne(s, reason, obj, code));
  }

  lemma OneIs(s: State, reason: Reason, obj: nat, code: Code)
    requires Sane(s)
    ensures var b := Chosen(s, reason, obj);
            && (b.Some? ==> b.value in s.info)
            && UnblockOne(s, reason, obj, code) ==
               if b.None? then s else Preempt(Wake(s, {b.value}, Answer(code)), s.info[b.value].priority)
  {
    hide Preempt, Wake;
  }

  lemma AllFlags(s: State, reason: Reason, obj: nat, code: Code)
    requires Inv(s)
    ensures Flags(s, DoUnblockAll(reason, obj, code), UnblockAll(s, reason, obj, code))
  {
    WakeFlags(s, Waiters(s, reason, obj), Answer(code));
    hide Inv, Wake, Waiters;
  }

  lemma AddFlags(s: State, t: Id)
    requires Sane(s) && t in s.info
    ensures Flags(s, DoAdd(t), AddTask(s, t))
  {
  }

  lemma RankFlags(s: State, t: Id, p: Prio)
    requires Sane(s) && t in s.info
    ensures Flags(s, DoSetPriority(t, p), SetPriority(s, t, p))
  {
    if s.info[t].Runnable() {
      var s1 := RemoveTask(s, t);
      var s2 := s1.(info := s1.info[t := s1.info[t].(priority := p)]);
      AddFlags(s2, t);
      hide Drop, AddTask;
    }
  }

  lemma CreateFlags(s: State, t: Id, p: Prio)
    requires Sane(s) && (t in s.info ==> Idle(s.info[t]))
    ensures Flags(s, DoCreate(t, p), Create(s, t, p))
  {
    AddFlags(s.(info := s.info[t := NewTask(p)]), t);
    hide AddTask;
  }

  lemma OtherFlags(s: State, step: Step)
    requires Inv(s) && Enabled(s, step) && Simple(step)
    requires !step.DoCreate? && !step.DoSetPriority? && !step.DoAdd? && !step.DoYield?
    ensures Flags(s, step, Apply(s, step))
  {
    assert Sane(s);
    hide Inv, Highest, Drop;
  }

  /**
   * Exactly how each step sets the lock level, the deferred note and the pending flag.
   */
  lemma StepFlags(s: State, step: Step)
    requires Inv(s) && Enabled(s, step)
    ensures Flags(s, step, Next(s, step))
  {
    assert Sane(s);
    hide Inv, Flags, Tick, Yield, Create, SetPriority, AddTask, UnblockTask, UnblockOne, UnblockAll;
    match step
    case DoTick => TickFlags(s);
    case DoYield => YieldFlags(s);
    case DoCreate(t, p) => CreateFlags(s, t, p);
    case DoSetPriority(t, p) => RankFlags(s, t, p);
    case DoAdd(t) => AddFlags(s, t);
    case DoUnblockTask(t, code) => TaskFlags(s, t, code);
    case DoUnblockOne(reason, obj, code) => OneFlags(s, reason, obj, code);
    case DoUnblockAll(reason, obj, code) => AllFlags(s, reason, obj, code);
    case _ => OtherFlags(s, step);
  }

  lemma TaskFlags(s: State, t: Id, code: Code)
    requires Inv(s) && t in s.info
    ensures Flags(s, DoUnblockTask(t, code), UnblockTask(s, t, code))
  {
    if s.info[t].state == Blocked {
      assert t in s.blocked;
      WokenFlags(s, t, code);
    }
    hide Inv, Preempt, Wake;
  }

  // ---- A task that cannot run does not run on ----

  /** When the current task cannot run, a switch is pending. */
  ghost predicate Leaves(s: State)
    requires Sane(s)
  {
    s.current.Some? && !s.info[s.current.value].Runnable() ==> s.pending
  }

  /** The step suspends or deletes the current task, with no switch pending. */
  predicate RetiresItself(s: State, step: Step) {
    step.DoRetire? && s.current == Some(step.task) && !s.pending
  }

  /** After a block by anybody a switch is pending, under lock or not. */
  lemma BlockPends(s: State, reason: Reason, obj: nat, timeout: U32)
    requires Inv(s) && Enabled(s, DoBlock(reason, obj, timeout)) && s.current.Some?
    ensures Next(s, DoBlock(reason, obj, timeout)).pending
  {
    StepFlags(s, DoBlock(reason, obj, timeout));
    hide Inv, Next;
  }

  /** Whoever is current after a switch or start can run. */
  lemma SwitchRuns(s: State, step: Step)
    requires Inv(s) && Enabled(s, step) && (step.DoSwitch? || step.DoStart?)
    ensures var r := Next(s, step);
            r.current.Some? ==> (r.current == s.current && r == s) || r.info[r.current.value].Runnable()
  {
    if GetNext(s).Some? {
      NextKnown(s);
    }
    hide Inv, GetNext;
  }

  /**
   * Every step keeps that a current task which cannot run has a switch pending, but for one:
   * the step that suspends or deletes the current task.
   */
  lemma StepLeaves(s: State, step: Step)
    requires Inv(s) && Enabled(s, step) && Leaves(s)
    ensures Leaves(Next(s, step)) <==> !RetiresItself(s, step)
  {
    StepFlags(s, step);
    if step.DoSwitch? || step.DoStart? {
      SwitchRuns(s, step);
      hide Inv, Next;
    } else {
      StepCurrent(s, step);
      if s.current.Some? {
        StepCore(s, step, s.current.value);
      }
      hide Inv, Next, Fate;
    }
  }

  ghost predicate NeverRetiresItself(s: State, steps: seq<Step>)
    requires Inv(s) && Run(s, steps)
    decreases |steps|
  {
    steps == [] || (!RetiresItself(s, steps[0]) && NeverRetiresItself(Next(s, steps[0]), steps[1..]))
  }

  lemma {:induction false} RunLeaves(s: State, steps: seq<Step>)
    requires Inv(s) && Run(s, steps) && NeverRetiresItself(s, steps) && Leaves(s)
    ensures Leaves(After(s, steps))
    decreases |steps|
  {
    hide Inv, Enabled, Next, Leaves, RetiresItself;
    if steps != [] {
      StepLeaves(s, steps[0]);
      RunLeaves(Next(s, steps[0]), steps[1..]);
    }
  }

  // ---- task_suspend and task_delete, with the yield that ends them ----

  /** Retiring the current task asks for a switch, or notes it under lock; retiring another does neither. */
  lemma RetireFlags(s: State, t: Id, state: TaskState)
    requires Inv(s) && Enabled(s, DoRetire(t, state))
    ensures var r := TaskRetire(s, t, state);
            && Inv(r) && t in r.info && r.info[t].state == state && r.current == s.current && r.locks == s.locks
            && t !in r.blocked && (forall p: nat :: p < MAX_PRIORITY ==> t !in r.ready[p])
            && (r.pending <==> s.pending || (s.current == Some(t) && s.locks == 0))
            && (r.resched <==> s.resched || (s.current == Some(t) && s.locks > 0))
            && forall u :: u in s.info && u != t ==> u in r.info && r.info[u] == s.info[u]
  {
    RetireInv(s, t, state);
    var r := Retire(s, t, state);
    YieldInv(r);
    YieldFlags(r);
    YieldRecords(r);
    RetiredFields(s, t, state);
    hide Retire, Yield;
    UnlistedNow(TaskRetire(s, t, state), t);
    hide Inv;
  }

  lemma RetiredFields(s: State, t: Id, state: TaskState)
    requires Sane(s) && t in s.info
    ensures var r := Retire(s, t, state);
            && r.info == s.info[t := s.info[t].(state := state)] && r.current == s.current && r.locks == s.locks
            && r.pending == s.pending && r.resched == s.resched
  {
    hide Drop;
  }

  lemma UnlistedNow(s: State, t: Id)
    requires Inv(s) && t in s.info && Idle(s.info[t])
    ensures t !in s.blocked && forall p: nat :: p < MAX_PRIORITY ==> t !in s.ready[p]
  {
    forall p: nat | p < MAX_PRIORITY
      ensures t !in s.ready[p]
    {
      assert ListOk(s, p);
    }
  }

  /** A current task that cannot run has a switch pending, or coming once the scheduler is unlocked. */
  ghost predicate Departs(s: State)
    requires Sane(s)
  {
    s.current.Some? && !s.info[s.current.value].Runnable() ==> s.pending || (s.locks > 0 && s.resched)
  }

  /**
   * The step retires the current task, or takes the lock level past its last value under one
   * that cannot run, with nothing to make it leave.
   */
  ghost predicate Strays(s: State, step: Step)
    requires Sane(s)
  {
    || (RetiresItself(s, step) && !(s.locks > 0 && s.resched))
    || (step == DoLock && s.locks == TWO32 - 1 && !s.pending && s.current.Some? && !s.info[s.current.value].Runnable())
  }

  lemma StepDeparts(s: State, step: Step)
    requires Inv(s) && Enabled(s, step) && Departs(s)
    ensures Departs(Next(s, step)) <==> !Strays(s, step)
  {
    StepFlags(s, step);
    if step.DoSwitch? || step.DoStart? {
      SwitchRuns(s, step);
      hide Inv, Next;
    } else {
      StepCurrent(s, step);
      if s.current.Some? {
        StepCore(s, step, s.current.value);
      }
      hide Inv, Next, Fate;
    }
  }

  /** A kernel step, or a whole task_suspend or task_delete. */
  datatype Call = Kernel(step: Step) | Leave(task: Id, state: TaskState)

  ghost predicate CallEnabled(s: State, call: Call)
    requires Inv(s)
  {
    match call
    case Kernel(step) => Enabled(s, step) && !Strays(s, step)
    case Leave(t, state) => Enabled(s, DoRetire(t, state))
  }

  ghost function CallNext(s: State, call: Call): (r: State)
    requires Inv(s) && CallEnabled(s, call)
    ensures Inv(r)
  {
    match call
    case Kernel(step) => Next(s, step)
    case Leave(t, state) => RetireFlags(s, t, state); TaskRetire(s, t, state)
  }

  ghost predicate CallRun(s: State, calls: seq<Call>)
    requires Inv(s)
    decreases |calls|
  {
    calls == [] || (CallEnabled(s, calls[0]) && CallRun(CallNext(s, calls[0]), calls[1..]))
  }

  ghost function CallAfter(s: State, calls: seq<Call>): (r: State)
    requires Inv(s) && CallRun(s, calls)
    ensures Inv(r)
    decreases |calls|
  {
    if calls == [] then s else CallAfter(CallNext(s, calls[0]), calls[1..])
  }

  lemma CallDeparts(s: State, call: Call)
    requires Inv(s) && CallEnabled(s, call) && Departs(s)
    ensures Departs(CallNext(s, call))
  {
    match call
    case Kernel(step) => StepDeparts(s, step);
    case Leave(t, state) =>
      RetireFlags(s, t, state);
      assert Sane(s);
      hide Inv, TaskRetire;
  }

  lemma {:induction false} RunDeparts(s: State, calls: seq<Call>)
    requires Inv(s) && CallRun(s, calls) && Departs(s)
    ensures Departs(CallAfter(s, calls))
    decreases |calls|
  {
    hide Inv, CallEnabled, CallNext, Departs;
    if calls != [] {
      CallDeparts(s, calls[0]);
      RunDeparts(CallNext(s, calls[0]), calls[1..]);
    }
  }

  ghost predicate FromStart(calls: seq<Call>) {
    InitialInv();
    CallRun(Initial(), calls)
  }

  /** From scheduler_init on, a task that blocks, or that a complete call retires, has a switch pending or noted. */
  lemma NobodyRunsOn(calls: seq<Call>)
    requires FromStart(calls)
    ensures Inv(Initial()) && Departs(CallAfter(Initial(), calls))
  {
    InitialInv();
    RunDeparts(Initial(), calls);
    hide Inv;
  }

  /** From scheduler_init on, as long as nobody retires itself: a current task that cannot run has a switch pending. */
  lemma SleepersLeave(steps: seq<Step>)
    requires KernelRun(steps) && NeverRetiresItself(Initial(), steps)
    ensures Leaves(Reached(steps))
  {
    RunLeaves(Initial(), steps);
    hide Inv;
  }

  // ---- Nested locks ----

  function Times(step: Step, n: nat): (steps: seq<Step>)
    ensures |steps| == n && forall i :: 0 <= i < n ==> steps[i] == step
  {
    seq(n, i => step)
  }

  /** Two runs, one after the other. */
  lemma {:induction false} RunJoin(s: State, a: seq<Step>, b: seq<Step>)
    requires Inv(s) && Run(s, a) && Run(After(s, a), b)
    ensures Run(s, a + b) && After(s, a + b) == After(After(s, a), b)
    decreases |a|
  {
    hide Apply, Enabled, Inv, Next;
    if a == [] {
      assert a + b == b;
    } else {
      assert (a + b)[0] == a[0] && (a + b)[1..] == a[1..] + b;
      RunJoin(Next(s, a[0]), a[1..], b);
    }
  }

  lemma LockStep(s: State, step: Step)
    requires Inv(s) && (step == DoLock || step == DoUnlock || step == DoYield)
    ensures Enabled(s, step) && Flags(s, step, Next(s, step)) && Next(s, step).current == s.current
  {
    StepFlags(s, step);
    StepCurrent(s, step);
    hide Inv, Next, Flags;
  }

  lemma {:induction false} LockTimes(s: State, n: nat)
    requires Inv(s) && s.locks + n < TWO32
    ensures Run(s, Times(DoLock, n))
    ensures var r := After(s, Times(DoLock, n));
            r.locks == s.locks + n && r.pending == s.pending && r.resched == s.resched && r.current == s.current
    decreases n
  {
    if n > 0 {
      LockStep(s, DoLock);
      assert Sane(s) && Times(DoLock, n)[1..] == Times(DoLock, n - 1);
      hide Inv, Next, Enabled;
      LockTimes(Next(s, DoLock), n - 1);
    }
  }

  lemma {:induction false} UnlockTimes(s: State, m: nat)
    requires Inv(s) && m <= s.locks
    ensures Run(s, Times(DoUnlock, m))
    ensures var r, done := After(s, Times(DoUnlock, m)), 0 < m == s.locks;
            && r.locks == s.locks - m && (r.pending <==> s.pending || (done && s.resched))
            && (r.resched <==> s.resched && !done)
    decreases m
  {
    if m > 0 {
      LockStep(s, DoUnlock);
      assert Sane(s) && Times(DoUnlock, m)[1..] == Times(DoUnlock, m - 1);
      hide Inv, Next, Enabled;
      UnlockTimes(Next(s, DoUnlock), m - 1);
    }
  }

  /**
   * n locks, a yield and m unlocks: the level is n - m, and the switch that the yield asks for
   * is noted until the last of n unlocks, which triggers it.
   */
  lemma NestedYield(s: State, n: nat, m: nat)
    requires Inv(s) && s.current.Some? && s.locks == 0 && !s.pending && !s.resched && m <= n < TWO32
    ensures var steps := Times(DoLock, n) + ([DoYield] + Times(DoUnlock, m));
            && Run(s, steps)
            && var r := After(s, steps);
               r.locks == n - m && (r.pending <==> m == n) && (r.resched <==> m < n)
  {
    LockTimes(s, n);
    var l := After(s, Times(DoLock, n));
    LockStep(l, DoYield);
    assert Sane(l);
    var y := Next(l, DoYield);
    UnlockTimes(y, m);
    hide Inv, Next, Enabled, Times;
    assert [DoYield][1..] == [];
    assert Run(y, []) && After(y, []) == y;
    assert Run(l, [DoYield]) && After(l, [DoYield]) == y;
    RunJoin(l, [DoYield], Times(DoUnlock, m));
    RunJoin(s, Times(DoLock, n), [DoYield] + Times(DoUnlock, m));
  }

  /** Without the yield the unlocks ask for nothing. */
  lemma NestedOnly(s: State, n: nat, m: nat)
    requires Inv(s) && s.locks == 0 && !s.pending && !s.resched && m <= n < TWO32
    ensures var steps := Times(DoLock, n) + Times(DoUnlock, m);
            && Run(s, steps)
            && var r := After(s, steps);
               r.locks == n - m && !r.pending && !r.resched
  {
    LockTimes(s, n);
    var l := After(s, Times(DoLock, n));
    UnlockTimes(l, m);
    hide Inv, Next, Enabled, Times;
    RunJoin(s, Times(DoLock, n), Times(DoUnlock, m));
  }

  /** No unlock of the run takes the level to 0. */
  ghost predicate StaysLocked(s: State, steps: seq<Step>)
    requires Inv(s) && Run(s, steps)
    decreases |steps|
  {
    steps == [] || (!(steps[0] == DoUnlock && s.locks <= 1) && StaysLocked(Next(s, steps[0]), steps[1..]))
  }

  /** Whatever else runs: a deferred yield stays noted until the level is 0, and then a switch is pending. */
  lemma {:induction false} NoteStands(s: State, steps: seq<Step>)
    requires Inv(s) && Run(s, steps) && StaysLocked(s, steps) && s.resched
    ensures After(s, steps).resched
    ensures After(s, steps).locks <= 1 ==> Next(After(s, steps), DoUnlock).pending
    decreases |steps|
  {
    if steps == [] {
      StepFlags(s, DoUnlock);
      hide Inv, Next;
    } else {
      StepFlags(s, steps[0]);
      assert Sane(s);
      hide Inv, Next, Enabled, Asks;
      NoteStands(Next(s, steps[0]), steps[1..]);
    }
  }

  // ---- The start ----

  /**
   * scheduler_start makes the one front of the best list current, running and with a full
   * slice, and touches nothing else; with nobody to run it changes nothing.
   */
  lemma StartIs(s: State, f: Id)
    requires Inv(s)
    ensures GetNext(s).Some? ==> GetNext(s).value in s.info
    ensures FrontOfHighest(s, f) ==>
              Start(s) == s.(current := Some(f), info := s.info[f := s.info[f].(state := Running, slice := TIME_SLICE)])
    ensures (forall u :: u in s.info ==> !s.info[u].Runnable()) ==> Start(s) == s
  {
    NextIsFront(s);
    StartInv(s);
    hide Inv, GetNext;
    if FrontOfHighest(s, f) {
      assert GetNext(s) == Some(f);
    }
  }
}
