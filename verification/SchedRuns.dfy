/** Runs of the kernel: every interleaving of the critical sections, from scheduler_init on. */
module SchedRuns {
  import opened Types
  import opened Seqs
  import opened SchedSpec
  import opened SchedInv

  /**
   * The steps of the kernel. task_resume is two of them: its test of the state, which the
   * source makes outside any critical section, and the add that follows when it succeeds.
   */
  datatype Step =
    | DoTick
    | DoSwitch
    | DoYield
    | DoLock
    | DoUnlock
    | DoStart
    | DoCreate(task: Id, priority: Prio)
    | DoSetPriority(task: Id, priority: Prio)
    | DoRetire(task: Id, state: TaskState)
    | DoTestResume(task: Id)
    | DoAdd(task: Id)
    | DoExpect(bits: U32, all: bool)
    | DoBlock(reason: Reason, obj: nat, timeout: U32)
    | DoUnblockTask(task: Id, code: Code)
    | DoUnblockOne(reason: Reason, obj: nat, code: Code)
    | DoUnblockAll(reason: Reason, obj: nat, code: Code)

  /**
   * What each step asks of its callers. The source does not check that a task it adds, or
   * creates anew, is in no list, nor that one it retires is not blocked: see SchedInv.AddTaskIff
   * and Chains.RemoveBlocked for what happens otherwise.
   */
  predicate Enabled(s: State, step: Step)
    requires Sane(s)
  {
    match step
    case DoStart => GetNext(s).Some? ==> GetNext(s).value in s.info
    case DoCreate(t, p) => t in s.info ==> Idle(s.info[t])
    case DoSetPriority(t, p) => t in s.info
    case DoRetire(t, state) =>
      t in s.info && s.info[t].state != Blocked && (state == Suspended || state == Deleted)
    case DoTestResume(t) => t in s.info
    case DoAdd(t) => t in s.info && Idle(s.info[t])
    case DoBlock(_, _, _) => s.current.Some? ==> s.info[s.current.value].state != Blocked
    case DoExpect(_, _) => s.current.Some? ==> s.info[s.current.value].state != Blocked
    case DoUnblockTask(t, code) => t in s.info
    case _ => true
  }

  function Apply(s: State, step: Step): (r: State)
    requires Sane(s) && Enabled(s, step)
    ensures Inv(s) ==> Sane(r)
  {
    match step
    case DoTick => Tick(s)
    case DoSwitch => NextSane(s); PendSV(s)
    case DoYield => Yield(s)
    case DoLock => Lock(s)
    case DoUnlock => Unlock(s)
    case DoStart => Start(s)
    case DoCreate(t, p) => Create(s, t, p)
    case DoSetPriority(t, p) => SetPriority(s, t, p)
    case DoRetire(t, state) => Retire(s, t, state)
    case DoTestResume(t) => s
    case DoAdd(t) => AddTask(s, t)
    case DoExpect(bits, all) => Expect(s, bits, all)
    case DoBlock(reason, obj, timeout) => Block(s, reason, obj, timeout)
    case DoUnblockTask(t, code) => UnblockTask(s, t, code)
    case DoUnblockOne(reason, obj, code) => UnblockOne(s, reason, obj, code)
    case DoUnblockAll(reason, obj, code) => UnblockAll(s, reason, obj, code)
  }

  lemma NextSane(s: State)
    ensures Inv(s) ==> Sane(PendSV(s))
  {
    if Inv(s) && GetNext(s).Some? {
      NextKnown(s);
    }
  }

  /** Every critical section keeps the partition of the tasks over the lists. */
  lemma StepInv(s: State, step: Step)
    requires Inv(s) && Enabled(s, step)
    ensures Inv(Apply(s, step))
  {
    match step
    case DoTick => TickInv(s);
    case DoSwitch => PendSVInv(s);
    case DoYield => YieldInv(s);
    case DoLock => LockInv(s);
    case DoUnlock => LockInv(s);
    case DoStart => StartInv(s);
    case DoCreate(t, p) => CreateInv(s, t, p);
    case DoSetPriority(t, p) => SetPriorityInv(s, t, p);
    case DoRetire(t, state) => RetireInv(s, t, state);
    case DoTestResume(t) =>
    case DoAdd(t) => AddTaskInv(s, t);
    case DoExpect(bits, all) => ExpectInv(s, bits, all);
    case DoBlock(reason, obj, timeout) => BlockInv(s, reason, obj, timeout);
    case DoUnblockTask(t, code) => UnblockTaskInv(s, t, code);
    case DoUnblockOne(reason, obj, code) => UnblockOneInv(s, reason, obj, code);
    case DoUnblockAll(reason, obj, code) => UnblockAllInv(s, reason, obj, code);
  }

  /** A state in which the partition holds, and one step of such states. */
  ghost function Next(s: State, step: Step): (r: State)
    requires Inv(s) && Enabled(s, step)
    ensures Inv(r)
  {
    StepInv(s, step);
    Apply(s, step)
  }

  ghost predicate Run(s: State, steps: seq<Step>)
    requires Inv(s)
    decreases |steps|
  {
    steps == [] || (Enabled(s, steps[0]) && Run(Next(s, steps[0]), steps[1..]))
  }

  ghost function After(s: State, steps: seq<Step>): (r: State)
    requires Inv(s) && Run(s, steps)
    ensures Inv(r)
    decreases |steps|
  {
    if steps == [] then s else After(Next(s, steps[0]), steps[1..])
  }

  /** Runs from scheduler_init on, and the states they reach. */
  ghost predicate KernelRun(steps: seq<Step>) {
    InitialInv();
    Run(Initial(), steps)
  }

  ghost function Reached(steps: seq<Step>): (s: State)
    requires KernelRun(steps)
    ensures Inv(s)
  {
    After(Initial(), steps)
  }

  /** A run can be cut anywhere. */
  lemma {:induction false} RunConcat(s: State, a: seq<Step>, b: seq<Step>)
    requires Inv(s) && Run(s, a + b)
    ensures Run(s, a) && Run(After(s, a), b) && After(s, a + b) == After(After(s, a), b)
    decreases |a|
  {
    hide Apply, Enabled, Inv;
    if a == [] {
      assert a + b == b;
    } else {
      assert (a + b)[0] == a[0] && (a + b)[1..] == a[1..] + b;
      RunConcat(Next(s, a[0]), a[1..], b);
    }
  }

  // ---- The partition, by counting ----

  /** How often t occurs in ready lists from p on. */
  ghost function ReadyCount(s: State, t: Id, p: nat): nat
    requires p <= MAX_PRIORITY
    decreases MAX_PRIORITY - p
  {
    if p == MAX_PRIORITY then 0 else multiset(s.ready[p])[t] + ReadyCount(s, t, p + 1)
  }

  lemma {:induction false} OnceEach(q: seq<Id>, t: Id)
    requires NoDup(q)
    ensures multiset(q)[t] == if t in q then 1 else 0
  {
    if q != [] {
      OnceEach(q[1..], t);
      assert q == [q[0]] + q[1..];
      assert q[0] !in q[1..];
    }
  }

  lemma {:induction false} ReadyCountIs(s: State, t: Id, p: nat)
    requires Inv(s) && p <= MAX_PRIORITY
    ensures ReadyCount(s, t, p) ==
            if t in s.info && s.info[t].Runnable() && p <= s.info[t].priority then 1 else 0
    decreases MAX_PRIORITY - p
  {
    if p < MAX_PRIORITY {
      assert ListOk(s, p);
      OnceEach(s.ready[p], t);
      ReadyCountIs(s, t, p + 1);
    }
  }

  /**
   * In every reachable state a task occurs once in its own priority's ready list and nowhere
   * else when it is ready or running, once in the blocked list and nowhere else when it is
   * blocked, and in no list otherwise.
   */
  lemma Partition(steps: seq<Step>, t: Id)
    requires KernelRun(steps)
    ensures var s := Reached(steps);
            && (if t in s.info && s.info[t].Runnable() then
                  multiset(s.ready[s.info[t].priority])[t] == 1
                  && ReadyCount(s, t, 0) == 1 && multiset(s.blocked)[t] == 0
                else if t in s.info && s.info[t].state == Blocked then
                  ReadyCount(s, t, 0) == 0 && multiset(s.blocked)[t] == 1
                else
                  ReadyCount(s, t, 0) == 0 && multiset(s.blocked)[t] == 0)
  {
    var s := Reached(steps);
    ReadyCountIs(s, t, 0);
    OnceEach(s.blocked, t);
    if t in s.info {
      assert ListOk(s, s.info[t].priority);
      OnceEach(s.ready[s.info[t].priority], t);
    }
  }

  // ---- Selection ----

  /** The choice is the front of its own list, and no runnable task outranks it. */
  ghost predicate FrontOfHighest(s: State, t: Id) {
    && t in s.info && s.info[t].Runnable()
    && s.ready[s.info[t].priority] != [] && s.ready[s.info[t].priority][0] == t
    && (forall u :: u in s.info && s.info[u].Runnable() ==> s.info[t].priority <= s.info[u].priority)
  }

  /** scheduler_get_next is null iff no task is runnable, and otherwise the one front of the highest list. */
  lemma NextIsFront(s: State)
    requires Inv(s)
    ensures GetNext(s).None? <==> forall u :: u in s.info ==> !s.info[u].Runnable()
    ensures forall t: Id :: GetNext(s) == Some(t) <==> FrontOfHighest(s, t)
  {
    var h := Highest(s);
    forall u | u in s.info && s.info[u].Runnable()
      ensures h <= s.info[u].priority
    {
      Runs(s, u);
    }
    if h < MAX_PRIORITY {
      NextKnown(s);
    }
    forall t: Id | FrontOfHighest(s, t)
      ensures GetNext(s) == Some(t)
    {
    }
  }
}
