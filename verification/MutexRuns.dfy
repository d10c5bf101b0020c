/**
 * Mutexes with priority inheritance together with the scheduler, over whole interleaved
 * runs: any number of mutexes, nested ownership, timeouts and the wake-then-retry protocol.
 */
module MutexRuns {
  import opened Types
  import opened SchedSpec
  import opened SchedInv
  import opened SchedRuns
  import opened TaskLaws
  import opened Waiting
  import opened MutexSpec

  /**
   * A mutex, and the history of its present ownership: the nesting depth and its peak, the
   * priorities and names of the tasks that asked for it, and, across ownerships, the tasks
   * woken from it that have not retried yet.
   */
  datatype Mtx = Mtx(lock: Lock, depth: nat, peak: nat, asked: seq<Prio>, askers: set<Id>, due: set<Id>)

  datatype Sys = Sys(s: State, mtx: map<nat, Mtx>)

  /**
   * The critical sections of the mutex calls, made by the current task. Inherit is the step
   * of mutex_lock that follows a failed test; the block after it is a kernel step.
   */
  datatype MStep = Kernel(step: Step) | Acquire(obj: nat) | Inherit(obj: nat) | Release(obj: nat)

  ghost predicate MEnabled(q: Sys, step: MStep)
    requires Inv(q.s)
  {
    match step
    case Kernel(st) => Enabled(q.s, st)
    case Acquire(o) => o in q.mtx && CanCall(q.s)
    case Inherit(o) => o in q.mtx && CanCall(q.s) && OwnersKnown(q)
    case Release(o) => o in q.mtx && CanCall(q.s) && q.mtx[o].lock.owner == q.s.current
  }

  predicate CanCall(s: State)
    requires Sane(s)
  {
    s.current.Some? && s.info[s.current.value].state != Blocked
  }

  ghost predicate OwnersKnown(q: Sys) {
    forall o :: o in q.mtx && q.mtx[o].lock.owner.Some? ==> q.mtx[o].lock.owner.value in q.s.info
  }

  function Max(a: nat, b: nat): nat {
    if a < b then b else a
  }

  /** The bookkeeping of a lock attempt by self. */
  function Attempted(m: Mtx, self: Id): Mtx {
    var l := TryLock(m.lock, self);
    if !m.lock.locked then Mtx(l, 1, 1, [], {}, m.due - {self})
    else if Grants(m.lock, self) then
      m.(lock := l, depth := m.depth + 1, peak := Max(m.peak, m.depth + 1), due := m.due - {self})
    else m.(due := m.due - {self})
  }

  ghost function Raised(s: State, m: Mtx): (r: State)
    requires Inv(s) && s.current.Some? && (m.lock.owner.Some? ==> m.lock.owner.value in s.info)
    ensures Inv(r)
  {
    var w := if m.lock.owner.Some? then m.lock.owner.value else s.current.value;
    SetPriorityInv(s, w, s.info[s.current.value].priority);
    Raise(s, m.lock.owner)
  }

  ghost function Restored(s: State): (r: State)
    requires Inv(s) && s.current.Some?
    ensures Inv(r)
  {
    SetPriorityInv(s, s.current.value, s.info[s.current.value].base);
    Restore(s)
  }

  ghost function MNext(q: Sys, step: MStep): (r: Sys)
    requires Inv(q.s) && MEnabled(q, step)
    ensures Inv(r.s)
  {
    match step
    case Kernel(st) => Sys(Next(q.s, st), Recreated(q.mtx, st))
    case Acquire(o) => q.(mtx := q.mtx[o := Attempted(q.mtx[o], q.s.current.value)])
    case Inherit(o) =>
      var c, m := q.s.current.value, q.mtx[o];
      Sys(Raised(q.s, m),
          q.mtx[o := m.(asked := m.asked + [q.s.info[c].priority], askers := m.askers + {c})])
    case Release(o) =>
      var m := q.mtx[o];
      if Releases(m.lock) then
        var s1 := Restored(q.s);
        Sys(Next(s1, DoUnblockOne(Mutex, o, Ok)),
            q.mtx[o := Mtx(MutexSpec.Unlock(m.lock), 0, 0, [], {}, m.due + Woke(s1, Mutex, o))])
      else
        q.(mtx := q.mtx[o := m.(lock := MutexSpec.Unlock(m.lock), depth := if m.depth > 0 then m.depth - 1 else 0)])
  }

  /** A control block created anew belongs to a task that has asked for nothing. */
  function Recreated(mtx: map<nat, Mtx>, step: Step): (r: map<nat, Mtx>)
    ensures r.Keys == mtx.Keys
  {
    map o | o in mtx :: if step.DoCreate? then mtx[o].(askers := mtx[o].askers - {step.task}) else mtx[o]
  }

  ghost predicate MRun(q: Sys, steps: seq<MStep>)
    requires Inv(q.s)
    decreases |steps|
  {
    steps == [] || (MEnabled(q, steps[0]) && MRun(MNext(q, steps[0]), steps[1..]))
  }

  ghost function MAfter(q: Sys, steps: seq<MStep>): (r: Sys)
    requires Inv(q.s) && MRun(q, steps)
    ensures Inv(r.s)
    decreases |steps|
  {
    if steps == [] then q else MAfter(MNext(q, steps[0]), steps[1..])
  }

  /** x is enabled in q and leads to r. */
  ghost predicate Leads(q: Sys, x: MStep, r: Sys) {
    Inv(q.s) && MEnabled(q, x) && r == MNext(q, x)
  }

  /** The states that a run goes through. */
  lemma {:induction false} Trace(steps: seq<MStep>, qs: seq<Sys>)
    requires |qs| == |steps| + 1 && Inv(qs[0].s)
    requires forall i :: 0 <= i < |steps| ==> Leads(qs[i], steps[i], qs[i + 1])
    ensures MRun(qs[0], steps) && MAfter(qs[0], steps) == qs[|steps|]
    decreases |steps|
  {
    hide Inv, MNext, MEnabled;
    if steps != [] {
      assert Leads(qs[0], steps[0], qs[1]);
      forall i | 0 <= i < |steps| - 1
        ensures Leads(qs[1..][i], steps[1..][i], qs[1..][i + 1])
      {
        assert Leads(qs[i + 1], steps[i + 1], qs[i + 2]);
      }
      Trace(steps[1..], qs[1..]);
    }
  }

  // ---- Ownership and nesting ----

  /** The fields agree; and the count is the nesting depth exactly until the depth first passes 255. */
  predicate Nested(m: Mtx) {
    && Agrees(m.lock)
    && (m.lock.locked ==>
          && m.lock.count <= m.depth <= m.peak
          && (m.peak <= 255 ==> m.lock.count == m.depth)
          && (m.peak > 255 ==> m.lock.count < m.depth))
  }

  ghost predicate AllNested(q: Sys) {
    forall o {:trigger Nested(q.mtx[o])} :: o in q.mtx ==> Nested(q.mtx[o])
  }

  lemma StepNested(q: Sys, step: MStep)
    requires Inv(q.s) && MEnabled(q, step) && AllNested(q)
    ensures AllNested(MNext(q, step))
  {
    hide Inv, Next, Enabled, Raised, Restored, Woke;
    var r := MNext(q, step);
    forall o | o in r.mtx
      ensures Nested(r.mtx[o])
    {
      assert Nested(q.mtx[o]);
    }
  }

  /** An ownership ends only by the owner's own unlock, and that unlock finds the count at 1. */
  lemma OnlyOwnerEnds(q: Sys, step: MStep, o: nat)
    requires Inv(q.s) && MEnabled(q, step) && AllNested(q) && o in q.mtx && q.mtx[o].lock.owner.Some?
    ensures o in MNext(q, step).mtx
    ensures MNext(q, step).mtx[o].lock.owner != q.mtx[o].lock.owner <==>
            step == Release(o) && q.mtx[o].lock.count == 1
    ensures step == Release(o) ==> q.s.current == q.mtx[o].lock.owner
  {
    assert Nested(q.mtx[o]);
    hide Inv, Next, Enabled, Raised, Restored, Woke;
  }

  /** The release comes at the matching unlock, depth 1, iff the nesting never passed 255 levels. */
  lemma ReleaseMatches(q: Sys, o: nat)
    requires Inv(q.s) && MEnabled(q, Release(o)) && AllNested(q)
    requires !MNext(q, Release(o)).mtx[o].lock.locked
    ensures q.mtx[o].depth == 1 <==> q.mtx[o].peak <= 255
  {
    assert Nested(q.mtx[o]);
    hide Inv, Next, Enabled, Raised, Restored, Woke;
  }

  /**
   * A lock attempt succeeds on a free mutex, and on a recursive one for its owner: only then
   * the depth grows, by one, and so does the count below 255. Otherwise nothing changes.
   */
  lemma AttemptIs(q: Sys, o: nat)
    requires Inv(q.s) && MEnabled(q, Acquire(o)) && AllNested(q)
    ensures var l, self, r := q.mtx[o].lock, q.s.current, MNext(q, Acquire(o));
            && o in r.mtx && r.s == q.s
            && (if !l.locked then r.mtx[o].lock == Lock(true, self, 1, l.recursive) && r.mtx[o].depth == 1
                else if l.owner == self && l.recursive then
                  && r.mtx[o].lock == Lock(true, self, if l.count < 255 then l.count + 1 else 255, true)
                  && r.mtx[o].depth == q.mtx[o].depth + 1
                else r.mtx[o].lock == l && r.mtx[o].depth == q.mtx[o].depth)
            && forall x :: x in q.mtx && x != o ==> x in r.mtx && r.mtx[x] == q.mtx[x]
  {
    assert Nested(q.mtx[o]);
    hide Inv;
  }

  /** A mutex that is not recursive is locked once at most. */
  predicate LockedOnce(m: Mtx) {
    !m.lock.recursive && m.depth <= 1 && m.lock.count <= 1
  }

  lemma StepLockedOnce(q: Sys, step: MStep, o: nat)
    requires Inv(q.s) && MEnabled(q, step) && AllNested(q) && o in q.mtx && LockedOnce(q.mtx[o])
    ensures o in MNext(q, step).mtx && LockedOnce(MNext(q, step).mtx[o])
  {
    if step.Acquire? {
      AttemptIs(q, step.obj);
    }
    hide Inv, Next, Enabled, Raised, Restored, Woke, Grants;
  }

  /** Over any run a mutex that is not recursive is never locked twice, not even by its owner. */
  lemma {:induction false} RunLockedOnce(q: Sys, steps: seq<MStep>, o: nat)
    requires Inv(q.s) && MRun(q, steps) && AllNested(q) && o in q.mtx && LockedOnce(q.mtx[o])
    ensures o in MAfter(q, steps).mtx && LockedOnce(MAfter(q, steps).mtx[o])
    decreases |steps|
  {
    hide Inv, MNext, MEnabled, AllNested, LockedOnce;
    if steps != [] {
      StepNested(q, steps[0]);
      StepLockedOnce(q, steps[0], o);
      RunLockedOnce(MNext(q, steps[0]), steps[1..], o);
    }
  }

  /** Inheritance re-ranks the owner only when it ranks lower, and a release only an owner that is not at its base. */
  lemma QuietCalls(q: Sys, o: nat)
    requires Inv(q.s) && o in q.mtx && CanCall(q.s) && OwnersKnown(q)
    ensures var c, w := q.s.current.value, q.mtx[o].lock.owner;
            && MNext(q, Inherit(o)).s == (if w.None? || q.s.info[w.value].priority <= q.s.info[c].priority then q.s
                                          else SetPriority(q.s, w.value, q.s.info[c].priority))
            && Restored(q.s) == (if q.s.info[c].priority == q.s.info[c].base then q.s
                                 else SetPriority(q.s, c, q.s.info[c].base))
  {
    hide SetPriority, Inv;
  }

  // ---- Priorities are borrowed only by owners, and given back ----

  ghost predicate Holds(q: Sys, o: nat, t: Id) {
    o in q.mtx && q.mtx[o].lock.owner == Some(t)
  }

  ghost predicate OwnsNone(q: Sys, t: Id) {
    forall o :: !Holds(q, o, t)
  }

  ghost predicate Ranked(q: Sys, t: Id)
    requires t in q.s.info
  {
    q.s.info[t].priority <= q.s.info[t].base && (OwnsNone(q, t) ==> q.s.info[t].priority == q.s.info[t].base)
  }

  /** Nobody ranks below its base, and whoever owns no mutex ranks exactly at it. */
  ghost predicate Repaid(q: Sys) {
    OwnersKnown(q) && forall t {:trigger Ranked(q, t)} :: t in q.s.info ==> Ranked(q, t)
  }

  /** task_set_priority is not used. */
  predicate NoSetPriority(step: MStep) {
    match step
    case Kernel(DoSetPriority(_, _)) => false
    case _ => true
  }

  /** What one kernel step does to a task's two priorities. */
  lemma PairAfter(s: State, step: Step, t: Id)
    requires Inv(s) && Enabled(s, step) && t in s.info
    ensures t in Next(s, step).info
    ensures var a, b := s.info[t], Next(s, step).info[t];
            && b.priority == PriorityAfter(s, step, t)
            && b.base == if step.DoCreate? && step.task == t then step.priority else a.base
  {
    StepCore(s, step, t);
    StepPriority(s, step, t);
    hide Inv, Enabled, Next;
  }

  lemma NewPair(s: State, step: Step, t: Id)
    requires Inv(s) && Enabled(s, step) && t !in s.info && t in Next(s, step).info
    ensures Next(s, step).info[t].priority == Next(s, step).info[t].base
  {
    hide Inv, Enabled, Next;
    Newcomer(s, step, t);
  }

  lemma KernelRepaid(q: Sys, step: Step)
    requires Inv(q.s) && Enabled(q.s, step) && Repaid(q) && !step.DoSetPriority?
    ensures Repaid(MNext(q, Kernel(step)))
  {
    var r := MNext(q, Kernel(step));
    StepKeys(q.s, step);
    forall t | t in r.s.info
      ensures Ranked(r, t)
    {
      if t in q.s.info {
        PairAfter(q.s, step, t);
        assert Ranked(q, t);
        SameOwners(q, step, t);
      } else {
        NewPair(q.s, step, t);
      }
    }
    hide Inv, Enabled, Next;
  }

  lemma SameOwners(q: Sys, step: Step, t: Id)
    requires Inv(q.s) && Enabled(q.s, step)
    ensures OwnsNone(MNext(q, Kernel(step)), t) <==> OwnsNone(q, t)
  {
    hide Inv, Enabled, Next;
    var r := MNext(q, Kernel(step));
    forall o
      ensures Holds(r, o, t) <==> Holds(q, o, t)
    {
    }
  }

  lemma AcquireRepaid(q: Sys, o: nat)
    requires Inv(q.s) && MEnabled(q, Acquire(o)) && Repaid(q) && AllNested(q)
    ensures Repaid(MNext(q, Acquire(o)))
  {
    var r := MNext(q, Acquire(o));
    var c := q.s.current.value;
    assert Nested(q.mtx[o]);
    assert r.s == q.s && c in q.s.info;
    hide Inv;
    forall p | p in r.mtx
      ensures p in q.mtx
      ensures r.mtx[p].lock.owner == q.mtx[p].lock.owner ||
              (p == o && !q.mtx[o].lock.locked && r.mtx[o].lock.owner == Some(c))
    {
    }
    forall t | t in r.s.info
      ensures Ranked(r, t)
    {
      assert Ranked(q, t);
      if OwnsNone(r, t) {
        forall p
          ensures !Holds(q, p, t)
        {
          assert !Holds(r, p, t);
        }
      }
    }
  }

  lemma InheritRepaid(q: Sys, o: nat)
    requires Inv(q.s) && MEnabled(q, Inherit(o)) && Repaid(q)
    ensures Repaid(MNext(q, Inherit(o)))
  {
    var m, r := q.mtx[o], MNext(q, Inherit(o));
    var p := q.s.info[q.s.current.value].priority;
    forall t | t in q.s.info
      ensures t in r.s.info && Ranked(r, t)
    {
      RaisedPair(q.s, m, t);
      assert Ranked(q, t);
      if OwnsNone(r, t) {
        forall x
          ensures !Holds(q, x, t)
        {
          assert !Holds(r, x, t);
        }
      }
      hide Inv, Raised;
      assert m.lock.owner == Some(t) ==> Holds(r, o, t);
    }
    RaisedKeys(q.s, m);
    hide Inv, Raised;
  }

  lemma RaisedKeys(s: State, m: Mtx)
    requires Inv(s) && s.current.Some? && (m.lock.owner.Some? ==> m.lock.owner.value in s.info)
    ensures Raised(s, m).info.Keys == s.info.Keys
  {
    var p := s.info[s.current.value].priority;
    if m.lock.owner.Some? && s.info[m.lock.owner.value].priority > p {
      StepKeys(s, DoSetPriority(m.lock.owner.value, p));
    }
    hide Inv, Next;
  }

  /** Inheritance lowers the owner's number to the asker's if it is larger, and touches nobody else. */
  lemma RaisedPair(s: State, m: Mtx, t: Id)
    requires Inv(s) && s.current.Some? && (m.lock.owner.Some? ==> m.lock.owner.value in s.info) && t in s.info
    ensures var r, p := Raised(s, m), s.info[s.current.value].priority;
            && t in r.info && r.info[t].base == s.info[t].base
            && r.info[t].priority ==
               (if m.lock.owner == Some(t) && s.info[t].priority > p then p else s.info[t].priority)
            && Core(r.info[t]) == Core(s.info[t])
  {
    var p := s.info[s.current.value].priority;
    if m.lock.owner.Some? && s.info[m.lock.owner.value].priority > p {
      PairAfter(s, DoSetPriority(m.lock.owner.value, p), t);
      StepCore(s, DoSetPriority(m.lock.owner.value, p), t);
    }
    hide Inv, Next;
  }

  /** Restoration gives the current task its base priority, and touches nobody else. */
  lemma RestoredPair(s: State, t: Id)
    requires Inv(s) && s.current.Some? && t in s.info
    ensures var r := Restored(s);
            && t in r.info && r.info[t].base == s.info[t].base
            && r.info[t].priority == (if s.current == Some(t) then s.info[t].base else s.info[t].priority)
            && Core(r.info[t]) == Core(s.info[t])
  {
    var c := s.current.value;
    if s.info[c].priority != s.info[c].base {
      PairAfter(s, DoSetPriority(c, s.info[c].base), t);
      StepCore(s, DoSetPriority(c, s.info[c].base), t);
    }
    hide Inv, Next;
  }

  lemma RestoredKeys(s: State)
    requires Inv(s) && s.current.Some?
    ensures Restored(s).info.Keys == s.info.Keys
  {
    var c := s.current.value;
    if s.info[c].priority != s.info[c].base {
      StepKeys(s, DoSetPriority(c, s.info[c].base));
    }
    hide Inv, Next;
  }

  /** The two kernel parts of a release, together. */
  ghost function Released(s: State, o: nat): (r: State)
    requires Inv(s) && s.current.Some?
    ensures Inv(r)
  {
    Next(Restored(s), DoUnblockOne(Mutex, o, Ok))
  }

  lemma ReleasedPair(s: State, o: nat, t: Id)
    requires Inv(s) && s.current.Some? && t in s.info
    ensures var r := Released(s, o);
            && t in r.info && r.info[t].base == s.info[t].base
            && r.info[t].priority == if s.current == Some(t) then s.info[t].base else s.info[t].priority
    ensures Released(s, o).info.Keys == s.info.Keys
  {
    RestoredPair(s, t);
    RestoredKeys(s);
    PairAfter(Restored(s), DoUnblockOne(Mutex, o, Ok), t);
    StepKeys(Restored(s), DoUnblockOne(Mutex, o, Ok));
    hide Inv, Next, Restored;
  }

  lemma UnlockRepaid(q: Sys, o: nat)
    requires Inv(q.s) && MEnabled(q, Release(o)) && Repaid(q)
    ensures Repaid(MNext(q, Release(o)))
  {
    hide Inv, Next, Restored, Woke;
    var r := MNext(q, Release(o));
    var c := q.s.current.value;
    ReleasedPair(q.s, o, c);
    forall t | t in r.s.info
      ensures t in q.s.info && Ranked(r, t)
    {
      if Releases(q.mtx[o].lock) {
        assert t in q.s.info;
        ReleasedPair(q.s, o, t);
      }
      assert Ranked(q, t);
      if OwnsNone(r, t) && t != c {
        forall x
          ensures !Holds(q, x, t)
        {
          assert !Holds(r, x, t);
        }
      }
      if t == c && !Releases(q.mtx[o].lock) {
        assert Holds(r, o, c);
      }
    }
  }

  lemma StepRepaid(q: Sys, step: MStep)
    requires Inv(q.s) && MEnabled(q, step) && Repaid(q) && AllNested(q) && NoSetPriority(step)
    ensures Repaid(MNext(q, step))
  {
    match step
    case Kernel(st) => KernelRepaid(q, st);
    case Acquire(o) => AcquireRepaid(q, o);
    case Inherit(o) => InheritRepaid(q, o);
    case Release(o) => UnlockRepaid(q, o);
  }

  predicate NeverSetPriority(steps: seq<MStep>) {
    forall x :: x in steps ==> NoSetPriority(x)
  }

  /** Over all runs, nested mutexes included: what is borrowed is always repaid. */
  lemma {:induction false} RunRepaid(q: Sys, steps: seq<MStep>)
    requires Inv(q.s) && MRun(q, steps) && NeverSetPriority(steps) && Repaid(q) && AllNested(q)
    ensures Repaid(MAfter(q, steps)) && AllNested(MAfter(q, steps))
    decreases |steps|
  {
    hide Inv, MNext, MEnabled, Repaid, AllNested;
    if steps != [] {
      assert steps[0] in steps && forall x :: x in steps[1..] ==> x in steps;
      StepNested(q, steps[0]);
      StepRepaid(q, steps[0]);
      RunRepaid(MNext(q, steps[0]), steps[1..]);
    }
  }

  /** Mutexes all free, every task at its base. */
  ghost predicate Fresh(q: Sys) {
    && (forall t :: t in q.s.info ==> q.s.info[t].priority == q.s.info[t].base)
    && (forall o :: o in q.mtx ==> q.mtx[o] == Mtx(Free(q.mtx[o].lock.recursive), 0, 0, [], {}, {}))
  }

  lemma FreshRepaid(q: Sys)
    requires Fresh(q)
    ensures Repaid(q) && AllNested(q)
  {
  }

  /** From free mutexes and unborrowed priorities on, whatever is borrowed is repaid. */
  lemma AlwaysRepaid(q: Sys, steps: seq<MStep>, t: Id)
    requires Inv(q.s) && Fresh(q) && MRun(q, steps) && NeverSetPriority(steps)
    requires t in MAfter(q, steps).s.info
    ensures var r := MAfter(q, steps);
            && r.s.info[t].priority <= r.s.info[t].base
            && (OwnsNone(r, t) ==> r.s.info[t].priority == r.s.info[t].base)
  {
    FreshRepaid(q);
    RunRepaid(q, steps);
    assert Ranked(MAfter(q, steps), t);
  }

  /**
   * The unlock that gives a mutex up puts its owner at the base priority, which nothing but
   * creation sets: a priority given to the owner by task_set_priority is lost unless it was
   * the base priority.
   */
  lemma ReleaseForgets(q: Sys, o: nat, p: Prio)
    requires Inv(q.s) && MEnabled(q, Release(o)) && Releases(q.mtx[o].lock)
    ensures var c := q.s.current.value; var ranked := Kernel(DoSetPriority(c, p));
            && MEnabled(q, ranked) && MEnabled(MNext(q, ranked), Release(o))
            && var r := MNext(MNext(q, ranked), Release(o));
               && c in r.s.info && r.s.info[c].priority == q.s.info[c].base
               && (r.s.info[c].priority == p <==> p == q.s.info[c].base)
  {
    var c := q.s.current.value;
    var step := DoSetPriority(c, p);
    var q1 := MNext(q, Kernel(step));
    PairAfter(q.s, step, c);
    StepCore(q.s, step, c);
    assert q1.s.current == q.s.current && q1.mtx[o].lock == q.mtx[o].lock;
    ReleasedPair(q1.s, o, c);
    assert MNext(q1, Release(o)).s == Released(q1.s, o);
    hide Inv, Next, Restored;
  }

  /**
   * task_set_priority changes a task's priority but not its base priority. It leaves the
   * books balanced exactly when the new priority is one the task could have borrowed.
   */
  lemma SetPriorityRepaid(q: Sys, t: Id, p: Prio)
    requires Inv(q.s) && Repaid(q) && t in q.s.info
    ensures MEnabled(q, Kernel(DoSetPriority(t, p)))
    ensures Repaid(MNext(q, Kernel(DoSetPriority(t, p)))) <==>
            p <= q.s.info[t].base && (OwnsNone(q, t) ==> p == q.s.info[t].base)
  {
    var step := DoSetPriority(t, p);
    var r := MNext(q, Kernel(step));
    StepKeys(q.s, step);
    SameOwners(q, step, t);
    PairAfter(q.s, step, t);
    assert Ranked(r, t) <==> p <= q.s.info[t].base && (OwnsNone(q, t) ==> p == q.s.info[t].base);
    forall u | u in r.s.info && u != t
      ensures Ranked(r, u)
    {
      PairAfter(q.s, step, u);
      SameOwners(q, step, u);
      assert Ranked(q, u);
    }
    hide Inv, Enabled, Next, Ranked;
  }
}
