/** No mutex is left free with tasks still blocked on it and nobody on the way to take it. */
module MutexWaiters {
  import opened Types
  import opened SchedSpec
  import opened SchedInv
  import opened SchedRuns
  import opened TaskLaws
  import opened Waiting
  import opened MutexSpec
  import opened MutexRuns

  /**
   * While mutex o is free and tasks are blocked on it, some task has been woken from it and
   * has not retried; and every such task can run.
   */
  ghost predicate Attended(q: Sys, o: nat)
    requires Inv(q.s) && o in q.mtx
  {
    && (!q.mtx[o].lock.locked && Waiters(q.s, Mutex, o) != {} ==> q.mtx[o].due != {})
    && CanRun(q.s, q.mtx[o].due)
  }

  ghost predicate NobodyStranded(q: Sys)
    requires Inv(q.s)
  {
    forall o {:trigger Attended(q, o)} :: o in q.mtx ==> Attended(q, o)
  }

  ghost predicate Owes(q: Sys, t: Id) {
    exists o :: o in q.mtx && t in q.mtx[o].due
  }

  /**
   * A task blocks on a mutex only while it is locked; a task woken from a mutex retries
   * before it blocks anywhere, and is not suspended or deleted meanwhile.
   */
  ghost predicate Disciplined(q: Sys, step: MStep) {
    match step
    case Kernel(DoBlock(reason, obj, _)) =>
      && (q.s.current.Some? ==> !Owes(q, q.s.current.value))
      && (reason == Mutex && obj in q.mtx ==> q.mtx[obj].lock.locked)
    case Kernel(DoRetire(t, _)) => !Owes(q, t)
    case _ => true
  }

  lemma KernelAttended(q: Sys, step: Step, o: nat)
    requires Inv(q.s) && Enabled(q.s, step) && o in q.mtx && Attended(q, o) && Disciplined(q, Kernel(step))
    ensures Attended(MNext(q, Kernel(step)), o)
  {
    hide Inv, Enabled, Next, Waiters;
    var r := MNext(q, Kernel(step));
    StepWaiters(q.s, step, Mutex, o);
    forall t | t in q.mtx[o].due
      ensures t in r.s.info && r.s.info[t].Runnable()
    {
      assert Owes(q, t);
      StepRunnable(q.s, step, t);
    }
  }

  lemma AcquireAttended(q: Sys, o: nat, x: nat)
    requires Inv(q.s) && MEnabled(q, Acquire(o)) && x in q.mtx && Attended(q, x)
    ensures Attended(MNext(q, Acquire(o)), x)
  {
    hide Inv, Waiters;
  }

  lemma InheritAttended(q: Sys, o: nat, x: nat)
    requires Inv(q.s) && MEnabled(q, Inherit(o)) && x in q.mtx && Attended(q, x)
    ensures Attended(MNext(q, Inherit(o)), x)
  {
    var m, r := q.mtx[o], MNext(q, Inherit(o));
    RaisedWaiters(q.s, m, x);
    hide Inv, Waiters, Raised;
    forall t | t in q.mtx[x].due
      ensures t in r.s.info && r.s.info[t].Runnable()
    {
      RaisedPair(q.s, m, t);
    }
  }

  lemma RaisedWaiters(s: State, m: Mtx, x: nat)
    requires Inv(s) && s.current.Some? && (m.lock.owner.Some? ==> m.lock.owner.value in s.info)
    ensures Waiters(Raised(s, m), Mutex, x) <= Waiters(s, Mutex, x)
  {
    var p := s.info[s.current.value].priority;
    if m.lock.owner.Some? && s.info[m.lock.owner.value].priority > p {
      StepWaiters(s, DoSetPriority(m.lock.owner.value, p), Mutex, x);
    }
    hide Inv, Next, Waiters;
  }

  lemma RestoredWaiters(s: State, x: nat)
    requires Inv(s) && s.current.Some?
    ensures Waiters(Restored(s), Mutex, x) <= Waiters(s, Mutex, x)
  {
    var c := s.current.value;
    if s.info[c].priority != s.info[c].base {
      StepWaiters(s, DoSetPriority(c, s.info[c].base), Mutex, x);
    }
    hide Inv, Next, Waiters;
  }

  /** A release adds no waiter anywhere, and wakes one of its own mutex if there is any. */
  lemma ReleasedWaiters(s: State, o: nat, x: nat)
    requires Inv(s) && s.current.Some?
    ensures Waiters(Released(s, o), Mutex, x) <= Waiters(s, Mutex, x)
    ensures Waiters(Released(s, o), Mutex, o) != {} ==> Woke(Restored(s), Mutex, o) != {}
    ensures CanRun(Released(s, o), Woke(Restored(s), Mutex, o))
  {
    hide Waiters, Restored, UnblockOne, Chosen;
    var s1 := Restored(s);
    assert Sane(s1) && Released(s, o) == UnblockOne(s1, Mutex, o, Ok);
    hide Inv, Released;
    RestoredWaiters(s, x);
    WokenRuns(s1, Mutex, o, {});
    UnblockOneWaiters(s1, Mutex, o, Ok);
    ChosenIff(s1, Mutex, o);
    assert {} + Woke(s1, Mutex, o) == Woke(s1, Mutex, o);
  }

  lemma ReleaseAttended(q: Sys, o: nat, x: nat)
    requires Inv(q.s) && MEnabled(q, Release(o)) && Releases(q.mtx[o].lock) && x in q.mtx && Attended(q, x)
    ensures Attended(MNext(q, Release(o)), x)
  {
    var r := MNext(q, Release(o));
    assert r.s == Released(q.s, o);
    hide Inv, Waiters, Restored, Next, Released, Woke;
    ReleasedWaiters(q.s, o, x);
    forall t | t in q.mtx[x].due
      ensures t in r.s.info && r.s.info[t].Runnable()
    {
      ReleasedRunnable(q.s, o, t);
    }
  }

  lemma ReleasedRunnable(s: State, o: nat, t: Id)
    requires Inv(s) && s.current.Some? && t in s.info && s.info[t].Runnable()
    ensures t in Released(s, o).info && Released(s, o).info[t].Runnable()
  {
    RestoredPair(s, t);
    StepCore(Restored(s), DoUnblockOne(Mutex, o, Ok), t);
    hide Inv, Next, Restored;
  }

  lemma StepStranded(q: Sys, step: MStep)
    requires Inv(q.s) && MEnabled(q, step) && NobodyStranded(q) && Disciplined(q, step)
    ensures NobodyStranded(MNext(q, step))
  {
    hide Inv, Attended, Disciplined;
    var r := MNext(q, step);
    forall o | o in r.mtx
      ensures Attended(r, o)
    {
      assert Attended(q, o);
      match step
      case Kernel(st) => KernelAttended(q, st, o);
      case Acquire(x) => AcquireAttended(q, x, o);
      case Inherit(x) => InheritAttended(q, x, o);
      case Release(x) =>
        if Releases(q.mtx[x].lock) {
          ReleaseAttended(q, x, o);
        } else {
          NestedAttended(q, x, o);
        }
    }
  }

  lemma NestedAttended(q: Sys, o: nat, x: nat)
    requires Inv(q.s) && MEnabled(q, Release(o)) && !Releases(q.mtx[o].lock) && x in q.mtx && Attended(q, x)
    ensures Attended(MNext(q, Release(o)), x)
  {
    hide Inv, Waiters, Next, Restored, Woke;
  }

  ghost predicate DisciplinedRun(q: Sys, steps: seq<MStep>)
    requires Inv(q.s) && MRun(q, steps)
    decreases |steps|
  {
    steps == [] || (Disciplined(q, steps[0]) && DisciplinedRun(MNext(q, steps[0]), steps[1..]))
  }

  lemma {:induction false} RunStranded(q: Sys, steps: seq<MStep>)
    requires Inv(q.s) && MRun(q, steps) && DisciplinedRun(q, steps) && NobodyStranded(q)
    ensures NobodyStranded(MAfter(q, steps))
    decreases |steps|
  {
    hide Inv, MNext, MEnabled, NobodyStranded, Disciplined;
    if steps != [] {
      StepStranded(q, steps[0]);
      RunStranded(MNext(q, steps[0]), steps[1..]);
    }
  }

  /** From free mutexes that nobody is blocked on, no disciplined run strands a waiter. */
  lemma MutexesAttended(q: Sys, steps: seq<MStep>)
    requires Inv(q.s) && Fresh(q) && forall o :: o in q.mtx ==> Waiters(q.s, Mutex, o) == {}
    requires MRun(q, steps) && DisciplinedRun(q, steps)
    ensures NobodyStranded(MAfter(q, steps))
  {
    assert NobodyStranded(q);
    RunStranded(q, steps);
  }

  /**
   * A lock attempt that fails, whose mutex is then released, and that only then blocks: the
   * waiter is attended to exactly when somebody else has been woken and has yet to retry.
   */
  lemma LateBlock(q: Sys, o: nat, timeout: U32)
    requires Inv(q.s) && o in q.mtx && Attended(q, o) && !q.mtx[o].lock.locked
    requires CanCall(q.s) && !Owes(q, q.s.current.value)
    ensures var step := Kernel(DoBlock(Mutex, o, timeout));
            MEnabled(q, step) && o in MNext(q, step).mtx && (Attended(MNext(q, step), o) <==> q.mtx[o].due != {})
  {
    var step := DoBlock(Mutex, o, timeout);
    var c, r := q.s.current.value, MNext(q, Kernel(step));
    StepCore(q.s, step, c);
    WaitersAre(r.s, Mutex, o);
    hide Inv, Next, Enabled, Waiters;
    assert c in Waiters(r.s, Mutex, o);
    forall t | t in q.mtx[o].due
      ensures t in r.s.info && r.s.info[t].Runnable()
    {
      assert Owes(q, t);
      StepRunnable(q.s, step, t);
    }
  }
}
