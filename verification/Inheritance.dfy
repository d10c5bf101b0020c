/** How exact priority inheritance is, and when it falls short. */
module Inheritance {
  import opened Types
  import opened Seqs
  import opened SchedSpec
  import opened SchedInv
  import opened SchedRuns
  import opened TaskLaws
  import opened Waiting
  import opened MutexSpec
  import opened MutexRuns
  import P = Preemption
  import WakeLaws

  /** The best of a base priority and of those that asked. */
  function Least(base: nat, asked: seq<Prio>): (p: nat)
    ensures p <= base
  {
    if asked == [] then base
    else
      var p, a := Least(base, asked[..|asked| - 1]), asked[|asked| - 1];
      if a < p then a else p
  }

  lemma LeastNext(base: nat, asked: seq<Prio>, a: Prio)
    ensures var p := Least(base, asked); Least(base, asked + [a]) == if a < p then a else p
  {
    assert (asked + [a])[..|asked|] == asked;
  }

  /** The owner's priority is its base priority or the best of those who asked during this ownership. */
  ghost predicate Exact(q: Sys, o: nat)
    requires o in q.mtx
  {
    q.mtx[o].lock.owner.Some? ==>
      var w := q.mtx[o].lock.owner.value;
      w in q.s.info && q.s.info[w].priority == Least(q.s.info[w].base, q.mtx[o].asked)
  }

  /** The owner does not rank below the base of any task that asked. */
  ghost predicate Lent(q: Sys, o: nat)
    requires o in q.mtx
  {
    q.mtx[o].lock.owner.Some? ==>
      var w := q.mtx[o].lock.owner.value;
      w in q.s.info && forall t :: t in q.mtx[o].askers ==> t in q.s.info && q.s.info[w].priority <= q.s.info[t].base
  }

  ghost predicate OneEach(q: Sys) {
    forall x, y, t :: Holds(q, x, t) && Holds(q, y, t) ==> x == y
  }

  /** Tasks blocked on a mutex own none. */
  ghost predicate WaiterFree(q: Sys, t: Id) {
    t in q.s.info && q.s.info[t].state == Blocked && q.s.info[t].reason == Mutex && q.s.info[t].obj in q.mtx ==>
      OwnsNone(q, t)
  }

  ghost predicate Exactly(q: Sys) {
    && Repaid(q) && AllNested(q) && OneEach(q)
    && (forall o {:trigger Exact(q, o)} {:trigger Lent(q, o)} :: o in q.mtx ==> Exact(q, o) && Lent(q, o))
    && (forall t {:trigger WaiterFree(q, t)} :: WaiterFree(q, t))
  }

  /** Each task holds at most one mutex and never waits while holding one; set-priority is unused. */
  ghost predicate Single(q: Sys, step: MStep)
    requires Inv(q.s) && MEnabled(q, step)
  {
    match step
    case Kernel(DoSetPriority(_, _)) => false
    case Kernel(DoCreate(t, _)) => OwnsNone(q, t)
    case Kernel(DoBlock(reason, obj, _)) =>
      reason == Mutex && obj in q.mtx && q.s.current.Some? ==> OwnsNone(q, q.s.current.value)
    case Acquire(o) => forall x :: Holds(q, x, q.s.current.value) ==> x == o
    case Inherit(o) => OwnsNone(q, q.s.current.value)
    case _ => true
  }

  // ---- Kernel steps ----

  lemma KernelOwner(q: Sys, step: Step, o: nat)
    requires Inv(q.s) && Enabled(q.s, step) && Exactly(q) && Single(q, Kernel(step)) && o in q.mtx
    ensures Exact(MNext(q, Kernel(step)), o) && Lent(MNext(q, Kernel(step)), o)
  {
    hide Inv, Enabled, Next;
    assert Exact(q, o) && Lent(q, o);
    var r := MNext(q, Kernel(step));
    if q.mtx[o].lock.owner.Some? {
      var w := q.mtx[o].lock.owner.value;
      assert Holds(q, o, w);
      PairAfter(q.s, step, w);
      forall t | t in r.mtx[o].askers
        ensures t in r.s.info && r.s.info[w].priority <= r.s.info[t].base
      {
        PairAfter(q.s, step, t);
      }
    }
  }

  lemma KernelWaiterFree(q: Sys, step: Step, t: Id)
    requires Inv(q.s) && Enabled(q.s, step) && Exactly(q) && Single(q, Kernel(step))
    ensures WaiterFree(MNext(q, Kernel(step)), t)
  {
    hide Inv, Enabled, Next;
    var r := MNext(q, Kernel(step));
    SameOwners(q, step, t);
    assert WaiterFree(q, t);
    if t in r.s.info && r.s.info[t].state == Blocked && r.s.info[t].reason == Mutex {
      var o := r.s.info[t].obj;
      WaitersAre(r.s, Mutex, o);
      WaitersAre(q.s, Mutex, o);
      assert t in Waiters(r.s, Mutex, o);
      WaiterSource(q.s, step, Mutex, o, t);
    }
  }

  lemma KernelExactly(q: Sys, step: Step)
    requires Inv(q.s) && Enabled(q.s, step) && Exactly(q) && Single(q, Kernel(step))
    ensures Exactly(MNext(q, Kernel(step)))
  {
    var r := MNext(q, Kernel(step));
    KernelRepaid(q, step);
    StepNested(q, Kernel(step));
    hide Inv, Enabled, Next, Repaid, AllNested, Single;
    forall o | o in r.mtx
      ensures Exact(r, o) && Lent(r, o)
    {
      KernelOwner(q, step, o);
    }
    forall t
      ensures WaiterFree(r, t)
    {
      KernelWaiterFree(q, step, t);
    }
    assert OneEach(r) by {
      forall x, y, t | Holds(r, x, t) && Holds(r, y, t)
        ensures x == y
      {
        assert Holds(q, x, t) && Holds(q, y, t);
      }
    }
  }

  // ---- Steps of the mutex calls ----

  lemma AcquireExactly(q: Sys, o: nat)
    requires Inv(q.s) && MEnabled(q, Acquire(o)) && Exactly(q) && Single(q, Acquire(o))
    ensures Exactly(MNext(q, Acquire(o)))
  {
    var r := MNext(q, Acquire(o));
    var c := q.s.current.value;
    AcquireRepaid(q, o);
    StepNested(q, Acquire(o));
    assert Nested(q.mtx[o]) && Ranked(q, c);
    assert !q.mtx[o].lock.locked ==> OwnsNone(q, c);
    hide Inv, Repaid, AllNested, Ranked;
    forall x | x in r.mtx
      ensures Exact(r, x) && Lent(r, x)
    {
      assert Exact(q, x) && Lent(q, x);
    }
    forall t
      ensures WaiterFree(r, t)
    {
      assert WaiterFree(q, t);
      assert t != c ==> (OwnsNone(q, t) ==> OwnsNone(r, t)) by {
        assert forall x :: t != c && Holds(r, x, t) ==> Holds(q, x, t);
      }
    }
    assert OneEach(r) by {
      forall x, y, t | Holds(r, x, t) && Holds(r, y, t)
        ensures x == y
      {
        assert Holds(q, x, t) || (x == o && t == c);
        assert Holds(q, y, t) || (y == o && t == c);
      }
    }
  }

  lemma InheritOwner(q: Sys, o: nat, x: nat)
    requires Inv(q.s) && MEnabled(q, Inherit(o)) && Exactly(q) && Single(q, Inherit(o)) && x in q.mtx
    ensures Exact(MNext(q, Inherit(o)), x) && Lent(MNext(q, Inherit(o)), x)
  {
    var r := MNext(q, Inherit(o));
    var c, m := q.s.current.value, q.mtx[o];
    assert MutexRuns.Ranked(q, c);
    assert Exact(q, x) && Lent(q, x);
    hide Inv, Repaid, AllNested, Raised, MutexRuns.Ranked, Least;
    if q.mtx[x].lock.owner.Some? {
      var w := q.mtx[x].lock.owner.value;
      assert Holds(q, x, w);
      assert m.lock.owner == Some(w) ==> Holds(q, o, w);
      LeastNext(q.s.info[w].base, q.mtx[x].asked, q.s.info[c].priority);
      RaisedPair(q.s, m, w);
      forall t | t in r.mtx[x].askers
        ensures t in r.s.info && r.s.info[w].priority <= r.s.info[t].base
      {
        RaisedPair(q.s, m, t);
      }
    }
  }

  lemma InheritExactly(q: Sys, o: nat)
    requires Inv(q.s) && MEnabled(q, Inherit(o)) && Exactly(q) && Single(q, Inherit(o))
    ensures Exactly(MNext(q, Inherit(o)))
  {
    var r := MNext(q, Inherit(o));
    var c, m := q.s.current.value, q.mtx[o];
    InheritRepaid(q, o);
    StepNested(q, Inherit(o));
    RaisedKeys(q.s, m);
    hide Inv, Repaid, AllNested, Raised;
    assert forall x, t :: Holds(r, x, t) <==> Holds(q, x, t);
    forall x | x in r.mtx
      ensures Exact(r, x) && Lent(r, x)
    {
      InheritOwner(q, o, x);
    }
    forall t
      ensures WaiterFree(r, t)
    {
      assert WaiterFree(q, t);
      if t in q.s.info {
        RaisedPair(q.s, m, t);
      }
    }
  }

  /** A release lets go of the owner and of one waiter; who is blocked after it was blocked before. */
  lemma ReleasedBlocked(s: State, o: nat, t: Id)
    requires Inv(s) && s.current.Some? && t in s.info
    ensures t in Released(s, o).info
    ensures var a, b := s.info[t], Released(s, o).info[t];
            && (b.state == Blocked ==> a.state == Blocked && b.reason == a.reason && b.obj == a.obj)
            && (a.Runnable() ==> b.Runnable())
  {
    RestoredPair(s, t);
    StepCore(Restored(s), DoUnblockOne(Mutex, o, Ok), t);
    hide Inv, Next, Restored;
  }

  lemma ReleaseOwner(q: Sys, o: nat, x: nat)
    requires Inv(q.s) && MEnabled(q, Release(o)) && Exactly(q) && x in q.mtx
    ensures Exact(MNext(q, Release(o)), x) && Lent(MNext(q, Release(o)), x)
  {
    var r := MNext(q, Release(o));
    assert r.s == if Releases(q.mtx[o].lock) then Released(q.s, o) else q.s;
    assert Exact(q, x) && Lent(q, x);
    assert Holds(q, o, q.s.current.value);
    hide Inv, Next, Repaid, AllNested, Restored, Released, Woke, Least, WaiterFree;
    if r.mtx[x].lock.owner.Some? {
      var w := r.mtx[x].lock.owner.value;
      assert Holds(q, x, w);
      ReleasedPair(q.s, o, w);
      forall t | t in r.mtx[x].askers
        ensures t in r.s.info && r.s.info[w].priority <= r.s.info[t].base
      {
        ReleasedPair(q.s, o, t);
      }
    }
  }

  lemma ReleaseWaiterFree(q: Sys, o: nat, t: Id)
    requires Inv(q.s) && MEnabled(q, Release(o)) && WaiterFree(q, t)
    ensures WaiterFree(MNext(q, Release(o)), t)
  {
    assert q.s.current.value in q.s.info;
    hide Inv, Next, Restored, Woke;
    var r := MNext(q, Release(o));
    assert r.s == if Releases(q.mtx[o].lock) then Released(q.s, o) else q.s;
    hide Released;
    assert forall x :: Holds(r, x, t) ==> Holds(q, x, t);
    ReleasedPair(q.s, o, q.s.current.value);
    if t in q.s.info {
      ReleasedBlocked(q.s, o, t);
    }
  }

  lemma ReleaseExactly(q: Sys, o: nat)
    requires Inv(q.s) && MEnabled(q, Release(o)) && Exactly(q)
    ensures Exactly(MNext(q, Release(o)))
  {
    hide Inv, Next, Repaid, AllNested, Restored, Woke, Exact, Lent, WaiterFree;
    var r := MNext(q, Release(o));
    UnlockRepaid(q, o);
    StepNested(q, Release(o));
    assert forall x, t :: Holds(r, x, t) ==> Holds(q, x, t);
    forall x | x in r.mtx
      ensures Exact(r, x) && Lent(r, x)
    {
      ReleaseOwner(q, o, x);
    }
    forall t
      ensures WaiterFree(r, t)
    {
      ReleaseWaiterFree(q, o, t);
    }
  }

  lemma StepExactly(q: Sys, step: MStep)
    requires Inv(q.s) && MEnabled(q, step) && Exactly(q) && Single(q, step)
    ensures Exactly(MNext(q, step))
  {
    match step
    case Kernel(st) => KernelExactly(q, st);
    case Acquire(o) => AcquireExactly(q, o);
    case Inherit(o) => InheritExactly(q, o);
    case Release(o) => ReleaseExactly(q, o);
  }

  ghost predicate SingleRun(q: Sys, steps: seq<MStep>)
    requires Inv(q.s) && MRun(q, steps)
    decreases |steps|
  {
    steps == [] || (Single(q, steps[0]) && SingleRun(MNext(q, steps[0]), steps[1..]))
  }

  lemma {:induction false} RunExactly(q: Sys, steps: seq<MStep>)
    requires Inv(q.s) && MRun(q, steps) && SingleRun(q, steps) && Exactly(q)
    ensures Exactly(MAfter(q, steps))
    decreases |steps|
  {
    hide Inv, MNext, MEnabled, Exactly, Single;
    if steps != [] {
      StepExactly(q, steps[0]);
      RunExactly(MNext(q, steps[0]), steps[1..]);
    }
  }

  lemma FreshExactly(q: Sys)
    requires Fresh(q) && forall t :: t in q.s.info ==> q.s.info[t].state != Blocked
    ensures Exactly(q)
  {
    FreshRepaid(q);
  }

  /** The main result: an owner never ranks below a task that asked during its ownership and waits still. */
  lemma OwnerNeverBelow(q: Sys, steps: seq<MStep>, o: nat, t: Id)
    requires Inv(q.s) && Fresh(q) && forall u :: u in q.s.info ==> q.s.info[u].state != Blocked
    requires MRun(q, steps) && SingleRun(q, steps)
    requires var r := MAfter(q, steps);
             o in r.mtx && r.mtx[o].lock.locked && t in Waiters(r.s, Mutex, o) && t in r.mtx[o].askers
    ensures var r := MAfter(q, steps);
            && r.mtx[o].lock.owner.Some? && r.mtx[o].lock.owner.value in r.s.info && t in r.s.info
            && r.s.info[r.mtx[o].lock.owner.value].priority <= r.s.info[t].priority
            && Exact(r, o)
  {
    FreshExactly(q);
    RunExactly(q, steps);
    var r := MAfter(q, steps);
    assert Nested(r.mtx[o]) && Exact(r, o) && Lent(r, o) && WaiterFree(r, t);
    WaitersAre(r.s, Mutex, o);
    assert Ranked(r, t);
    hide Inv, MAfter, MRun, SingleRun;
  }

  /**
   * What inheritance is for: while the owner can run, nothing ranked below a waiter that asked
   * runs in its stead, right after any switch, and whenever no better ready task is overlooked
   * and no switch is pending.
   */
  lemma InversionBounded(q: Sys, steps: seq<MStep>, o: nat, t: Id)
    requires Inv(q.s) && Fresh(q) && forall u :: u in q.s.info ==> q.s.info[u].state != Blocked
    requires MRun(q, steps) && SingleRun(q, steps)
    requires var r := MAfter(q, steps);
             && o in r.mtx && r.mtx[o].lock.locked && t in Waiters(r.s, Mutex, o) && t in r.mtx[o].askers
             && forall w :: r.mtx[o].lock.owner == Some(w) && w in r.s.info ==> r.s.info[w].Runnable()
    ensures var s := PendSV(MAfter(q, steps).s);
            && s.current.Some? && s.current.value in s.info && t in s.info
            && s.info[s.current.value].priority <= s.info[t].priority
    ensures var s := MAfter(q, steps).s;
            s.current.Some? && P.NoGap(s) && !s.pending ==>
              s.current.value in s.info && s.info[s.current.value].priority <= s.info[t].priority
  {
    OwnerNeverBelow(q, steps, o, t);
    var r := MAfter(q, steps);
    var w := r.mtx[o].lock.owner.value;
    assert r.s.info[w].Runnable() && Sane(r.s);
    hide MAfter, MRun, SingleRun;
    RunsNoLower(r.s, w);
  }

  /** The next task, and the current one when nothing is overlooked, ranks no lower than any runnable task. */
  lemma RunsNoLower(s: State, w: Id)
    requires Inv(s) && w in s.info && s.info[w].Runnable()
    ensures GetNext(s).Some? && GetNext(s).value in s.info && s.info[GetNext(s).value].priority <= s.info[w].priority
    ensures s.current.Some? && P.NoGap(s) && !s.pending ==> s.info[s.current.value].priority <= s.info[w].priority
  {
    NextIsFront(s);
    hide Inv, GetNext;
    assert GetNext(s) == Some(GetNext(s).value);
    assert s.current.Some? && s.info[w].priority < s.info[s.current.value].priority ==> P.Outranks(s, w);
  }

  // ---- Where inheritance falls short ----

  /**
   * Inherit compares and raises with nothing in between, which the source does not ensure.
   * A raise of the owner to p that comes late, as a step of its own, gives it the best of its
   * base priority and of those who asked, p among them, exactly when it still does not rank
   * above p; and what earlier askers lent stays with it exactly when none of them ranks above p.
   */
  lemma LateRaise(q: Sys, o: nat, w: Id, p: Prio)
    requires Inv(q.s) && o in q.mtx && q.mtx[o].lock.owner == Some(w) && Exact(q, o)
    ensures MEnabled(q, Kernel(DoSetPriority(w, p)))
    ensures var r := MNext(q, Kernel(DoSetPriority(w, p)));
            && w in r.s.info
            && (r.s.info[w].priority == Least(r.s.info[w].base, q.mtx[o].asked + [p]) <==> p <= q.s.info[w].priority)
            && (Lent(q, o) ==>
                  (Lent(r, o) <==> forall t :: t in q.mtx[o].askers && t in r.s.info ==> p <= r.s.info[t].base))
  {
    hide Inv, Next, Least;
    var step := DoSetPriority(w, p);
    PairAfter(q.s, step, w);
    StepKeys(q.s, step);
    LeastNext(q.s.info[w].base, q.mtx[o].asked, p);
    assert MNext(q, Kernel(step)).mtx[o] == q.mtx[o];
  }

  /**
   * A task that holds two mutexes and releases one drops to its base priority: what it
   * inherited through the other survives exactly when there was nothing to inherit.
   */
  lemma NestedReleaseDrops(q: Sys, o: nat, kept: nat)
    requires Inv(q.s) && MEnabled(q, Release(o)) && Releases(q.mtx[o].lock) && o != kept
    requires kept in q.mtx && q.mtx[kept].lock.owner == q.s.current && Exact(q, kept)
    ensures kept in MNext(q, Release(o)).mtx
    ensures Exact(MNext(q, Release(o)), kept) <==>
            Least(q.s.info[q.s.current.value].base, q.mtx[kept].asked) == q.s.info[q.s.current.value].base
  {
    var c := q.s.current.value;
    ReleasedPair(q.s, o, c);
    assert MNext(q, Release(o)).s == Released(q.s, o);
    hide Inv, Next, Restored, Least, Woke;
  }

  /** Whether the waiter that unblock_one picks outranks the current task. */
  predicate PicksBetter(s: State, obj: nat)
    requires Sane(s)
  {
    var b := Chosen(s, Mutex, obj);
    b.Some? && b.value in s.info && s.current.Some? && s.info[b.value].priority < s.info[s.current.value].priority
  }

  lemma PickPends(s: State, obj: nat)
    requires Inv(s)
    ensures var r := UnblockOne(s, Mutex, obj, Ok);
            r.current == s.current && (r.pending <==> s.pending || PicksBetter(s, obj))
  {
    ChosenIff(s, Mutex, obj);
    hide Inv, Keep, Drop, Best;
  }

  lemma PickOutranks(s: State, obj: nat, t: Id)
    requires Inv(s)
    ensures var r := UnblockOne(s, Mutex, obj, Ok);
            && Sane(r)
            && (P.Outranks(r, t) <==> P.Outranks(s, t) || (Chosen(s, Mutex, obj) == Some(t) && PicksBetter(s, obj)))
  {
    PickPends(s, obj);
    ChosenIff(s, Mutex, obj);
    var b := Chosen(s, Mutex, obj);
    if b.Some? {
      OneWoken(s, Mutex, obj, Ok, b.value);
    }
    hide Inv, UnblockOne, Chosen;
  }

  /** Waking one waiter of a mutex opens no gap, and closes one only by making a switch pending. */
  lemma PickGap(s: State, obj: nat)
    requires Inv(s)
    ensures Sane(UnblockOne(s, Mutex, obj, Ok))
    ensures P.NoGap(UnblockOne(s, Mutex, obj, Ok)) <==> P.NoGap(s) || PicksBetter(s, obj)
  {
    hide UnblockOne, PicksBetter, P.Outranks;
    PickPends(s, obj);
    PickOutranks(s, obj, 0);
    var r := UnblockOne(s, Mutex, obj, Ok);
    forall t: Id
      ensures P.Outranks(r, t) <==> P.Outranks(s, t) || (Chosen(s, Mutex, obj) == Some(t) && PicksBetter(s, obj))
    {
      PickOutranks(s, obj, t);
    }
  }

  /**
   * A boosted owner that gives its mutex up returns to its base priority. No ready task is
   * then left waiting for a switch exactly when the waiter it wakes outranks that base, or
   * no other task that can run does.
   */
  lemma ReleaseGap(s: State, o: nat)
    requires Inv(s) && P.NoGap(s) && !s.pending && s.current.Some?
    requires s.info[s.current.value].state != Blocked
    requires s.info[s.current.value].priority < s.info[s.current.value].base
    ensures var c := s.current.value;
            var base, b := s.info[c].base, Chosen(s, Mutex, o);
            P.NoGap(Released(s, o)) <==>
            || (b.Some? && b.value in s.info && s.info[b.value].priority < base)
            || !exists t :: t in s.info && t != c && s.info[t].Runnable() && s.info[t].priority < base
  {
    assert s.current.value in s.info;
    var c := s.current.value;
    var base := s.info[c].base;
    assert Restored(s) == Next(s, DoSetPriority(c, base)) && Released(s, o) == UnblockOne(Restored(s), Mutex, o, Ok);
    hide Inv, Next, Restored, Released, Chosen, UnblockOne, P.NoGap, PicksBetter;
    P.LoweringGap(s, DoSetPriority(c, base));
    P.StepCurrent(s, DoSetPriority(c, base));
    PickGap(Restored(s), o);
    SamePick(s, o);
  }

  /** The waiter picked after the restoration outranks the base priority iff it did before. */
  lemma SamePick(s: State, o: nat)
    requires Inv(s) && s.current.Some? && s.info[s.current.value].state != Blocked
    ensures var base, b := s.info[s.current.value].base, Chosen(s, Mutex, o);
            && Restored(s).current == s.current
            && (PicksBetter(Restored(s), o) <==> b.Some? && b.value in s.info && s.info[b.value].priority < base)
  {
    var c := s.current.value;
    SameChoice(s, o);
    ChosenIff(s, Mutex, o);
    RestoredPair(s, c);
    if s.info[c].priority != s.info[c].base {
      P.StepCurrent(s, DoSetPriority(c, s.info[c].base));
    }
    if Chosen(s, Mutex, o).Some? {
      WaitersAre(s, Mutex, o);
      RestoredPair(s, Chosen(s, Mutex, o).value);
    }
    hide Inv, Next, Restored, Chosen;
  }

  /** Restoring a task that is not itself blocked does not change the choice among those that are. */
  lemma SameChoice(s: State, o: nat)
    requires Inv(s) && s.current.Some? && s.info[s.current.value].state != Blocked
    ensures Chosen(Restored(s), Mutex, o) == Chosen(s, Mutex, o)
  {
    var c := s.current.value;
    var base := s.info[c].base;
    assert SetPriority(s, c, base).blocked == s.blocked;
    RerankedInfo(s, c, base);
    WakeLaws.BestAgree(s.info, SetPriority(s, c, base).info, s.blocked, Mutex, o);
    hide Keep, Drop, Best, SetPriority;
  }
}
