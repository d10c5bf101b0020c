/**
 * Runs of mutexes that go wrong: what the conditions of MutexWaiters and Inheritance are
 * there to exclude. Each is a family of runs, from free mutexes on.
 */
module MutexRaces {
  import opened Types
  import opened Seqs
  import opened SchedSpec
  import opened SchedInv
  import opened SchedRuns
  import opened TaskLaws
  import opened Waiting
  import opened MutexSpec
  import opened MutexRuns
  import I = Inheritance
  import P = Preemption
  import W = MutexWaiters

  // ---- Two tasks that take turns ----

  /** a is current, and only b shares the best ready list with it. */
  ghost predicate Pair(s: State, p: Prio, a: Id, b: Id) {
    && a != b && s.current == Some(a) && s.locks == 0
    && s.ready[p] == [a, b] && forall i :: 0 <= i < p ==> s.ready[i] == []
  }

  /** A yield and the switch it asks for hand the processor over, and change nothing else. */
  lemma HandOver(s: State, p: Prio, a: Id, b: Id)
    requires Inv(s) && Pair(s, p, a, b)
    ensures var r := Next(Next(s, DoYield), DoSwitch);
            Pair(r, p, b, a) && r.info == s.info && r.blocked == s.blocked
  {
    assert ListOk(s, p) && a in s.ready[p];
    var y := Yield(s);
    assert y.ready[p] == [b] + [a];
    assert Highest(y) == p;
    hide Inv, Highest;
  }

  /** The one whose turn it is can make calls. */
  lemma PairRuns(s: State, p: Prio, a: Id, b: Id)
    requires Inv(s) && Pair(s, p, a, b)
    ensures a != b && s.current == Some(a) && a in s.info && s.info[a].Runnable()
  {
    assert ListOk(s, p) && a in s.ready[p] && b in s.ready[p];
  }

  lemma SameMutexes(q: Sys, step: Step)
    requires Inv(q.s) && Enabled(q.s, step) && !step.DoCreate?
    ensures MNext(q, Kernel(step)) == q.(s := Next(q.s, step))
  {
    assert Recreated(q.mtx, step) == q.mtx;
  }

  /** A kernel step and a switch, with the mutexes: y in between, z at the end. */
  lemma StepAndSwitch(q: Sys, x: Step) returns (y: Sys, z: Sys)
    requires Inv(q.s) && Enabled(q.s, x) && !x.DoCreate?
    ensures Leads(q, Kernel(x), y) && Leads(y, Kernel(DoSwitch), z)
    ensures z == q.(s := Next(Next(q.s, x), DoSwitch))
  {
    SameMutexes(q, x);
    y := MNext(q, Kernel(x));
    SameMutexes(y, DoSwitch);
    z := MNext(y, Kernel(DoSwitch));
    hide Inv, Next;
  }

  lemma Turn(q: Sys, p: Prio, a: Id, b: Id) returns (y: Sys, z: Sys)
    requires Inv(q.s) && Pair(q.s, p, a, b)
    ensures Leads(q, Kernel(DoYield), y) && Leads(y, Kernel(DoSwitch), z)
    ensures Inv(z.s) && Pair(z.s, p, b, a) && z.mtx == q.mtx && z.s.info == q.s.info && z.s.blocked == q.s.blocked
  {
    hide Inv, Next, MNext, Leads, Pair;
    HandOver(q.s, p, a, b);
    y, z := StepAndSwitch(q, DoYield);
  }

  /** Waiters are read off the blocked list and the records. */
  lemma SameWaiting(s: State, r: State, o: nat)
    requires s.info == r.info && s.blocked == r.blocked
    ensures Waiters(s, Mutex, o) == Waiters(r, Mutex, o)
  {
  }

  /** The owner of an uncontended mutex gives it up: the kernel state stays as it is. */
  lemma PlainRelease(q: Sys, o: nat) returns (r: Sys)
    requires Inv(q.s) && MEnabled(q, Release(o)) && Releases(q.mtx[o].lock) && Waiters(q.s, Mutex, o) == {}
    requires q.s.info[q.s.current.value].priority == q.s.info[q.s.current.value].base
    ensures Leads(q, Release(o), r) && r.s == q.s
    ensures r.mtx == q.mtx[o := Mtx(MutexSpec.Unlock(q.mtx[o].lock), 0, 0, [], {}, q.mtx[o].due)]
  {
    ChosenIff(q.s, Mutex, o);
    r := MNext(q, Release(o));
    assert Restored(q.s) == q.s;
    assert q.mtx[o].due + {} == q.mtx[o].due;
    hide Inv, Chosen, Waiters;
  }

  /** The first lock of a free mutex. */
  lemma FirstAcquire(q: Sys, o: nat) returns (r: Sys)
    requires Inv(q.s) && MEnabled(q, Acquire(o)) && !q.mtx[o].lock.locked
    ensures var m, c := q.mtx[o], q.s.current.value;
            && Leads(q, Acquire(o), r) && r.s == q.s
            && r.mtx == q.mtx[o := Mtx(Lock(true, Some(c), 1, m.lock.recursive), 1, 1, [], {}, m.due - {c})]
  {
    r := MNext(q, Acquire(o));
    hide Inv;
  }

  /** A lock attempt on a mutex that somebody else owns. */
  lemma VainAcquire(q: Sys, o: nat) returns (r: Sys)
    requires Inv(q.s) && MEnabled(q, Acquire(o)) && q.mtx[o].lock.locked && q.mtx[o].lock.owner != q.s.current
    ensures Leads(q, Acquire(o), r) && r.s == q.s
    ensures r.mtx == q.mtx[o := q.mtx[o].(due := q.mtx[o].due - {q.s.current.value})]
  {
    r := MNext(q, Acquire(o));
    hide Inv;
  }

  // ---- A waiter that nobody attends to ----

  /**
   * A lock attempt fails, the owner releases, and only then the task blocks: on a free mutex,
   * with nobody on the way to take it.
   */
  function LateRun(o: nat): seq<MStep> {
    [Acquire(o), Kernel(DoYield), Kernel(DoSwitch), Acquire(o), Kernel(DoYield), Kernel(DoSwitch),
     Release(o), Kernel(DoYield), Kernel(DoSwitch), Kernel(DoBlock(Mutex, o, TIMEOUT_FOREVER))]
  }

  /** Up to the release: what the two tasks do while the mutex is held. */
  lemma BeforeRelease(q: Sys, o: nat, p: Prio, a: Id, b: Id)
    returns (q1: Sys, q2: Sys, q3: Sys, q4: Sys, q5: Sys, q6: Sys)
    requires Inv(q.s) && Pair(q.s, p, a, b) && o in q.mtx
    requires q.mtx[o] == Mtx(Free(q.mtx[o].lock.recursive), 0, 0, [], {}, {})
    ensures Leads(q, Acquire(o), q1) && Leads(q1, Kernel(DoYield), q2) && Leads(q2, Kernel(DoSwitch), q3)
    ensures Leads(q3, Acquire(o), q4) && Leads(q4, Kernel(DoYield), q5) && Leads(q5, Kernel(DoSwitch), q6)
    ensures Inv(q6.s) && Pair(q6.s, p, a, b) && q6.s.info == q.s.info && q6.s.blocked == q.s.blocked
    ensures q6.mtx == q.mtx[o := Mtx(Lock(true, Some(a), 1, q.mtx[o].lock.recursive), 1, 1, [], {}, {})]
  {
    hide Inv, MNext, Pair;
    PairRuns(q.s, p, a, b);
    q1 := FirstAcquire(q, o);
    assert q.mtx[o].due - {a} == {};
    hide Leads;
    q2, q3 := Turn(q1, p, a, b);
    PairRuns(q3.s, p, b, a);
    q4 := VainAcquire(q3, o);
    assert q3.mtx[o].due - {b} == {};
    assert q4.mtx == q3.mtx;
    q5, q6 := Turn(q4, p, b, a);
  }

  /** From the release on: the other task blocks on the mutex that is free by then. */
  lemma AfterRelease(q: Sys, o: nat, p: Prio, a: Id, b: Id) returns (q1: Sys, q2: Sys, q3: Sys, q4: Sys)
    requires Inv(q.s) && Pair(q.s, p, a, b) && o in q.mtx && Waiters(q.s, Mutex, o) == {}
    requires q.s.info[a].priority == q.s.info[a].base && q.mtx[o].lock.owner == Some(a) && q.mtx[o].lock.count == 1
    requires forall x :: x in q.mtx ==> q.mtx[x].due == {}
    ensures Leads(q, Release(o), q1) && Leads(q1, Kernel(DoYield), q2) && Leads(q2, Kernel(DoSwitch), q3)
    ensures Leads(q3, Kernel(DoBlock(Mutex, o, TIMEOUT_FOREVER)), q4)
    ensures o in q4.mtx && !W.Attended(q4, o)
  {
    hide Inv, MNext, Pair, Waiters;
    PairRuns(q.s, p, a, b);
    q1 := PlainRelease(q, o);
    q2, q3 := Turn(q1, p, a, b);
    PairRuns(q3.s, p, b, a);
    SameWaiting(q.s, q3.s, o);
    W.LateBlock(q3, o, TIMEOUT_FOREVER);
    q4 := MNext(q3, Kernel(DoBlock(Mutex, o, TIMEOUT_FOREVER)));
    hide W.Attended;
  }

  lemma LostRelease(q: Sys, o: nat, p: Prio, a: Id, b: Id)
    requires Inv(q.s) && Fresh(q) && Pair(q.s, p, a, b) && o in q.mtx && Waiters(q.s, Mutex, o) == {}
    ensures MRun(q, LateRun(o)) && o in MAfter(q, LateRun(o)).mtx && !W.Attended(MAfter(q, LateRun(o)), o)
  {
    hide Inv, MNext, Pair, MEnabled, Leads, W.Attended, Waiters;
    PairRuns(q.s, p, a, b);
    var q1, q2, q3, q4, q5, q6 := BeforeRelease(q, o, p, a, b);
    assert forall x :: x in q.mtx ==> q.mtx[x].due == {};
    SameWaiting(q.s, q6.s, o);
    var q7, q8, q9, q10 := AfterRelease(q6, o, p, a, b);
    hide Fresh;
    Trace(LateRun(o), [q, q1, q2, q3, q4, q5, q6, q7, q8, q9, q10]);
  }

  // ---- A waiter that lends its priority ----

  /** Nobody can run at priority p or better but, in this order, the tasks of q. */
  ghost predicate Top(s: State, p: Prio, q: seq<Id>) {
    s.ready[p] == q && forall i :: 0 <= i < p ==> s.ready[i] == []
  }

  /** A resumed task that outranks everybody runs at once. */
  lemma Arrives(s: State, h: Id, p: Prio)
    requires Inv(s) && h in s.info && Idle(s.info[h]) && s.info[h].priority == p && Top(s, p, [])
    ensures var r := Next(Next(s, DoAdd(h)), DoSwitch);
            && r.current == Some(h) && Top(r, p, [h]) && r.blocked == s.blocked && r.tick == s.tick
            && r.info == s.info[h := s.info[h].(state := Ready, slice := TIME_SLICE)]
  {
    var y := AddTask(s, h);
    assert y.ready[p] == [] + [h] == [h];
    assert Highest(y) == p;
    hide Inv, Highest;
  }

  /** It lends its priority to another task. */
  lemma Lends(s: State, h: Id, a: Id, p: Prio)
    requires Inv(s) && s.current == Some(h) && Top(s, p, [h])
    requires a in s.info && s.info[a].Runnable() && s.info[a].priority > p
    ensures var r := Next(s, DoSetPriority(a, p));
            && r.current == Some(h) && Top(r, p, [h, a]) && r.blocked == s.blocked && r.tick == s.tick
            && r.info == s.info[a := Reranked(s.info[a], p)]
  {
    RerankedInfo(s, a, p);
    var r := SetPriority(s, a, p);
    assert r.ready[p] == [h] + [a];
    hide Inv, Drop;
  }

  /** Then it sleeps, and the other one runs. */
  lemma Sleeps(s: State, h: Id, a: Id, p: Prio, o: nat, timeout: U32)
    requires Inv(s) && s.current == Some(h) && Top(s, p, [h, a]) && h != a
    requires h in s.info && s.info[h].Runnable() && s.info[h].priority == p
    ensures var r := Next(Next(s, DoBlock(Mutex, o, timeout)), DoSwitch);
            && r.current == Some(a) && !r.pending && Top(r, p, [a]) && r.blocked == [h] + s.blocked && r.tick == s.tick
            && r.info == s.info[h := SchedSpec.Waiting(s.info[h], Mutex, o, timeout, s.tick)]
  {
    var y := Block(s, Mutex, o, timeout);
    assert [h, a][1..] == [a] && [a][1..] == [];
    assert Drop([a], {h}) == [a] + Drop([], {h}) == [a];
    assert y.ready[p] == [a];
    assert Highest(y) == p;
    hide Inv, Highest;
  }

  lemma LendsFor(q: Sys, o: nat, a: Id) returns (r: Sys)
    requires Inv(q.s) && MEnabled(q, Inherit(o)) && q.mtx[o].lock.owner == Some(a) && a in q.s.info
    requires q.s.info[a].priority > q.s.info[q.s.current.value].priority
    ensures var m, c := q.mtx[o], q.s.current.value;
            && Leads(q, Inherit(o), r) && r.s == Next(q.s, DoSetPriority(a, q.s.info[c].priority))
            && r.mtx == q.mtx[o := m.(asked := m.asked + [q.s.info[c].priority], askers := m.askers + {c})]
  {
    r := MNext(q, Inherit(o));
    hide Inv, SetPriority;
  }

  /**
   * While a owns mutex o, an idle task h that outranks everybody comes back, asks for o in
   * vain, lends a its priority and sleeps.
   */
  lemma Asks(q: Sys, o: nat, h: Id, a: Id, p: Prio, timeout: U32)
    returns (q1: Sys, q2: Sys, q3: Sys, q4: Sys, q5: Sys, q6: Sys)
    requires Inv(q.s) && OwnersKnown(q) && o in q.mtx && q.mtx[o].lock.locked && q.mtx[o].lock.owner == Some(a)
    requires h in q.s.info && Idle(q.s.info[h]) && q.s.info[h].priority == p && Top(q.s, p, [])
    requires a in q.s.info && q.s.info[a].Runnable() && q.s.info[a].priority > p
    ensures Leads(q, Kernel(DoAdd(h)), q1) && Leads(q1, Kernel(DoSwitch), q2) && Leads(q2, Acquire(o), q3)
    ensures Leads(q3, Inherit(o), q4) && Leads(q4, Kernel(DoBlock(Mutex, o, timeout)), q5)
    ensures Leads(q5, Kernel(DoSwitch), q6)
    ensures Inv(q6.s) && q6.s.current == Some(a) && !q6.s.pending && Top(q6.s, p, [a])
    ensures q6.s.blocked == [h] + q.s.blocked && q6.s.tick == q.s.tick
    ensures a in q6.s.info && q6.s.info[a] == Reranked(q.s.info[a], p)
    ensures var w := q.s.info[h].(state := Ready, slice := TIME_SLICE);
            h in q6.s.info && q6.s.info[h] == SchedSpec.Waiting(w, Mutex, o, timeout, q.s.tick)
    ensures forall t :: t in q.s.info && t != a && t != h ==> t in q6.s.info && q6.s.info[t] == q.s.info[t]
    ensures q6.s.info.Keys == q.s.info.Keys
    ensures var m := q.mtx[o];
            q6.mtx == q.mtx[o := m.(asked := m.asked + [p], askers := m.askers + {h}, due := m.due - {h})]
  {
    hide Inv, Next, MNext, Leads, Top;
    Arrives(q.s, h, p);
    q1, q2 := StepAndSwitch(q, DoAdd(h));
    q3 := VainAcquire(q2, o);
    Lends(q3.s, h, a, p);
    q4 := LendsFor(q3, o, a);
    Sleeps(q4.s, h, a, p, o, timeout);
    q5, q6 := StepAndSwitch(q4, DoBlock(Mutex, o, timeout));
  }

  /** a runs, outranked by nobody who can run, and h, which would outrank it, is suspended or deleted. */
  ghost predicate Alone(s: State, a: Id, h: Id) {
    && s.current == Some(a) && a in s.info && s.info[a].Runnable()
    && h in s.info && Idle(s.info[h]) && s.info[h].priority < s.info[a].priority && Top(s, s.info[h].priority, [])
  }

  lemma FreshOwners(q: Sys, a: Id)
    requires Fresh(q)
    ensures a in q.s.info ==> q.s.info[a].priority == q.s.info[a].base
    ensures OwnersKnown(q) && forall o {:trigger q.mtx[o]} ::
              o in q.mtx ==> !q.mtx[o].lock.locked && q.mtx[o].lock.owner.None? && q.mtx[o].due == {}
  {
  }

  /** a locks two mutexes, inherits h's priority through the first, and gives up the second. */
  function NestedRun(first: nat, second: nat, h: Id): seq<MStep> {
    [Acquire(first), Acquire(second), Kernel(DoAdd(h)), Kernel(DoSwitch), Acquire(first), Inherit(first),
     Kernel(DoBlock(Mutex, first, TIMEOUT_FOREVER)), Kernel(DoSwitch), Release(second)]
  }

  lemma FirstEnabled(q: Sys, o: nat, a: Id)
    requires Inv(q.s) && o in q.mtx && q.s.current == Some(a) && a in q.s.info && q.s.info[a].Runnable()
    ensures MEnabled(q, Acquire(o))
  {
  }

  lemma BeforeDrop(q: Sys, first: nat, second: nat, a: Id, h: Id) returns (q1: Sys, q2: Sys)
    requires Inv(q.s) && Fresh(q) && Alone(q.s, a, h) && first in q.mtx && second in q.mtx && first != second
    ensures Leads(q, Acquire(first), q1) && Leads(q1, Acquire(second), q2) && q2.s == q.s
    ensures OwnersKnown(q2) && first in q2.mtx && second in q2.mtx
    ensures q2.mtx[second].lock == Lock(true, Some(a), 1, q.mtx[second].lock.recursive)
    ensures q2.mtx[first].lock.locked && q2.mtx[first].lock.owner == Some(a) && q2.mtx[first].asked == []
  {
    FreshOwners(q, a);
    hide Inv, MNext, Leads, Fresh, Top;
    q1 := FirstAcquire(q, first);
    q2 := FirstAcquire(q1, second);
  }

  /** The release drops what is still owed to the waiter of the other mutex. */
  lemma DropLoan(q: Sys, first: nat, second: nat, a: Id, p: Prio) returns (r: Sys)
    requires Inv(q.s) && first in q.mtx && second in q.mtx && first != second
    requires q.s.current == Some(a) && a in q.s.info && q.s.info[a].Runnable()
    requires q.s.info[a].priority == p < q.s.info[a].base
    requires q.mtx[first].lock.owner == Some(a) && q.mtx[first].asked == [p]
    requires q.mtx[second].lock.owner == Some(a) && q.mtx[second].lock.count == 1
    ensures Leads(q, Release(second), r) && first in r.mtx && !I.Exact(r, first)
  {
    I.LeastNext(q.s.info[a].base, [], p);
    assert [] + [p] == [p];
    assert I.Exact(q, first);
    r := MNext(q, Release(second));
    hide Inv, MNext, I.Exact, I.Least;
    I.NestedReleaseDrops(q, second, first);
  }

  lemma LostLoan(q: Sys, first: nat, second: nat, a: Id, h: Id)
    requires Inv(q.s) && Fresh(q) && Alone(q.s, a, h) && first in q.mtx && second in q.mtx && first != second
    ensures MRun(q, NestedRun(first, second, h))
    ensures var r := MAfter(q, NestedRun(first, second, h));
            first in r.mtx && !I.Exact(r, first)
  {
    hide Inv, MNext, MEnabled, Leads, Top, Fresh, I.Exact;
    var p := q.s.info[h].priority;
    FreshOwners(q, a);
    var q1, q2 := BeforeDrop(q, first, second, a, h);
    var q3, q4, q5, q6, q7, q8 := Asks(q2, first, h, a, p, TIMEOUT_FOREVER);
    assert q8.mtx[first].asked == [] + [p] == [p];
    var q9 := DropLoan(q8, first, second, a, p);
    Trace(NestedRun(first, second, h), [q, q1, q2, q3, q4, q5, q6, q7, q8, q9]);
  }

  // ---- A release that leaves a better task waiting ----

  /** h lends a its priority, times out, and a gives the mutex up. */
  function GapRun(o: nat, h: Id): seq<MStep> {
    [Acquire(o), Kernel(DoAdd(h)), Kernel(DoSwitch), Acquire(o), Inherit(o), Kernel(DoBlock(Mutex, o, 1)),
     Kernel(DoSwitch), Kernel(DoTick), Release(o)]
  }

  /** The sleeper's time is up, but it does not outrank the task it lent its priority to. */
  lemma TimesOut(s: State, h: Id, a: Id, p: Prio)
    requires Inv(s) && s.current == Some(a) && !s.pending && Top(s, p, [a]) && s.blocked == [h]
    requires a in s.info && s.info[a].priority == p && s.info[a].slice > 1
    requires h in s.info && h != a && s.info[h].priority == p && s.info[h].reason == Mutex
    requires s.info[h].timeout == 1 && s.info[h].wakeTick == WakeTick(s.tick, 1)
    ensures var r := Next(s, DoTick);
            && r.current == Some(a) && !r.pending && r.blocked == []
            && a in r.info && Core(r.info[a]) == Core(s.info[a]) && r.info[a].priority == p
            && h in r.info && r.info[h].Runnable() && r.info[h].priority == p
  {
    TickRecord(s, a);
    TickRecord(s, h);
    assert a in s.ready[p] && ListOk(s, p);
    assert s.info[a].Runnable() && s.info[h].state == Blocked;
    TicksOff(s, h, a, p);
    hide Inv, Tick, Top;
  }

  lemma TicksOff(s: State, h: Id, a: Id, p: Prio)
    requires Sane(s) && s.current == Some(a) && !s.pending && Top(s, p, [a]) && s.blocked == [h]
    requires a in s.info && s.info[a].priority == p && s.info[a].slice > 1 && s.info[a].state != Blocked
    requires h in s.info && h != a && s.info[h].priority == p && Due(s.info[h], (s.tick + 1) % TWO32)
    ensures var r := Tick(s); r.current == Some(a) && !r.pending && r.blocked == []
  {
    var s1 := s.(tick := (s.tick + 1) % TWO32);
    var e := Expire(s);
    assert [h] + [] == [h];
    SelectCons(h, [], DueSet(s1));
    assert e.blocked == [];
    forall i | 0 <= i < p
      ensures e.ready[i] == []
    {
      SelectCons(h, [], WithPriority(s1.info, DueSet(s1), i));
    }
    assert e.ready[p][0] == a && e.info[a] == s.info[a];
    assert Highest(e) == p;
    hide Expire, Highest;
  }

  /** The release takes a below h, and asks for no switch. */
  lemma OpensGap(q: Sys, o: nat, a: Id, h: Id, p: Prio) returns (r: Sys)
    requires Inv(q.s) && P.NoGap(q.s) && !q.s.pending && q.s.current == Some(a) && q.s.blocked == []
    requires a in q.s.info && q.s.info[a].Runnable() && q.s.info[a].priority == p < q.s.info[a].base
    requires h != a && h in q.s.info && q.s.info[h].Runnable() && q.s.info[h].priority == p
    requires o in q.mtx && q.mtx[o].lock.owner == Some(a) && q.mtx[o].lock.count == 1
    ensures Leads(q, Release(o), r) && Inv(r.s) && !P.NoGap(r.s)
  {
    r := MNext(q, Release(o));
    assert r.s == Released(q.s, o);
    assert Chosen(q.s, Mutex, o).None?;
    hide Inv, MNext, Released, Chosen, P.NoGap;
    I.ReleaseGap(q.s, o);
  }

  lemma TickLeads(q: Sys) returns (r: Sys)
    requires Inv(q.s)
    ensures Leads(q, Kernel(DoTick), r) && r == q.(s := Next(q.s, DoTick)) && P.NoGap(r.s)
  {
    SameMutexes(q, DoTick);
    P.TickNoGap(q.s);
    r := MNext(q, Kernel(DoTick));
    hide Tick, Inv, P.NoGap;
  }

  lemma LostSwitch(q: Sys, o: nat, a: Id, h: Id)
    requires Inv(q.s) && Fresh(q) && Alone(q.s, a, h) && q.s.blocked == [] && o in q.mtx
    ensures MRun(q, GapRun(o, h)) && !P.NoGap(MAfter(q, GapRun(o, h)).s)
  {
    hide Inv, MNext, MEnabled, Leads, Top, Fresh, P.NoGap, Next;
    var p := q.s.info[h].priority;
    FreshOwners(q, a);
    FirstEnabled(q, o, a);
    var q1 := FirstAcquire(q, o);
    var q2, q3, q4, q5, q6, q7 := Asks(q1, o, h, a, p, 1);
    TimesOut(q7.s, h, a, p);
    var q8 := TickLeads(q7);
    var q9 := OpensGap(q8, o, a, h, p);
    Trace(GapRun(o, h), [q, q1, q2, q3, q4, q5, q6, q7, q8, q9]);
  }

  // ---- A raise that comes late ----

  /** Everybody else who can run ranks below p. */
  lemma Behind(s: State, p: Prio, m: Id)
    requires Inv(s) && Top(s, p, [m])
    ensures m in s.info && s.info[m].Runnable() && s.info[m].priority == p
    ensures forall u :: u in s.info && s.info[u].Runnable() && u != m ==> s.info[u].priority > p
  {
    assert m in s.ready[p] && ListOk(s, p);
    forall u | u in s.info && s.info[u].Runnable() && u != m
      ensures s.info[u].priority > p
    {
      Runs(s, u);
    }
  }

  lemma NextIs(s: State, p: Prio, m: Id)
    requires Inv(s) && m in s.info && s.info[m].Runnable() && s.info[m].priority == p
    requires forall u :: u in s.info && s.info[u].Runnable() && u != m ==> s.info[u].priority > p
    ensures GetNext(s) == Some(m)
  {
    Runs(s, m);
    assert ListOk(s, p) && s.ready[p][0] in s.ready[p];
    NextIsFront(s);
    hide Inv, GetNext;
    assert FrontOfHighest(s, m);
  }

  /** The current task sleeps for a tick, and the one behind it runs. */
  lemma StepsAside(q: Sys, p: Prio, a: Id, m: Id) returns (q1: Sys, q2: Sys)
    requires Inv(q.s) && a != m && q.s.current == Some(a) && a in q.s.info && q.s.info[a].Runnable()
    requires m in q.s.info && q.s.info[m].Runnable() && q.s.info[m].priority == p
    requires forall u :: u in q.s.info && q.s.info[u].Runnable() && u != m && u != a ==> q.s.info[u].priority > p
    ensures Leads(q, Kernel(DoBlock(Delay, NO_OBJECT, 1)), q1) && Leads(q1, Kernel(DoSwitch), q2)
    ensures Inv(q2.s) && q2.s.current == Some(m) && q2.mtx == q.mtx && q2.s.info.Keys == q.s.info.Keys
    ensures q2.s.info[a].base == q.s.info[a].base && forall t :: t in q.s.info && t != a ==> q2.s.info[t] == q.s.info[t]
  {
    var b := Next(q.s, DoBlock(Delay, NO_OBJECT, 1));
    assert Sane(q.s) && b == Block(q.s, Delay, NO_OBJECT, 1);
    SimpleInfo(q.s, DoBlock(Delay, NO_OBJECT, 1));
    NextIs(b, p, m);
    q1, q2 := StepAndSwitch(q, DoBlock(Delay, NO_OBJECT, 1));
    hide Inv, Block;
  }

  /**
   * m finds the mutex owned by a, which ranks lower. Before it raises a, h does the same, ranks
   * higher, raises a and blocks. When a sleeps, m comes back and raises a to its own priority.
   */
  function LateRaiseRun(o: nat, a: Id, m: Id, h: Id, p: Prio): seq<MStep> {
    [Acquire(o), Kernel(DoAdd(m)), Kernel(DoSwitch), Acquire(o), Kernel(DoAdd(h)), Kernel(DoSwitch), Acquire(o),
     Inherit(o), Kernel(DoBlock(Mutex, o, TIMEOUT_FOREVER)), Kernel(DoSwitch),
     Kernel(DoBlock(Delay, NO_OBJECT, 1)), Kernel(DoSwitch), Kernel(DoSetPriority(a, p))]
  }

  lemma LateStart(q: Sys, o: nat, a: Id, m: Id, p: Prio) returns (q1: Sys, q2: Sys, q3: Sys, q4: Sys)
    requires Inv(q.s) && Fresh(q) && Alone(q.s, a, m) && q.s.info[m].priority == p && o in q.mtx
    ensures Leads(q, Acquire(o), q1) && Leads(q1, Kernel(DoAdd(m)), q2) && Leads(q2, Kernel(DoSwitch), q3)
    ensures Leads(q3, Acquire(o), q4)
    ensures Inv(q4.s) && OwnersKnown(q4) && q4.s.current == Some(m) && Top(q4.s, p, [m])
    ensures o in q4.mtx && q4.mtx[o].lock.locked && q4.mtx[o].lock.owner == Some(a) && q4.mtx[o].lock.count == 1
    ensures q4.mtx[o].askers == {}
    ensures q4.mtx.Keys == q.mtx.Keys && forall x :: x in q4.mtx && x != o ==> q4.mtx[x].lock.owner.None?
    ensures q4.s.blocked == q.s.blocked
    ensures m in q4.s.info && q4.s.info[m].Runnable() && q4.s.info[m].priority == p
    ensures q4.s.info.Keys == q.s.info.Keys && forall t :: t in q.s.info && t != m ==> q4.s.info[t] == q.s.info[t]
  {
    hide Inv, MNext, Leads, Top, Fresh, Next;
    FreshOwners(q, a);
    FirstEnabled(q, o, a);
    q1 := FirstAcquire(q, o);
    Arrives(q1.s, m, p);
    q2, q3 := StepAndSwitch(q1, DoAdd(m));
    q4 := VainAcquire(q3, o);
  }

  lemma LateEnd(q: Sys, o: nat, a: Id, m: Id, h: Id, p: Prio, better: Prio)
    returns (q1: Sys, q2: Sys, q3: Sys, q4: Sys, q5: Sys, q6: Sys, q7: Sys, q8: Sys, q9: Sys)
    requires Inv(q.s) && OwnersKnown(q) && Top(q.s, p, [m]) && better < p && a != m
    requires o in q.mtx && q.mtx[o].lock.locked && q.mtx[o].lock.owner == Some(a)
    requires a in q.s.info && q.s.info[a].Runnable() && q.s.info[a].priority > p
    requires h in q.s.info && Idle(q.s.info[h]) && q.s.info[h].priority == q.s.info[h].base == better
    ensures Leads(q, Kernel(DoAdd(h)), q1) && Leads(q1, Kernel(DoSwitch), q2) && Leads(q2, Acquire(o), q3)
    ensures Leads(q3, Inherit(o), q4) && Leads(q4, Kernel(DoBlock(Mutex, o, TIMEOUT_FOREVER)), q5)
    ensures Leads(q5, Kernel(DoSwitch), q6) && Leads(q6, Kernel(DoBlock(Delay, NO_OBJECT, 1)), q7)
    ensures Leads(q7, Kernel(DoSwitch), q8) && q8.s.current == Some(m) && Leads(q8, Kernel(DoSetPriority(a, p)), q9)
    ensures Inv(q9.s) && o in q9.mtx && !I.Lent(q9, o) && h in Waiters(q9.s, Mutex, o)
  {
    Behind(q.s, p, m);
    assert Top(q.s, better, []);
    hide Inv, MNext, Leads, Top, Next;
    q1, q2, q3, q4, q5, q6 := Asks(q, o, h, a, better, TIMEOUT_FOREVER);
    q7, q8 := StepsAside(q6, p, a, m);
    q9 := RaisesLate(q8, o, a, h, p);
  }

  lemma RaisesLate(q: Sys, o: nat, a: Id, h: Id, p: Prio) returns (r: Sys)
    requires Inv(q.s) && o in q.mtx && q.mtx[o].lock.owner == Some(a) && a in q.s.info && a != h
    requires h in q.s.info && q.s.info[h].base < p && h in q.mtx[o].askers
    requires q.s.info[h].state == Blocked && q.s.info[h].reason == Mutex && q.s.info[h].obj == o
    ensures Leads(q, Kernel(DoSetPriority(a, p)), r)
    ensures Inv(r.s) && o in r.mtx && !I.Lent(r, o) && h in Waiters(r.s, Mutex, o)
  {
    hide Inv, Next, SetPriority;
    var step := DoSetPriority(a, p);
    SameMutexes(q, step);
    r := MNext(q, Kernel(step));
    PairAfter(q.s, step, a);
    PairAfter(q.s, step, h);
    StepCore(q.s, step, h);
    WaitersAre(r.s, Mutex, o);
  }

  /** What h has lent is gone while h waits still; see Inheritance.LateRaise. */
  lemma LostRaise(q: Sys, o: nat, a: Id, m: Id, h: Id)
    requires Inv(q.s) && Fresh(q) && Alone(q.s, a, m) && Alone(q.s, a, h) && o in q.mtx
    requires q.s.info[h].priority < q.s.info[m].priority
    ensures var run := LateRaiseRun(o, a, m, h, q.s.info[m].priority);
            && MRun(q, run)
            && o in MAfter(q, run).mtx && !I.Lent(MAfter(q, run), o) && h in Waiters(MAfter(q, run).s, Mutex, o)
  {
    hide Inv, MNext, MEnabled, Leads, Top, Fresh, Next, Waiters, I.Lent;
    FreshBase(q, h);
    var p := q.s.info[m].priority;
    var q1, q2, q3, q4 := LateStart(q, o, a, m, p);
    var q5, q6, q7, q8, q9, q10, q11, q12, q13 := LateEnd(q4, o, a, m, h, p, q.s.info[h].priority);
    Trace(LateRaiseRun(o, a, m, h, p), [q, q1, q2, q3, q4, q5, q6, q7, q8, q9, q10, q11, q12, q13]);
  }

  lemma FreshBase(q: Sys, h: Id)
    requires Fresh(q) && h in q.s.info
    ensures q.s.info[h].priority == q.s.info[h].base
  {
  }

  // ---- A raise of a former owner ----

  /**
   * As LateRaiseRun, but a does not sleep: it gives the mutex up, at its base priority again,
   * and h takes it and sleeps. Then m comes back and raises a, the owner that it had read.
   */
  function DebtRun(o: nat, a: Id, m: Id, h: Id, p: Prio): seq<MStep> {
    [Acquire(o), Kernel(DoAdd(m)), Kernel(DoSwitch), Acquire(o), Kernel(DoAdd(h)), Kernel(DoSwitch), Acquire(o),
     Inherit(o), Kernel(DoBlock(Mutex, o, TIMEOUT_FOREVER)), Kernel(DoSwitch), Release(o), Kernel(DoSwitch),
     Acquire(o), Kernel(DoBlock(Delay, NO_OBJECT, 1)), Kernel(DoSwitch), Kernel(DoSetPriority(a, p))]
  }

  lemma OnlyWaiter(s: State, o: nat, h: Id)
    requires Inv(s) && s.current.Some? && s.blocked == [h]
    requires h in s.info && s.info[h].reason == Mutex && s.info[h].obj == o
    ensures s.info[h].state == Blocked && Chosen(Restored(s), Mutex, o) == Some(h)
  {
    var s1 := Restored(s);
    assert h in s.blocked && Waiters(s, Mutex, o) <= {h};
    hide Inv, Restored, Chosen;
    WaitersAre(s1, Mutex, o);
    W.RestoredWaiters(s, o);
    RestoredPair(s, h);
    ChosenIff(s1, Mutex, o);
    hide Waiters;
  }

  /** The release hands the one waiter its turn, and leaves the others as they are. */
  lemma ReleaseTo(s: State, o: nat, a: Id, h: Id)
    requires Inv(s) && s.current == Some(a) && s.info[a].Runnable() && s.blocked == [h]
    requires h in s.info && s.info[h].reason == Mutex && s.info[h].obj == o
    ensures var r := Released(s, o);
            && r.current == Some(a) && r.info.Keys == s.info.Keys && r.info[h].Runnable()
            && forall t :: t in s.info ==>
                 && r.info[t].base == s.info[t].base
                 && r.info[t].priority == (if t == a then s.info[t].base else s.info[t].priority)
                 && (t != h ==> (r.info[t].Runnable() <==> s.info[t].Runnable()))
  {
    OnlyWaiter(s, o, h);
    assert h != a && Sane(Restored(s)) && Released(s, o) == UnblockOne(Restored(s), Mutex, o, Ok);
    hide Inv, Restored, UnblockOne, Released, Waiters, Chosen;
    var s1 := Restored(s);
    RestoredKeys(s);
    OneWoken(s1, Mutex, o, Ok, h);
    I.SamePick(s, o);
    forall t | t in s.info
      ensures var r := Released(s, o);
              && t in r.info && r.info[t].base == s.info[t].base
              && r.info[t].priority == (if t == a then s.info[t].base else s.info[t].priority)
              && (t != h ==> (r.info[t].Runnable() <==> s.info[t].Runnable()))
    {
      ReleasedPair(s, o, t);
      RestoredPair(s, t);
    }
  }

  /** a gives the mutex up, h takes it and sleeps, and m raises a. */
  lemma HandsOver(q: Sys, o: nat, a: Id, m: Id, h: Id, p: Prio)
    returns (q1: Sys, q2: Sys, q3: Sys, q4: Sys, q5: Sys, q6: Sys)
    requires Inv(q.s) && q.s.current == Some(a) && a in q.s.info && q.s.info[a].Runnable() && p < q.s.info[a].base
    requires q.s.blocked == [h] && h in q.s.info && q.s.info[h].reason == Mutex && q.s.info[h].obj == o
    requires q.s.info[h].priority < p && m in q.s.info && q.s.info[m].Runnable() && q.s.info[m].priority == p
    requires a != m && a != h && h != m
    requires forall u :: u in q.s.info && q.s.info[u].Runnable() && u != m && u != a ==> q.s.info[u].priority > p
    requires o in q.mtx && q.mtx[o].lock.owner == Some(a) && q.mtx[o].lock.count == 1
    requires forall x :: x in q.mtx && x != o ==> q.mtx[x].lock.owner.None?
    ensures Leads(q, Release(o), q1) && Leads(q1, Kernel(DoSwitch), q2) && Leads(q2, Acquire(o), q3)
    ensures Leads(q3, Kernel(DoBlock(Delay, NO_OBJECT, 1)), q4) && Leads(q4, Kernel(DoSwitch), q5)
    ensures q5.s.current == Some(m) && Leads(q5, Kernel(DoSetPriority(a, p)), q6)
    ensures a in q6.s.info && OwnsNone(q6, a) && q6.s.info[a].priority == p < q6.s.info[a].base
  {
    hide Inv, MNext, Leads, Next;
    q1, q2 := GivesUp(q, o, a, h);
    q3 := FirstAcquire(q2, o);
    q4, q5 := StepsAside(q3, p, h, m);
    q6 := RaisesFormer(q5, a, p);
    forall x
      ensures !Holds(q6, x, a)
    {
    }
  }

  lemma GivesUp(q: Sys, o: nat, a: Id, h: Id) returns (q1: Sys, q2: Sys)
    requires Inv(q.s) && q.s.current == Some(a) && a in q.s.info && q.s.info[a].Runnable() && a != h
    requires q.s.blocked == [h] && h in q.s.info && q.s.info[h].reason == Mutex && q.s.info[h].obj == o
    requires q.s.info[h].priority < q.s.info[a].base
    requires forall u :: u in q.s.info && q.s.info[u].Runnable() && u != a ==>
               q.s.info[u].priority > q.s.info[h].priority
    requires o in q.mtx && q.mtx[o].lock.owner == Some(a) && q.mtx[o].lock.count == 1
    ensures Leads(q, Release(o), q1) && Leads(q1, Kernel(DoSwitch), q2)
    ensures Inv(q2.s) && q2.s.current == Some(h) && q2.s.info.Keys == q.s.info.Keys && q2.s.info[h].Runnable()
    ensures forall t :: t in q.s.info ==>
              && q2.s.info[t].base == q.s.info[t].base
              && q2.s.info[t].priority == (if t == a then q.s.info[t].base else q.s.info[t].priority)
              && (t != h ==> (q2.s.info[t].Runnable() <==> q.s.info[t].Runnable()))
    ensures q2.mtx.Keys == q.mtx.Keys && !q2.mtx[o].lock.locked && q2.mtx[o].lock.owner.None?
    ensures forall x :: x in q.mtx && x != o ==> q2.mtx[x] == q.mtx[x]
  {
    ReleaseTo(q.s, o, a, h);
    hide Inv, Next, Restored, Released, Woke;
    q1 := MNext(q, Release(o));
    assert q1.s == Released(q.s, o);
    NextIs(q1.s, q.s.info[h].priority, h);
    SameMutexes(q1, DoSwitch);
    q2 := MNext(q1, Kernel(DoSwitch));
    SwitchTo(q1.s);
  }

  lemma SwitchTo(s: State)
    requires Inv(s)
    ensures Next(s, DoSwitch) == s.(current := GetNext(s), pending := false)
  {
  }

  lemma RaisesFormer(q: Sys, a: Id, p: Prio) returns (r: Sys)
    requires Inv(q.s) && a in q.s.info
    ensures Leads(q, Kernel(DoSetPriority(a, p)), r) && r.mtx == q.mtx
    ensures a in r.s.info && r.s.info[a].priority == p && r.s.info[a].base == q.s.info[a].base
  {
    hide Inv, Next, SetPriority;
    SameMutexes(q, DoSetPriority(a, p));
    r := MNext(q, Kernel(DoSetPriority(a, p)));
    PairAfter(q.s, DoSetPriority(a, p), a);
  }

  lemma LateMiddle(q: Sys, o: nat, a: Id, m: Id, h: Id, p: Prio, better: Prio)
    returns (q1: Sys, q2: Sys, q3: Sys, q4: Sys, q5: Sys, q6: Sys)
    requires Inv(q.s) && OwnersKnown(q) && Top(q.s, p, [m]) && better < p && a != m && q.s.blocked == []
    requires o in q.mtx && q.mtx[o].lock.locked && q.mtx[o].lock.owner == Some(a)
    requires a in q.s.info && q.s.info[a].Runnable() && q.s.info[a].priority > p
    requires h in q.s.info && Idle(q.s.info[h]) && q.s.info[h].priority == better
    ensures Leads(q, Kernel(DoAdd(h)), q1) && Leads(q1, Kernel(DoSwitch), q2) && Leads(q2, Acquire(o), q3)
    ensures Leads(q3, Inherit(o), q4) && Leads(q4, Kernel(DoBlock(Mutex, o, TIMEOUT_FOREVER)), q5)
    ensures Leads(q5, Kernel(DoSwitch), q6)
    ensures Inv(q6.s) && q6.s.current == Some(a) && q6.s.blocked == [h] && q6.s.info.Keys == q.s.info.Keys
    ensures q6.s.info[a].Runnable() && q6.s.info[a].base == q.s.info[a].base
    ensures q6.s.info[h].reason == Mutex && q6.s.info[h].obj == o && q6.s.info[h].priority == better
    ensures m in q6.s.info && q6.s.info[m].Runnable() && q6.s.info[m].priority == p && h != m && a != h
    ensures forall u :: u in q6.s.info && q6.s.info[u].Runnable() && u != m && u != a ==> q6.s.info[u].priority > p
    ensures q6.mtx.Keys == q.mtx.Keys && forall x :: x in q.mtx ==> q6.mtx[x].lock == q.mtx[x].lock
  {
    hide Inv, MNext, Leads, Next;
    Behind(q.s, p, m);
    assert Top(q.s, better, []);
    hide Top;
    q1, q2, q3, q4, q5, q6 := Asks(q, o, h, a, better, TIMEOUT_FOREVER);
    assert [h] + [] == [h];
  }

  /** A task that owns nothing is left above its base priority; see MutexRuns.SetPriorityRepaid. */
  lemma LostDebt(q: Sys, o: nat, a: Id, m: Id, h: Id)
    requires Inv(q.s) && Fresh(q) && Alone(q.s, a, m) && Alone(q.s, a, h) && o in q.mtx && q.s.blocked == []
    requires q.s.info[h].priority < q.s.info[m].priority
    ensures var run := DebtRun(o, a, m, h, q.s.info[m].priority);
            && MRun(q, run)
            && var r := MAfter(q, run);
               a in r.s.info && OwnsNone(r, a) && r.s.info[a].priority < r.s.info[a].base
  {
    hide Inv, MNext, MEnabled, Leads, Top, Fresh, Next, OwnsNone;
    FreshBase(q, a);
    var p := q.s.info[m].priority;
    var q1, q2, q3, q4 := LateStart(q, o, a, m, p);
    var q5, q6, q7, q8, q9, q10 := LateMiddle(q4, o, a, m, h, p, q.s.info[h].priority);
    var q11, q12, q13, q14, q15, q16 := HandsOver(q10, o, a, m, h, p);
    Trace(DebtRun(o, a, m, h, p), [q, q1, q2, q3, q4, q5, q6, q7, q8, q9, q10, q11, q12, q13, q14, q15, q16]);
  }
}
