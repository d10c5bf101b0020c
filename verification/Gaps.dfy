/**
 * The gaps inside calls that the source does not make in one critical section: task_resume
 * writes the state before it adds the task, and scheduler_set_priority leaves the task in no
 * list between its removal and its addition. While a task is in no list, what its record
 * says makes no difference to any step that is not about that task; a step that is about it
 * may take it for a task that runs.
 */
module Gaps {
  import opened Types
  import opened Seqs
  import opened SchedSpec
  import opened SchedInv
  import opened SchedRuns
  import opened TaskLaws
  import opened Preemption
  import WakeLaws

  /** s, except that t's record reads a. */
  function With(s: State, t: Id, a: Task): State {
    s.(info := s.info[t := a])
  }

  /** t is in no list. */
  predicate Unlisted(s: State, t: Id) {
    t in s.info && Idle(s.info[t])
  }

  /** Besides, it is not the current task. */
  predicate Away(s: State, t: Id) {
    Unlisted(s, t) && s.current != Some(t)
  }

  /**
   * What t's record may read instead: anything but a blocked task's, and for the current task
   * nothing but another state.
   */
  predicate Fits(s: State, t: Id, a: Task)
    requires t in s.info
  {
    a.state != Blocked && (s.current == Some(t) ==> a == s.info[t].(state := a.state))
  }

  /** The step is about t: it names t, or t blocks itself. */
  predicate About(s: State, step: Step, t: Id) {
    match step
    case DoCreate(u, _) => u == t
    case DoSetPriority(u, _) => u == t
    case DoRetire(u, _) => u == t
    case DoAdd(u) => u == t
    case DoBlock(_, _, _) => s.current == Some(t)
    case _ => false
  }

  // ---- One step ----

  lemma WithWake(s: State, t: Id, a: Task, w: set<Id>, how: Wakeup)
    requires t !in w && t in s.info
    ensures Wake(With(s, t, a), w, how) == With(Wake(s, w, how), t, a)
  {
    var x, y := Wake(With(s, t, a), w, how), With(Wake(s, w, how), t, a);
    assert x.info == y.info;
    forall p: nat | p < MAX_PRIORITY
      ensures x.ready[p] == y.ready[p]
    {
      assert WithPriority(With(s, t, a).info, w, p) == WithPriority(s.info, w, p);
    }
    assert x.ready == y.ready;
  }

  lemma WithAdd(s: State, t: Id, a: Task, u: Id)
    requires Sane(s) && t in s.info && u in s.info && u != t && Fits(s, t, a)
    ensures AddTask(With(s, t, a), u) == With(AddTask(s, u), t, a)
  {
    assert AddTask(With(s, t, a), u).info == With(AddTask(s, u), t, a).info;
  }

  lemma WithRank(s: State, t: Id, a: Task, u: Id, p: Prio)
    requires Sane(s) && t in s.info && u in s.info && u != t && Fits(s, t, a)
    ensures SetPriority(With(s, t, a), u, p) == With(SetPriority(s, u, p), t, a)
  {
    hide Drop, AddTask;
    var s1 := RemoveTask(s, u);
    var s2 := s1.(info := s1.info[u := s1.info[u].(priority := p)]);
    WithAdd(s2, t, a, u);
    assert With(s2, t, a).info == With(s, t, a).info[u := s.info[u].(priority := p)];
    assert With(s, t, a).info[u := s.info[u].(priority := p)] == s.info[u := s.info[u].(priority := p)][t := a];
  }

  lemma SameDue(s: State, t: Id, a: Task)
    requires t !in s.blocked
    ensures DueSet(With(s, t, a)) == DueSet(s) && t !in DueSet(s)
  {
  }

  lemma NotBlocked(s: State, t: Id)
    requires Inv(s) && Unlisted(s, t)
    ensures t !in s.blocked
  {
  }

  lemma WithExpire(s: State, t: Id, a: Task)
    requires Inv(s) && Unlisted(s, t)
    ensures Expire(With(s, t, a)) == With(Expire(s), t, a)
  {
    hide Inv, Wake, DueSet;
    NotBlocked(s, t);
    var s1 := s.(tick := (s.tick + 1) % TWO32);
    SameDue(s1, t, a);
    WithWake(s1, t, a, DueSet(s1), Expired);
    assert With(s, t, a).(tick := (s.tick + 1) % TWO32) == With(s1, t, a);
  }

  lemma WithYield(s: State, t: Id, a: Task)
    requires Sane(s) && t in s.info && Fits(s, t, a)
    ensures Yield(With(s, t, a)) == With(Yield(s), t, a)
  {
  }

  /** What t's record reads after a step that gives it the record b otherwise. */
  function Carried(s: State, t: Id, a: Task, b: Task): Task {
    if s.current == Some(t) then b.(state := a.state) else a
  }

  lemma WithCharge(s: State, t: Id, a: Task)
    requires Sane(s) && t in s.info && Fits(s, t, a)
    ensures t in ChargeSlice(s).info
    ensures ChargeSlice(With(s, t, a)) == With(ChargeSlice(s), t, Carried(s, t, a, ChargeSlice(s).info[t]))
  {
    if s.current.Some? {
      var c := s.current.value;
      var left := if s.info[c].slice > 0 then s.info[c].slice - 1 else 0;
      var slice := if left == 0 then TIME_SLICE else left;
      var r := s.(info := s.info[c := s.info[c].(slice := slice)]);
      var b := Carried(s, t, a, r.info[t]);
      hide Yield;
      YieldRecords(r);
      WithYield(r, t, b);
      WithSlice(s, t, a, c, slice);
    }
  }

  lemma WithSlice(s: State, t: Id, a: Task, c: Id, slice: U32)
    requires t in s.info && Fits(s, t, a) && s.current == Some(c) && c in s.info
    ensures var x, r := With(s, t, a), s.(info := s.info[c := s.info[c].(slice := slice)]);
            x.(info := x.info[c := x.info[c].(slice := slice)]) == With(r, t, Carried(s, t, a, r.info[t]))
  {
    var x, r := With(s, t, a), s.(info := s.info[c := s.info[c].(slice := slice)]);
    assert x.info[c := x.info[c].(slice := slice)] == With(r, t, Carried(s, t, a, r.info[t])).info;
  }

  /** The charge touches the slice of the current task alone. */
  lemma ChargeRest(s: State, t: Id)
    requires Sane(s) && t in s.info
    ensures ChargeSlice(s).current == s.current
    ensures t in ChargeSlice(s).info && (s.current != Some(t) ==> ChargeSlice(s).info[t] == s.info[t])
    ensures ChargeSlice(s).info[t] == s.info[t].(slice := ChargeSlice(s).info[t].slice)
  {
    hide Yield;
    if s.current.Some? {
      var c := s.current.value;
      var full := s.(info := s.info[c := s.info[c].(slice := TIME_SLICE)]);
      YieldRecords(full);
      YieldCurrent(full);
    }
  }

  lemma YieldCurrent(s: State)
    requires Sane(s)
    ensures Yield(s).current == s.current
  {
  }

  lemma WithTick(s: State, t: Id, a: Task)
    requires Inv(s) && Unlisted(s, t) && Fits(s, t, a)
    ensures t in Tick(s).info && Idle(Tick(s).info[t])
    ensures Tick(With(s, t, a)) == With(Tick(s), t, Carried(s, t, a, Tick(s).info[t]))
    ensures s.current != Some(t) ==> Tick(s).info[t] == s.info[t]
  {
    assert Sane(s);
    hide Inv, Expire, ChargeSlice;
    WithExpire(s, t, a);
    ExpireRest(s, t);
    var e := Expire(s);
    WithCharge(e, t, a);
    ChargeRest(e, t);
    var c := ChargeSlice(e);
    WithPreempt(c, t, Carried(s, t, a, c.info[t]));
    hide PreemptByHighest;
    PreemptInfo(c);
  }

  lemma PreemptInfo(s: State)
    requires Sane(s)
    ensures PreemptByHighest(s).info == s.info
  {
  }

  lemma ExpireRest(s: State, t: Id)
    requires Inv(s) && Unlisted(s, t)
    ensures Expire(s).current == s.current && t in Expire(s).info && Expire(s).info[t] == s.info[t]
  {
    ExpireRecord(s, t);
    hide Inv, Keep, Drop;
  }

  lemma WithPreempt(s: State, t: Id, a: Task)
    requires Sane(s) && t in s.info && Fits(s, t, a)
    ensures PreemptByHighest(With(s, t, a)) == With(PreemptByHighest(s), t, a)
  {
  }

  /** A wake-up of u, and the switch that it may ask for. */
  lemma WithWoken(s: State, t: Id, a: Task, u: Id, code: Code, p: Prio)
    requires Sane(s) && t in s.info && u != t && Fits(s, t, a)
    ensures Sane(With(s, t, a))
    ensures Preempt(Wake(With(s, t, a), {u}, Answer(code)), p) == With(Preempt(Wake(s, {u}, Answer(code)), p), t, a)
  {
    hide Wake;
    WithWake(s, t, a, {u}, Answer(code));
    WakeRecord(s, {u}, Answer(code), t);
  }

  lemma WithUnblockTask(s: State, t: Id, a: Task, u: Id, code: Code)
    requires Sane(s) && t in s.info && u in s.info && s.info[t].state != Blocked && Fits(s, t, a)
    ensures Sane(With(s, t, a)) && UnblockTask(With(s, t, a), u, code) == With(UnblockTask(s, u, code), t, a)
  {
    hide Wake, Preempt;
    if u != t {
      WithWoken(s, t, a, u, code, s.info[u].priority);
    }
  }

  lemma WithUnblockOne(s: State, t: Id, a: Task, reason: Reason, obj: nat, code: Code)
    requires Sane(s) && BlockedOk(s) && t in s.info && t !in s.blocked && Fits(s, t, a)
    ensures Sane(With(s, t, a))
    ensures UnblockOne(With(s, t, a), reason, obj, code) == With(UnblockOne(s, reason, obj, code), t, a)
  {
    hide Wake, Best, Preempt;
    WakeLaws.BestAgree(s.info, With(s, t, a).info, s.blocked, reason, obj);
    var b := Best(s.info, s.blocked, reason, obj);
    if b.Some? {
      assert b.value in s.blocked;
      WithWoken(s, t, a, b.value, code, s.info[b.value].priority);
    }
  }

  lemma WithUnblockAll(s: State, t: Id, a: Task, reason: Reason, obj: nat, code: Code)
    requires Sane(s) && t in s.info && t !in s.blocked && Fits(s, t, a)
    ensures Sane(With(s, t, a))
    ensures UnblockAll(With(s, t, a), reason, obj, code) == With(UnblockAll(s, reason, obj, code), t, a)
  {
    hide Wake;
    assert Waiters(With(s, t, a), reason, obj) == Waiters(s, reason, obj);
    WithWake(s, t, a, Waiters(s, reason, obj), Answer(code));
  }

  lemma WithWakers(s: State, t: Id, a: Task, step: Step)
    requires Inv(s) && Unlisted(s, t) && Fits(s, t, a) && Enabled(s, step)
    requires step.DoUnblockTask? || step.DoUnblockOne? || step.DoUnblockAll?
    ensures Sane(With(s, t, a)) && Enabled(With(s, t, a), step)
    ensures Apply(With(s, t, a), step) == With(Apply(s, step), t, a)
  {
    NotBlocked(s, t);
    assert Sane(s) && BlockedOk(s);
    hide Inv, BlockedOk, UnblockTask, UnblockOne, UnblockAll, With, AddTask, Create,
         SetPriority, Yield, Retire, Lock, Unlock,
      Tick, Block, Expect, PendSV, Start;
    if step.DoUnblockTask? {
      WithUnblockTask(s, t, a, step.task, step.code);
    } else if step.DoUnblockOne? {
      WithUnblockOne(s, t, a, step.reason, step.obj, step.code);
    } else {
      WithUnblockAll(s, t, a, step.reason, step.obj, step.code);
    }
  }

  lemma WithBlock(s: State, t: Id, a: Task, reason: Reason, obj: nat, timeout: U32)
    requires Sane(s) && t in s.info && s.current != Some(t)
    ensures Block(With(s, t, a), reason, obj, timeout) == With(Block(s, reason, obj, timeout), t, a)
  {
    hide Drop;
    assert Block(With(s, t, a), reason, obj, timeout).info == With(Block(s, reason, obj, timeout), t, a).info;
  }

  lemma WithExpect(s: State, t: Id, a: Task, bits: U32, all: bool)
    requires Sane(s) && t in s.info && Fits(s, t, a)
    ensures t in Expect(s, bits, all).info
    ensures Expect(With(s, t, a), bits, all) ==
            With(Expect(s, bits, all), t, Carried(s, t, a, Expect(s, bits, all).info[t]))
  {
    var r := Expect(s, bits, all);
    assert Expect(With(s, t, a), bits, all).info == With(r, t, Carried(s, t, a, r.info[t])).info;
  }

  lemma WithNext(s: State, t: Id, a: Task)
    requires Inv(s) && Unlisted(s, t)
    ensures PendSV(With(s, t, a)) == With(PendSV(s), t, a)
    ensures GetNext(s).Some? ==> GetNext(s).value in s.info
    ensures GetNext(With(s, t, a)) == GetNext(s)
    ensures Start(With(s, t, a)) == With(Start(s), t, a)
  {
    if GetNext(s).Some? {
      NextKnown(s);
    }
    assert Highest(With(s, t, a)) == Highest(s);
    hide Highest, Inv;
    assert Start(With(s, t, a)).info == With(Start(s), t, a).info;
  }

  lemma WithCurrent(s: State, t: Id, a: Task, step: Step)
    requires Inv(s) && Unlisted(s, t) && Fits(s, t, a) && !About(s, step, t) && Enabled(s, step)
    requires step.DoBlock? || step.DoStart? || step.DoSwitch?
    ensures Sane(With(s, t, a)) && Enabled(With(s, t, a), step)
    ensures Apply(With(s, t, a), step) == With(Apply(s, step), t, a)
  {
    assert Sane(s);
    hide Inv, Block, Start, PendSV, GetNext;
    match step
    case DoBlock(reason, obj, timeout) => WithBlock(s, t, a, reason, obj, timeout);
    case DoStart => WithNext(s, t, a);
    case DoSwitch => WithNext(s, t, a);
  }

  lemma WithCreate(s: State, t: Id, a: Task, u: Id, p: Prio)
    requires Sane(s) && t in s.info && u != t && Fits(s, t, a) && (u in s.info ==> Idle(s.info[u]))
    ensures Create(With(s, t, a), u, p) == With(Create(s, u, p), t, a)
  {
    hide AddTask;
    WithAdd(s.(info := s.info[u := NewTask(p)]), t, a, u);
    assert s.info[t := a][u := NewTask(p)] == s.info[u := NewTask(p)][t := a];
  }

  lemma WithOthers(s: State, t: Id, a: Task, step: Step)
    requires Inv(s) && Unlisted(s, t) && Fits(s, t, a) && !About(s, step, t) && Enabled(s, step)
    requires Simple(step) && !step.DoBlock? && !step.DoExpect? && !step.DoStart? && !step.DoSwitch?
    ensures Sane(With(s, t, a)) && Enabled(With(s, t, a), step)
    ensures Apply(With(s, t, a), step) == With(Apply(s, step), t, a)
  {
    assert Sane(s);
    hide Inv, AddTask, Create, SetPriority, Yield, Retire, Lock, Unlock, Tick, Block, Expect, PendSV, Start,
      UnblockTask, UnblockOne, UnblockAll;
    match step
    case DoCreate(u, p) => WithCreate(s, t, a, u, p);
    case DoSetPriority(u, p) => WithRank(s, t, a, u, p);
    case DoAdd(u) => WithAdd(s, t, a, u);
    case DoYield => WithYield(s, t, a);
    case DoRetire(u, state) => WithRetire(s, t, a, u, state);
    case DoLock => WithLock(s, t, a);
    case DoUnlock => WithLock(s, t, a);
    case DoTestResume(u) =>
  }

  lemma WithLock(s: State, t: Id, a: Task)
    ensures Lock(With(s, t, a)) == With(Lock(s), t, a) && Unlock(With(s, t, a)) == With(Unlock(s), t, a)
  {
  }

  lemma WithRetire(s: State, t: Id, a: Task, u: Id, state: TaskState)
    requires Sane(s) && t in s.info && u in s.info && u != t
    ensures Retire(With(s, t, a), u, state) == With(Retire(s, u, state), t, a)
  {
    assert Retire(With(s, t, a), u, state).info == With(Retire(s, u, state), t, a).info;
  }

  /** The records of an unlisted task that is not current stay as they are. */
  lemma StillRecord(s: State, t: Id, step: Step)
    requires Inv(s) && Unlisted(s, t) && !About(s, step, t) && Enabled(s, step)
    requires s.current != Some(t) || (!step.DoTick? && !step.DoExpect?)
    ensures t in Apply(s, step).info && Apply(s, step).info[t] == s.info[t]
  {
    assert Sane(s) && BlockedOk(s) && (step.DoTick? ==> Apply(s, step) == Tick(s));
    hide Inv, Apply, BlockedOk, Tick;
    if step.DoTick? {
      WithTick(s, t, s.info[t]);
    } else if Simple(step) {
      SimpleInfo(s, step);
      NextListed(s, t);
    } else {
      WakersRecord(s, step, t);
    }
  }

  lemma NextListed(s: State, t: Id)
    requires Inv(s) && Unlisted(s, t)
    ensures GetNext(s) != Some(t)
  {
    if GetNext(s).Some? {
      NextKnown(s);
    }
    hide GetNext;
  }

  /** A step that is not about an unlisted task leaves it so. */
  lemma StillUnlisted(s: State, t: Id, step: Step)
    requires Inv(s) && Unlisted(s, t) && !About(s, step, t) && Enabled(s, step)
    ensures Unlisted(Next(s, step), t) && Next(s, step).info[t].state == s.info[t].state
    ensures s.current != Some(t) ==> Next(s, step).current != Some(t)
  {
    hide Inv, Next, Fate;
    StepCore(s, step, t);
    if step.DoSwitch? || step.DoStart? {
      NextListed(s, t);
      SwitchCurrent(s, step);
    } else {
      StepCurrent(s, step);
    }
  }

  lemma SwitchCurrent(s: State, step: Step)
    requires Inv(s) && Enabled(s, step) && (step.DoSwitch? || step.DoStart?)
    ensures Next(s, step).current == GetNext(s) || Next(s, step).current == s.current
  {
    hide GetNext, Inv;
  }

  /** A step that is not about t does not notice what t's record says. */
  lemma StepUnnoticed(s: State, t: Id, a: Task, step: Step)
    requires Inv(s) && Unlisted(s, t) && Fits(s, t, a) && !About(s, step, t) && Enabled(s, step)
    ensures Sane(With(s, t, a)) && Enabled(With(s, t, a), step)
    ensures var r := Next(s, step);
            && Unlisted(r, t) && r.info[t].state == s.info[t].state
            && (s.current != Some(t) ==> r.current != Some(t) && r.info[t] == s.info[t])
            && Apply(With(s, t, a), step) == With(r, t, Carried(s, t, a, r.info[t]))
            && Fits(r, t, Carried(s, t, a, r.info[t]))
  {
    assert Sane(s) && Next(s, step) == Apply(s, step);
    StillUnlisted(s, t, step);
    if step.DoTick? {
      WithTick(s, t, a);
    } else if step.DoExpect? {
      WithExpect(s, t, a, step.bits, step.all);
    } else {
      StillRecord(s, t, step);
      if step.DoBlock? || step.DoStart? || step.DoSwitch? {
        WithCurrent(s, t, a, step);
      } else if Simple(step) {
        WithOthers(s, t, a, step);
      } else {
        WithWakers(s, t, a, step);
      }
    }
    hide Inv, Apply, Enabled, Next;
    if s.current == Some(t) && !step.DoSwitch? && !step.DoStart? {
      StepCurrent(s, step);
    }
  }

  /** s, except for the state that t's record gives. */
  function Marked(s: State, t: Id, x: TaskState): State
    requires t in s.info
  {
    With(s, t, s.info[t].(state := x))
  }

  lemma StepMarked(s: State, t: Id, x: TaskState, step: Step)
    requires Inv(s) && Unlisted(s, t) && x != Blocked && !About(s, step, t) && Enabled(s, step)
    ensures Sane(Marked(s, t, x)) && Enabled(Marked(s, t, x), step)
    ensures Unlisted(Next(s, step), t) && Next(s, step).info[t].state == s.info[t].state
    ensures Apply(Marked(s, t, x), step) == Marked(Next(s, step), t, x)
    ensures s.current != Some(t) ==> Next(s, step).current != Some(t) && Next(s, step).info[t] == s.info[t]
  {
    hide Inv, Enabled, Next, Apply, About;
    StepUnnoticed(s, t, s.info[t].(state := x), step);
  }

  // ---- Runs inside a gap ----

  /** A run that asks nothing of the lists. */
  ghost predicate GapRun(s: State, steps: seq<Step>)
    decreases |steps|
  {
    Sane(s) && (steps == [] || (Enabled(s, steps[0]) && GapRun(Apply(s, steps[0]), steps[1..])))
  }

  ghost function GapAfter(s: State, steps: seq<Step>): State
    requires GapRun(s, steps)
    decreases |steps|
  {
    if steps == [] then s else GapAfter(Apply(s, steps[0]), steps[1..])
  }

  /** No step of the run is about t. */
  ghost predicate Apart(s: State, steps: seq<Step>, t: Id)
    requires GapRun(s, steps)
    decreases |steps|
  {
    steps == [] || (!About(s, steps[0], t) && Apart(Apply(s, steps[0]), steps[1..], t))
  }

  lemma EnabledSame(s: State, t: Id, a: Task, step: Step)
    requires Inv(s) && Unlisted(s, t) && Fits(s, t, a) && !About(s, step, t) && Sane(With(s, t, a))
    ensures Enabled(With(s, t, a), step) <==> Enabled(s, step)
  {
    assert With(s, t, a).ready == s.ready && With(s, t, a).info.Keys == s.info.Keys;
    assert Highest(With(s, t, a)) == Highest(s);
    hide Highest, Inv;
  }

  /** As long as no step is about t, a run goes on beside t's gap exactly as if t were suspended. */
  lemma {:induction false} Unnoticed(s: State, t: Id, x: TaskState, steps: seq<Step>)
    requires Inv(s) && Unlisted(s, t) && x != Blocked
    requires GapRun(Marked(s, t, x), steps) && Apart(Marked(s, t, x), steps, t)
    ensures Run(s, steps)
    ensures var r := After(s, steps);
            && Unlisted(r, t) && r.info[t].state == s.info[t].state
            && GapAfter(Marked(s, t, x), steps) == Marked(r, t, x)
            && (s.current != Some(t) ==> r.current != Some(t) && r.info[t] == s.info[t])
    decreases |steps|
  {
    hide Inv, Next, Enabled, Marked, Unlisted, About;
    if steps != [] {
      EnabledMarked(s, t, x, steps[0]);
      StepMarked(s, t, x, steps[0]);
      assert t in s.info by { Known(s, t); }
      Unnoticed(Next(s, steps[0]), t, x, steps[1..]);
    }
  }

  lemma Known(s: State, t: Id)
    requires Unlisted(s, t)
    ensures t in s.info
  {
  }

  lemma EnabledMarked(s: State, t: Id, x: TaskState, step: Step)
    requires Inv(s) && Unlisted(s, t) && x != Blocked && Sane(Marked(s, t, x)) && Enabled(Marked(s, t, x), step)
    requires !About(Marked(s, t, x), step, t)
    ensures Enabled(s, step) && !About(s, step, t)
  {
    hide Inv, Enabled;
    EnabledSame(s, t, s.info[t].(state := x), step);
  }

  // ---- Runs that list the task ----

  /** Nobody suspends or deletes t. */
  predicate Spared(steps: seq<Step>, t: Id) {
    forall x :: x in steps ==> !(x.DoRetire? && x.task == t)
  }

  lemma StepListed(s: State, t: Id, step: Step)
    requires Inv(s) && Enabled(s, step) && t in s.info && !Idle(s.info[t]) && !(step.DoRetire? && step.task == t)
    ensures t in Next(s, step).info && !Idle(Next(s, step).info[t])
  {
    hide Inv, Next, Fate;
    StepCore(s, step, t);
  }

  lemma {:induction false} RunListed(s: State, t: Id, steps: seq<Step>)
    requires Inv(s) && t in s.info && !Idle(s.info[t]) && GapRun(s, steps) && Spared(steps, t)
    ensures Inv(GapAfter(s, steps)) && t in GapAfter(s, steps).info && !Idle(GapAfter(s, steps).info[t])
    decreases |steps|
  {
    if steps != [] {
      assert steps[0] in steps && forall x :: x in steps[1..] ==> x in steps;
      StepListed(s, t, steps[0]);
      assert Next(s, steps[0]) == Apply(s, steps[0]);
      hide Inv, Apply, Enabled, Idle;
      RunListed(Next(s, steps[0]), t, steps[1..]);
    }
  }

  lemma AddOverwrites(s: State, t: Id, a: Task)
    requires Sane(s) && t in s.info && a == s.info[t].(state := a.state)
    ensures AddTask(With(s, t, a), t) == AddTask(s, t)
  {
    assert AddTask(With(s, t, a), t).info == AddTask(s, t).info;
  }

  /** The end of scheduler_set_priority: the priority, and the task on its list. */
  function RankRest(s: State, t: Id, p: Prio): State
    requires Sane(s) && t in s.info
  {
    AddTask(s.(info := s.info[t := s.info[t].(priority := p)]), t)
  }

  /** It puts an unlisted task on its list, whatever its record says. */
  lemma RestMends(s: State, t: Id, x: TaskState, p: Prio)
    requires Inv(s) && Unlisted(s, t)
    ensures Sane(Marked(s, t, x)) && Inv(RankRest(Marked(s, t, x), t, p))
    ensures t in RankRest(Marked(s, t, x), t, p).info && !Idle(RankRest(Marked(s, t, x), t, p).info[t])
  {
    SaneInv(s);
    hide Inv, AddTask;
    var s2 := s.(info := s.info[t := s.info[t].(priority := p)]);
    var a := s2.info[t].(state := x);
    RerankInv(s, t, p);
    AddTaskInv(s2, t);
    AddOverwrites(s2, t, a);
    AddTaskInfo(s2, t);
    assert Marked(s, t, x).info[t := a] == s2.info[t := a];
  }

  /** A step about t, whose record says that it runs, puts it on a list. */
  lemma AboutLists(s: State, t: Id, x: TaskState, step: Step)
    requires Inv(s) && Unlisted(s, t) && (x == Ready || x == Running)
    requires Sane(Marked(s, t, x)) && Enabled(Marked(s, t, x), step) && About(Marked(s, t, x), step, t)
    requires !(step.DoRetire? && step.task == t)
    ensures var r := Apply(Marked(s, t, x), step);
            Inv(r) && t in r.info && !Idle(r.info[t])
  {
    var m := Marked(s, t, x);
    match step
    case DoSetPriority(_, p) =>
      Runs(s, t);
      SelectNone(s.ready[s.info[t].priority], {t});
      assert RemoveTask(m, t) == m;
      RestMends(s, t, x, p);
      hide Inv, RemoveTask, AddTask;
    case DoBlock(reason, obj, timeout) =>
      BlockInv(s, reason, obj, timeout);
      assert Block(m, reason, obj, timeout).info == Block(s, reason, obj, timeout).info;
      hide Inv, Drop;
    case _ => assert false;
  }

  /** Some step of the run is about t: then t is on a list at the end. */
  lemma {:induction false} NotApartLists(s: State, t: Id, x: TaskState, steps: seq<Step>)
    requires Inv(s) && Unlisted(s, t) && (x == Ready || x == Running)
    requires GapRun(Marked(s, t, x), steps) && !Apart(Marked(s, t, x), steps, t) && Spared(steps, t)
    ensures var m := GapAfter(Marked(s, t, x), steps);
            Inv(m) && t in m.info && !Idle(m.info[t])
    decreases |steps|
  {
    assert steps[0] in steps && forall y :: y in steps[1..] ==> y in steps;
    hide Inv, Next, Enabled, Apply, Marked, Unlisted, About, Idle;
    var m := Marked(s, t, x);
    if About(m, steps[0], t) {
      AboutLists(s, t, x, steps[0]);
      RunListed(Apply(m, steps[0]), t, steps[1..]);
    } else {
      EnabledMarked(s, t, x, steps[0]);
      StepMarked(s, t, x, steps[0]);
      NotApartLists(Next(s, steps[0]), t, x, steps[1..]);
    }
  }

  /**
   * The add that ends a gap in which the record says already that t runs: it keeps the
   * partition exactly when no step in the gap was about t, and then it is as good as if it
   * came at once.
   */
  lemma AddAfterGap(s: State, t: Id, x: TaskState, steps: seq<Step>)
    requires Inv(s) && Unlisted(s, t) && (x == Ready || x == Running)
    requires GapRun(Marked(s, t, x), steps) && Spared(steps, t)
    ensures var m := GapAfter(Marked(s, t, x), steps);
            && Sane(m) && t in m.info
            && (Inv(AddTask(m, t)) <==> Apart(Marked(s, t, x), steps, t))
            && (Apart(Marked(s, t, x), steps, t) ==>
                  && Run(s, steps) && t in After(s, steps).info && After(s, steps).info[t].state == s.info[t].state
                  && Enabled(After(s, steps), DoAdd(t)) && AddTask(m, t) == Next(After(s, steps), DoAdd(t)))
  {
    hide Inv, AddTask, GapRun, GapAfter, Apart;
    if Apart(Marked(s, t, x), steps, t) {
      Unnoticed(s, t, x, steps);
      var r := After(s, steps);
      AddMarked(r, t, x);
    } else {
      NotApartLists(s, t, x, steps);
      var m := GapAfter(Marked(s, t, x), steps);
      SaneInv(m);
      AddTaskIff(m, t);
    }
  }

  lemma SaneInv(s: State)
    requires Inv(s)
    ensures Sane(s)
  {
  }

  lemma AddMarked(s: State, t: Id, x: TaskState)
    requires Inv(s) && Unlisted(s, t)
    ensures Sane(Marked(s, t, x)) && Enabled(s, DoAdd(t)) && AddTask(Marked(s, t, x), t) == Next(s, DoAdd(t))
  {
    AddOverwrites(s, t, s.info[t].(state := x));
    hide Inv, AddTask;
  }

  // ---- task_resume and task_create ----

  /**
   * task_resume writes the state before it adds the task. As long as nobody suspends or
   * deletes the task in between, the two writes come to the one step DoAdd exactly when no
   * set-priority of the task, and no block by it, falls between them; otherwise the task is
   * on two lists, or twice on one.
   */
  lemma ResumeWindow(s: State, t: Id, steps: seq<Step>)
    requires Inv(s) && t in s.info && ResumeTest(s, t)
    requires GapRun(Marked(s, t, Ready), steps) && Spared(steps, t)
    ensures var m := GapAfter(Marked(s, t, Ready), steps);
            && Sane(m) && t in m.info
            && (Inv(AddTask(m, t)) <==> Apart(Marked(s, t, Ready), steps, t))
            && (Apart(Marked(s, t, Ready), steps, t) ==>
                  && Run(s, steps) && t in After(s, steps).info && ResumeTest(After(s, steps), t)
                  && Enabled(After(s, steps), DoAdd(t)) && AddTask(m, t) == Next(After(s, steps), DoAdd(t)))
  {
    AddAfterGap(s, t, Ready, steps);
  }

  /** A set-priority between the two writes lists the task, and the add lists it again. */
  lemma RankInWindow(s: State, t: Id, p: Prio)
    requires Inv(s) && t in s.info && ResumeTest(s, t)
    ensures var steps := [DoSetPriority(t, p)];
            && GapRun(Marked(s, t, Ready), steps)
            && var m := GapAfter(Marked(s, t, Ready), steps);
               && Sane(m) && t in m.info && !Inv(AddTask(m, t)) && multiset(AddTask(m, t).ready[p])[t] >= 2
  {
    var steps := [DoSetPriority(t, p)];
    var w := Marked(s, t, Ready);
    var m := Apply(w, steps[0]);
    assert steps[1..] == [];
    assert Sane(w) && Enabled(w, steps[0]) && Sane(m);
    assert GapRun(m, []) && GapAfter(m, []) == m;
    AboutLists(s, t, Ready, steps[0]);
    RerankedInfo(w, t, p);
    AddTaskIff(m, t);
    hide Inv, AddTask, SetPriority;
  }

  /** task_create's writes to a control block that is in no list, all but the last, which adds it. */
  function Written(s: State, t: Id, p: Prio): State {
    With(s, t, NewTask(p))
  }

  /** The same for task_create, which writes the whole record before the add. */
  lemma CreateWindow(s: State, t: Id, p: Prio, steps: seq<Step>)
    requires Inv(s) && (t in s.info ==> Idle(s.info[t]))
    requires GapRun(Written(s, t, p), steps) && Spared(steps, t)
    ensures var m := GapAfter(Written(s, t, p), steps);
            && Sane(m) && t in m.info && (Inv(AddTask(m, t)) <==> Apart(Written(s, t, p), steps, t))
            && (steps == [] ==> AddTask(m, t) == Create(s, t, p))
  {
    var idle := With(s, t, NewTask(p).(state := Deleted));
    assert Inv(idle) by {
      forall q | 0 <= q < MAX_PRIORITY
        ensures ListOk(idle, q)
      {
        assert ListOk(s, q);
      }
    }
    assert Written(s, t, p) == Marked(idle, t, Ready) by {
      assert s.info[t := NewTask(p)] == idle.info[t := NewTask(p)];
    }
    AddAfterGap(idle, t, Ready, steps);
    hide Inv, AddTask, GapRun, Apart;
  }

  /**
   * Two resumes of one suspended task, the second tested before the first adds: the second
   * add lists the task twice, although a test made now would refuse it.
   */
  lemma DoubleResume(s: State, t: Id)
    requires Inv(s) && t in s.info && ResumeTest(s, t)
    ensures var steps := [DoTestResume(t), DoTestResume(t), DoAdd(t)];
            && Run(s, steps)
            && var r := After(s, steps);
               && t in r.info && !ResumeTest(r, t)
               && !Inv(AddTask(r, t)) && multiset(AddTask(r, t).ready[r.info[t].priority])[t] >= 2
  {
    var steps := [DoTestResume(t), DoTestResume(t), DoAdd(t)];
    var r := Next(s, DoAdd(t));
    AddTaskIff(r, t);
    assert Next(s, DoTestResume(t)) == s;
    Run3(s, DoTestResume(t), DoTestResume(t), DoAdd(t));
    hide Inv, AddTask;
  }

  lemma Run3(s: State, a: Step, b: Step, c: Step)
    requires Inv(s) && Enabled(s, a) && Enabled(Next(s, a), b) && Enabled(Next(Next(s, a), b), c)
    ensures Run(s, [a, b, c]) && After(s, [a, b, c]) == Next(Next(Next(s, a), b), c)
  {
    hide Inv, Next, Enabled;
    var s1 := Next(s, a);
    var s2 := Next(s1, b);
    var s3 := Next(s2, c);
    assert [a, b, c][1..] == [b, c] && [b, c][1..] == [c] && [c][1..] == [];
    assert Run(s3, []) && After(s3, []) == s3;
    assert Run(s2, [c]) && After(s2, [c]) == s3;
    assert Run(s1, [b, c]) && After(s1, [b, c]) == s3;
  }

  // ---- scheduler_set_priority ----

  /** Between its two critical sections: t is off its list, and its record still says it runs. */
  function RankGap(s: State, t: Id): State
    requires t in s.info
  {
    RemoveTask(s, t)
  }

  lemma RankGapIs(s: State, t: Id)
    requires Inv(s) && t in s.info && s.info[t].Runnable()
    ensures Inv(Retire(s, t, Suspended)) && Unlisted(Retire(s, t, Suspended), t)
    ensures RankGap(s, t) == Marked(Retire(s, t, Suspended), t, s.info[t].state)
    ensures Retire(s, t, Suspended).info[t] == s.info[t].(state := Suspended)
    ensures Retire(s, t, Suspended).current == s.current
  {
    RetireInv(s, t, Suspended);
    assert s.info[t := s.info[t].(state := Suspended)][t := s.info[t]] == s.info;
  }

  /**
   * The call tests the state before all that, outside any critical section. If it found the
   * task off the ready lists, it just writes the priority; that keeps the partition exactly
   * when the task has not come back to a ready list since, or has that priority already.
   */
  lemma RankUnlisted(s: State, t: Id, p: Prio)
    requires Inv(s) && t in s.info
    ensures Inv(s.(info := s.info[t := s.info[t].(priority := p)])) <==>
            !s.info[t].Runnable() || p == s.info[t].priority
  {
    var r := s.(info := s.info[t := s.info[t].(priority := p)]);
    if !s.info[t].Runnable() {
      RerankInv(s, t, p);
    } else if p == s.info[t].priority {
      assert r.info == s.info;
    } else {
      Runs(s, t);
      assert !ListOk(r, p);
    }
  }

  /** The end of the call on a task that has come back to a list, or never left one. */
  lemma RestTwice(s: State, t: Id, p: Prio)
    requires Inv(s) && t in s.info && !Idle(s.info[t])
    ensures !Inv(RankRest(s, t, p))
  {
    var r := RankRest(s, t, p);
    var q := s.info[t].priority;
    AddTaskInfo(s.(info := s.info[t := s.info[t].(priority := p)]), t);
    if s.info[t].state == Blocked {
      assert t in r.blocked && r.info[t].state == Ready;
    } else {
      assert ListOk(s, q);
      var i :| 0 <= i < |s.ready[q]| && s.ready[q][i] == t;
      assert r.ready[q][i] == t;
      if Inv(r) {
        assert ListOk(r, q);
        assert r.ready[q] == s.ready[q] + [t];
        NotTwice(r, q, i, |s.ready[q]|);
      }
    }
  }

  /**
   * Between removal and addition: as long as nobody suspends or deletes the task, the rest of
   * the call keeps the partition exactly when no other set-priority of the task, and no block
   * by it, falls into the gap.
   */
  lemma RankCompletes(s: State, t: Id, p: Prio, steps: seq<Step>)
    requires Inv(s) && t in s.info && s.info[t].Runnable()
    requires GapRun(RankGap(s, t), steps) && Spared(steps, t)
    ensures var m := GapAfter(RankGap(s, t), steps);
            && Sane(m) && t in m.info
            && (Inv(RankRest(m, t, p)) <==> Apart(RankGap(s, t), steps, t))
            && (Apart(RankGap(s, t), steps, t) && s.current != Some(t) ==> m.info[t] == s.info[t])
  {
    var s1, x := Retire(s, t, Suspended), s.info[t].state;
    RankGapIs(s, t);
    hide Inv, GapRun, GapAfter, RankRest, Retire, Apart, RankGap;
    if Apart(RankGap(s, t), steps, t) {
      Unnoticed(s1, t, x, steps);
      RestMends(After(s1, steps), t, x, p);
    } else {
      NotApartLists(s1, t, x, steps);
      SaneInv(GapAfter(RankGap(s, t), steps));
      RestTwice(GapAfter(RankGap(s, t), steps), t, p);
    }
  }

  /**
   * A task that was ready at the test and is blocked by now: where Chains.RankBlocked says
   * that the lists come out right, the call has woken the task.
   */
  lemma RankWakes(s: State, t: Id, p: Prio)
    requires Inv(s) && t in s.info && s.info[t].state == Blocked
    ensures var u := s.(blocked := Drop(s.blocked, {t}));
            && Sane(u) && Inv(RankRest(u, t, p))
            && RankRest(u, t, p).info[t] == s.info[t].(priority := p, state := Ready, slice := TIME_SLICE)
  {
    var u := s.(blocked := Drop(s.blocked, {t}));
    var idle := u.(info := s.info[t := s.info[t].(state := Suspended)]);
    SelectNoDup(s.blocked, {t});
    assert Inv(idle) by {
      forall q | 0 <= q < MAX_PRIORITY
        ensures ListOk(idle, q)
      {
        assert ListOk(s, q);
      }
    }
    assert u == Marked(idle, t, Blocked) by {
      assert idle.info[t := s.info[t]] == s.info;
    }
    RestMends(idle, t, Blocked, p);
    AddTaskInfo(u.(info := u.info[t := u.info[t].(priority := p)]), t);
  }

  /**
   * A switch in the gap takes the processor from the task that makes the call. It stays in
   * its ready list, and so comes back to finish, unless it is the task being re-ranked.
   */
  lemma RankGapSwitch(s: State, t: Id)
    requires Inv(s) && t in s.info && s.info[t].Runnable()
    requires s.current.Some? && s.info[s.current.value].Runnable()
    ensures var c, g := s.current.value, PendSV(RankGap(s, t));
            (c in g.ready[s.info[c].priority] || g.current == Some(c)) <==> c != t
  {
    var c := s.current.value;
    var s1 := Retire(s, t, Suspended);
    RankGapIs(s, t);
    assert ListOk(s, s.info[c].priority);
    SelectNoDup(s.ready[s.info[c].priority], {t});
    if GetNext(s1).Some? {
      NextKnown(s1);
    }
    assert Highest(RankGap(s, t)) == Highest(s1);
    hide Inv, Highest, Keep, Drop;
  }

  /** In no list, and not current. */
  ghost predicate Lost(s: State, t: Id) {
    t !in s.blocked && s.current != Some(t) && forall p: nat :: p < MAX_PRIORITY ==> t !in s.ready[p]
  }

  /**
   * A task that is switched out while it changes its own priority is lost for good: until a
   * step is about it, no run lists it again or makes it current.
   */
  lemma RankLost(s: State, steps: seq<Step>)
    requires Inv(s) && s.current.Some? && s.info[s.current.value].Runnable()
    requires GapRun(PendSV(RankGap(s, s.current.value)), steps)
    requires Apart(PendSV(RankGap(s, s.current.value)), steps, s.current.value)
    ensures Lost(GapAfter(PendSV(RankGap(s, s.current.value)), steps), s.current.value)
  {
    var c := s.current.value;
    var s1, x := Retire(s, c, Suspended), s.info[c].state;
    RankGapIs(s, c);
    var s2 := PendSV(s1);
    PendSVInv(s1);
    NextListed(s1, c);
    assert PendSV(RankGap(s, c)) == Marked(s2, c, x) by {
      assert Highest(RankGap(s, c)) == Highest(s1);
      hide Highest, Inv;
    }
    assert Away(s2, c);
    hide Inv, PendSV, Retire, GapRun, GapAfter, Run, After, Apart, RankGap;
    Unnoticed(s2, c, x, steps);
    AwayLost(After(s2, steps), c);
  }

  lemma AwayLost(s: State, t: Id)
    requires Inv(s) && Away(s, t)
    ensures Lost(s, t)
  {
    forall p: nat | p < MAX_PRIORITY
      ensures t !in s.ready[p]
    {
      assert ListOk(s, p);
    }
  }
}
