/**
 * What one step of the kernel does to one task's record, stated task by task and without
 * the lists. Everything said later about waits and priorities over runs rests on it.
 */
module TaskLaws {
  import opened Types
  import opened Seqs
  import opened SchedSpec
  import opened SchedInv
  import opened SchedRuns

  /** A record without its priority and slice, and with READY and RUNNING identified. */
  function Core(a: Task): Task {
    Task(0, a.base, if a.Runnable() then Ready else a.state, 0, a.wakeTick, a.reason, a.obj, a.timeout,
         a.result, a.waitBits, a.waitAll)
  }

  /** The wake-up that a step gives the blocked task t, if any. */
  function Fate(s: State, step: Step, t: Id): Option<Wakeup>
    requires t in s.info
  {
    match step
    case DoTick => if Due(s.info[t], (s.tick + 1) % TWO32) then Some(Expired) else None
    case DoUnblockTask(u, code) => if u == t then Some(Answer(code)) else None
    case DoUnblockOne(reason, obj, code) =>
      if Best(s.info, s.blocked, reason, obj) == Some(t) then Some(Answer(code)) else None
    case DoUnblockAll(reason, obj, code) => if Waits(s.info, t, reason, obj) then Some(Answer(code)) else None
    case _ => None
  }

  /** The record of t after a step, by t's own situation. */
  function CoreAfter(s: State, step: Step, t: Id): Task
    requires t in s.info
  {
    var a := s.info[t];
    if a.state == Blocked then
      match Fate(s, step, t) {
        case None => Core(a)
        case Some(how) => Core(Woken(a, how))
      }
    else
      match step
      case DoBlock(reason, obj, timeout) =>
        if s.current == Some(t) then Core(Waiting(a, reason, obj, timeout, s.tick)) else Core(a)
      case DoExpect(bits, all) =>
        if s.current == Some(t) then Core(a).(waitBits := bits, waitAll := all) else Core(a)
      case DoCreate(u, p) => if u == t then Core(NewTask(p)) else Core(a)
      case DoRetire(u, state) => if u == t then Core(a.(state := state)) else Core(a)
      case DoAdd(u) => if u == t then Core(a.(state := Ready)) else Core(a)
      case _ => Core(a)
  }

  /** The walk of the tick touches exactly the blocked tasks that are due. */
  lemma ExpireRecord(s: State, t: Id)
    requires BlockedOk(s) && t in s.info
    ensures var a, e := s.info[t], Expire(s);
            && t in e.info
            && e.info[t] == if a.state == Blocked && Due(a, (s.tick + 1) % TWO32) then Woken(a, Expired) else a
  {
    assert t in s.blocked <==> s.info[t].state == Blocked;
  }

  /** The rest of the tick touches one slice at most. */
  lemma ChargeRecord(s: State, t: Id)
    requires Sane(s) && t in s.info
    ensures var r := PreemptByHighest(ChargeSlice(s));
            && t in r.info
            && r.info[t] == s.info[t].(slice := r.info[t].slice)
  {
    if s.current.Some? {
      var c := s.current.value;
      YieldRecords(s.(info := s.info[c := s.info[c].(slice := TIME_SLICE)]));
    }
    hide Inv, Highest, Yield;
  }

  lemma YieldRecords(s: State)
    requires Sane(s)
    ensures Yield(s).info == s.info
  {
  }

  lemma TickRecord(s: State, t: Id)
    requires Inv(s) && t in s.info
    ensures var a, r := s.info[t], Tick(s);
            && t in r.info
            && Core(r.info[t]) == CoreAfter(s, DoTick, t) && r.info[t].priority == a.priority
  {
    ExpireRecord(s, t);
    hide Inv, BlockedOk, ListOk, Wake;
    ChargeRecord(Expire(s), t);
    hide ChargeSlice, PreemptByHighest, Expire;
  }

  /** The tick charges one tick to the current task, refilling a used-up slice, and to nobody else. */
  lemma TickSlice(s: State, t: Id)
    requires Inv(s) && t in s.info
    ensures t in Tick(s).info
    ensures Tick(s).info[t].slice ==
            if s.current != Some(t) then s.info[t].slice
            else if s.info[t].slice > 1 then s.info[t].slice - 1
            else TIME_SLICE
  {
    ExpireRecord(s, t);
    hide Inv, BlockedOk, ListOk, Wake, Highest, Yield;
    var e := Expire(s);
    assert e.current == s.current;
    hide Expire;
    if e.current.Some? {
      var c := e.current.value;
      YieldRecords(e.(info := e.info[c := e.info[c].(slice := TIME_SLICE)]));
    }
  }

  /** Steps that wake nobody write at most one record. */
  predicate Simple(step: Step) {
    !step.DoTick? && !step.DoUnblockTask? && !step.DoUnblockOne? && !step.DoUnblockAll?
  }

  function Reranked(a: Task, p: Prio): Task {
    if a.Runnable() then a.(priority := p, state := Ready, slice := TIME_SLICE) else a.(priority := p)
  }

  function RecordsAfter(s: State, step: Step): map<Id, Task>
    requires Sane(s) && Enabled(s, step)
  {
    match step
    case DoCreate(t, p) => s.info[t := NewTask(p)]
    case DoSetPriority(t, p) => s.info[t := Reranked(s.info[t], p)]
    case DoRetire(t, state) => s.info[t := s.info[t].(state := state)]
    case DoAdd(t) => s.info[t := s.info[t].(state := Ready, slice := TIME_SLICE)]
    case DoStart => Start(s).info
    case DoExpect(bits, all) => Expect(s, bits, all).info
    case DoBlock(reason, obj, timeout) =>
      if s.current.None? then s.info
      else s.info[s.current.value := Waiting(s.info[s.current.value], reason, obj, timeout, s.tick)]
    case _ => s.info
  }

  lemma RerankedInfo(s: State, t: Id, p: Prio)
    requires Sane(s) && t in s.info
    ensures SetPriority(s, t, p).info == s.info[t := Reranked(s.info[t], p)]
  {
    hide Drop, Preempt;
    var s1 := RemoveTask(s, t);
    var s2 := s1.(info := s1.info[t := s1.info[t].(priority := p)]);
    assert AddTask(s2, t).info == s2.info[t := s2.info[t].(state := Ready, slice := TIME_SLICE)] by {
      AddTaskInfo(s2, t);
    }
  }

  lemma AddTaskInfo(s: State, t: Id)
    requires Sane(s) && t in s.info
    ensures AddTask(s, t).info == s.info[t := s.info[t].(state := Ready, slice := TIME_SLICE)]
  {
  }

  lemma SimpleInfo(s: State, step: Step)
    requires Sane(s) && Enabled(s, step) && Simple(step)
    ensures Apply(s, step).info == RecordsAfter(s, step)
  {
    hide Inv, Highest, Keep, Drop;
    match step
    case DoCreate(t, p) => AddTaskInfo(s.(info := s.info[t := NewTask(p)]), t);
    case DoSetPriority(t, p) => RerankedInfo(s, t, p);
    case DoAdd(t) => AddTaskInfo(s, t);
    case _ =>
  }

  lemma WakeRecord(s: State, w: set<Id>, how: Wakeup, t: Id)
    requires t in s.info
    ensures t in Wake(s, w, how).info && Wake(s, w, how).current == s.current
    ensures Wake(s, w, how).info[t] == if t in w then Woken(s.info[t], how) else s.info[t]
  {
    hide Keep, Drop, WithPriority;
  }

  lemma WakersRecord(s: State, step: Step, t: Id)
    requires BlockedOk(s) && Sane(s) && Enabled(s, step) && t in s.info && !Simple(step) && !step.DoTick?
    ensures var r := Apply(s, step);
            && t in r.info
            && r.info[t] == if s.info[t].state != Blocked then s.info[t]
                            else match Fate(s, step, t) {
                                case None => s.info[t]
                                case Some(how) => Woken(s.info[t], how)
                              }
  {
    hide Inv, Wake, Best;
    assert t in s.blocked <==> s.info[t].state == Blocked;
    match step
    case DoUnblockTask(u, code) => WakeRecord(s, {u}, Answer(code), t);
    case DoUnblockOne(reason, obj, code) =>
      var b := Best(s.info, s.blocked, reason, obj);
      if b.Some? {
        assert b.value in s.blocked;
        WakeRecord(s, {b.value}, Answer(code), t);
      }
    case DoUnblockAll(reason, obj, code) =>
      var w := Waiters(s, reason, obj);
      assert t in w <==> s.info[t].state == Blocked && Waits(s.info, t, reason, obj);
      WakeRecord(s, w, Answer(code), t);
  }

  lemma SimpleCore(s: State, step: Step, t: Id)
    requires Inv(s) && Enabled(s, step) && Simple(step) && t in s.info
    ensures t in RecordsAfter(s, step) && Core(RecordsAfter(s, step)[t]) == CoreAfter(s, step, t)
  {
    assert Sane(s);
    hide Inv, Highest;
    if step.DoStart? && GetNext(s).Some? {
      NextKnown(s);
    }
  }

  /** One step, one task. */
  lemma StepCore(s: State, step: Step, t: Id)
    requires Inv(s) && Enabled(s, step) && t in s.info
    ensures var r := Next(s, step); t in r.info && Core(r.info[t]) == CoreAfter(s, step, t)
  {
    assert Sane(s) && BlockedOk(s) && Next(s, step) == Apply(s, step) && (step.DoTick? ==> Apply(s, step) == Tick(s));
    hide Inv, BlockedOk, Apply, Next, Tick, Due, Best, RecordsAfter;
    if step.DoTick? {
      TickRecord(s, t);
    } else if Simple(step) {
      SimpleInfo(s, step);
      SimpleCore(s, step, t);
    } else {
      WakersRecord(s, step, t);
    }
  }

  /** A task is blocked after a step because it was, and is not woken, or because it blocks just now. */
  lemma BlockedAfter(s: State, step: Step, t: Id)
    requires Inv(s) && Enabled(s, step) && t in s.info && CoreAfter(s, step, t).state == Blocked
    ensures if s.info[t].state == Blocked then
              && Fate(s, step, t).None? && !(step.DoBlock? && s.current == Some(t))
              && CoreAfter(s, step, t) == Core(s.info[t])
            else
              && step.DoBlock? && s.current == Some(t)
              && CoreAfter(s, step, t) == Core(Waiting(s.info[t], step.reason, step.obj, step.timeout, s.tick))
  {
    hide Inv, Fate, WakeTick;
  }

  /** The priority a step leaves t with: only a set-priority or re-creation of t changes it. */
  function PriorityAfter(s: State, step: Step, t: Id): Prio
    requires t in s.info
  {
    match step
    case DoSetPriority(u, p) => if u == t then p else s.info[t].priority
    case DoCreate(u, p) => if u == t then p else s.info[t].priority
    case _ => s.info[t].priority
  }

  lemma StepPriority(s: State, step: Step, t: Id)
    requires Inv(s) && Enabled(s, step) && t in s.info
    ensures var r := Next(s, step); t in r.info && r.info[t].priority == PriorityAfter(s, step, t)
  {
    assert Sane(s) && BlockedOk(s) && Next(s, step) == Apply(s, step) && (step.DoTick? ==> Apply(s, step) == Tick(s));
    hide Inv, BlockedOk, Apply, Next, Tick, Fate;
    if step.DoTick? {
      TickRecord(s, t);
    } else if Simple(step) {
      SimpleInfo(s, step);
    } else {
      WakersRecord(s, step, t);
    }
  }

  /** Tasks appear only by creation, and never disappear. */
  lemma StepKeys(s: State, step: Step)
    requires Inv(s) && Enabled(s, step)
    ensures Next(s, step).info.Keys == if step.DoCreate? then s.info.Keys + {step.task} else s.info.Keys
  {
    if step.DoTick? {
      TickKeys(s);
    } else if Simple(step) {
      SimpleInfo(s, step);
      hide Apply, Inv;
    } else {
      WakersKeys(s, step);
    }
  }

  /** A task that appears is new. */
  lemma Newcomer(s: State, step: Step, t: Id)
    requires Inv(s) && Enabled(s, step) && t !in s.info && t in Next(s, step).info
    ensures step.DoCreate? && Next(s, step).info[t] == NewTask(step.priority)
  {
    assert Sane(s) && Next(s, step) == Apply(s, step);
    hide Inv, Enabled, Apply, Next;
    StepKeys(s, step);
    SimpleInfo(s, step);
  }

  lemma TickKeys(s: State)
    requires Sane(s)
    ensures Tick(s).info.Keys == s.info.Keys
  {
    assert Expire(s).info.Keys == s.info.Keys;
    hide Expire, Highest, Inv;
  }

  lemma WakersKeys(s: State, step: Step)
    requires Sane(s) && Enabled(s, step) && !Simple(step) && !step.DoTick?
    ensures Apply(s, step).info.Keys == s.info.Keys
  {
    hide Keep, Drop, Highest, Best, Inv;
  }

  /** The clock advances with ticks alone, modulo 2^32. */
  lemma StepClock(s: State, step: Step)
    requires Inv(s) && Enabled(s, step)
    ensures Next(s, step).tick == if step == DoTick then (s.tick + 1) % TWO32 else s.tick
  {
    hide Inv, Keep, Drop, Highest, Best, Waiters, DueSet, WithPriority;
  }
}
