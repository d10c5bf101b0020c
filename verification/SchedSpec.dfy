/**
 * The scheduler on values: 32 ready sequences, one blocked sequence and the task
 * records. Each function is one critical section of kernel/scheduler.c or kernel/kernel.c.
 */
module SchedSpec {
  import opened Types
  import opened Seqs

  datatype State = State(
    info: map<Id, Task>,
    ready: ReadyLists,
    blocked: seq<Id>,
    tick: U32,
    current: Option<Id>,
    locks: U32,
    resched: bool,
    pending: bool)

  /** The current task, when there is one, is a known task. */
  predicate Sane(s: State) {
    s.current.Some? ==> s.current.value in s.info
  }

  /** The state scheduler_init leaves. */
  function Initial(): State {
    State(map[], seq(MAX_PRIORITY, i => []), [], 0, None, 0, false, false)
  }

  // ---- Selection ----

  function FirstNonEmpty(r: ReadyLists, from: nat): (p: nat)
    requires from <= MAX_PRIORITY
    ensures from <= p <= MAX_PRIORITY
    ensures forall i :: from <= i < p ==> r[i] == []
    ensures p < MAX_PRIORITY ==> r[p] != []
    decreases MAX_PRIORITY - from
  {
    if from == MAX_PRIORITY || r[from] != [] then from else FirstNonEmpty(r, from + 1)
  }

  function Highest(s: State): (p: nat)
    ensures p <= MAX_PRIORITY
  {
    FirstNonEmpty(s.ready, 0)
  }

  function GetNext(s: State): Option<Id> {
    var p := Highest(s);
    if p == MAX_PRIORITY then None else Some(s.ready[p][0])
  }

  /** PendSV: the handler asks for the next task and makes it current. */
  function PendSV(s: State): State {
    s.(current := GetNext(s), pending := false)
  }

  /** scheduler_trigger_switch when priority p outranks the current task. */
  function Preempt(s: State, p: Prio): State
    requires Sane(s)
  {
    if s.current.Some? && p < s.info[s.current.value].priority then s.(pending := true) else s
  }

  // ---- Ready lists ----

  function InsertTail(s: State, t: Id): State
    requires t in s.info
  {
    var p := s.info[t].priority;
    s.(ready := s.ready[p := s.ready[p] + [t]])
  }

  function AddTask(s: State, t: Id): (r: State)
    requires Sane(s) && t in s.info
    ensures Sane(r)
  {
    var s1 := s.(info := s.info[t := s.info[t].(state := Ready, slice := TIME_SLICE)]);
    Preempt(InsertTail(s1, t), s.info[t].priority)
  }

  function RemoveTask(s: State, t: Id): State
    requires t in s.info
  {
    var p := s.info[t].priority;
    s.(ready := s.ready[p := Drop(s.ready[p], {t})])
  }

  function SetPriority(s: State, t: Id, p: Prio): (r: State)
    requires Sane(s) && t in s.info
    ensures Sane(r)
  {
    if s.info[t].Runnable() then
      var s1 := RemoveTask(s, t);
      AddTask(s1.(info := s1.info[t := s1.info[t].(priority := p)]), t)
    else
      s.(info := s.info[t := s.info[t].(priority := p)])
  }

  /** Move the current task behind its peers when it heads its list. */
  function Rotate(s: State): State
    requires Sane(s) && s.current.Some?
  {
    var c := s.current.value;
    var p := s.info[c].priority;
    var q := s.ready[p];
    if |q| > 1 && q[0] == c then s.(ready := s.ready[p := q[1..] + [c]]) else s
  }

  function Yield(s: State): (r: State)
    requires Sane(s)
    ensures Sane(r)
  {
    if s.current.None? then s
    else if s.locks > 0 then s.(resched := true)
    else Rotate(s).(pending := true)
  }

  // ---- Blocking and waking ----

  function WakeTick(tick: U32, timeout: U32): U32 {
    if timeout == TIMEOUT_NONE then (tick + 1) % TWO32
    else if timeout == TIMEOUT_FOREVER then TIMEOUT_FOREVER
    else (tick + timeout) % TWO32
  }

  function Waiting(task: Task, reason: Reason, obj: nat, timeout: U32, tick: U32): Task {
    task.(state := Blocked, reason := reason, obj := obj, timeout := timeout, result := Ok,
          wakeTick := WakeTick(tick, timeout))
  }

  /** The critical section of scheduler_block_task. */
  function Block(s: State, reason: Reason, obj: nat, timeout: U32): (r: State)
    requires Sane(s)
    ensures Sane(r)
  {
    if s.current.None? then s
    else
      var c := s.current.value;
      var s1 := RemoveTask(s, c);
      s1.(info := s1.info[c := Waiting(s.info[c], reason, obj, timeout, s.tick)],
          blocked := [c] + s1.blocked, pending := true)
  }

  /** How a wake-up sets the blocked call's result. */
  datatype Wakeup = Expired | Answer(code: Code)

  function Woken(task: Task, how: Wakeup): Task {
    task.(state := Ready, reason := NoReason, obj := NO_OBJECT, timeout := 0,
          result := match how
                    case Expired => if task.reason == Delay then task.result else ErrTimeout
                    case Answer(code) => code)
  }

  function WithPriority(info: map<Id, Task>, w: set<Id>, p: nat): set<Id> {
    set t | t in w && t in info && info[t].priority == p
  }

  /** Move the blocked tasks in w to the tails of their ready lists, in blocked-list order. */
  function Wake(s: State, w: set<Id>, how: Wakeup): (r: State)
    ensures r.info.Keys == s.info.Keys
    ensures Sane(s) ==> Sane(r)
  {
    s.(info := map t | t in s.info :: if t in w then Woken(s.info[t], how) else s.info[t],
       blocked := Drop(s.blocked, w),
       ready := seq(MAX_PRIORITY, (p: nat) requires p < MAX_PRIORITY =>
                      s.ready[p] + Keep(s.blocked, WithPriority(s.info, w, p))))
  }

  function UnblockTask(s: State, t: Id, code: Code): (r: State)
    requires Sane(s) && t in s.info
    ensures Sane(r)
  {
    if s.info[t].state != Blocked then s
    else Preempt(Wake(s, {t}, Answer(code)), s.info[t].priority)
  }

  predicate Waits(info: map<Id, Task>, t: Id, reason: Reason, obj: nat) {
    t in info && info[t].reason == reason && info[t].obj == obj
  }

  /** The first task of numerically smallest priority among the waiters in q. */
  function Best(info: map<Id, Task>, q: seq<Id>, reason: Reason, obj: nat): (b: Option<Id>)
    ensures b.Some? ==> b.value in q && Waits(info, b.value, reason, obj)
  {
    if q == [] then None
    else
      var rest := Best(info, q[1..], reason, obj);
      if !Waits(info, q[0], reason, obj) then rest
      else if rest.None? || info[q[0]].priority <= info[rest.value].priority then Some(q[0])
      else rest
  }

  function UnblockOne(s: State, reason: Reason, obj: nat, code: Code): (r: State)
    requires Sane(s)
    ensures Sane(r)
  {
    match Best(s.info, s.blocked, reason, obj)
    case None => s
    case Some(b) => Preempt(Wake(s, {b}, Answer(code)), s.info[b].priority)
  }

  function Waiters(s: State, reason: Reason, obj: nat): set<Id> {
    set t | t in s.blocked && Waits(s.info, t, reason, obj)
  }

  function UnblockAll(s: State, reason: Reason, obj: nat, code: Code): (r: State)
    requires Sane(s)
    ensures Sane(r)
  {
    var w := Waiters(s, reason, obj);
    if w == {} then s else Wake(s, w, Answer(code)).(pending := true)
  }

  // ---- The tick ----

  predicate Due(task: Task, tick: U32) {
    if task.reason == Delay then tick >= task.wakeTick
    else task.timeout != TIMEOUT_NONE && task.timeout != TIMEOUT_FOREVER && tick >= task.wakeTick
  }

  function DueSet(s: State): set<Id> {
    set t | t in s.blocked && t in s.info && Due(s.info[t], s.tick)
  }

  /** Charge the current task one tick; at the end of its slice refill it and yield. */
  function ChargeSlice(s: State): (r: State)
    requires Sane(s)
    ensures Sane(r)
  {
    if s.current.None? then s
    else
      var c := s.current.value;
      var left := if s.info[c].slice > 0 then s.info[c].slice - 1 else 0;
      if left == 0 then Yield(s.(info := s.info[c := s.info[c].(slice := TIME_SLICE)]))
      else s.(info := s.info[c := s.info[c].(slice := left)])
  }

  /** Trigger a switch when any ready task outranks the current one. */
  function PreemptByHighest(s: State): (r: State)
    requires Sane(s)
    ensures Sane(r)
  {
    if s.current.Some? && Highest(s) < s.info[s.current.value].priority then s.(pending := true) else s
  }

  function Expire(s: State): State {
    var s1 := s.(tick := (s.tick + 1) % TWO32);
    Wake(s1, DueSet(s1), Expired)
  }

  function Tick(s: State): (r: State)
    requires Sane(s)
    ensures Sane(r)
  {
    PreemptByHighest(ChargeSlice(Expire(s)))
  }

  // ---- Scheduler lock ----

  function Lock(s: State): State {
    s.(locks := (s.locks + 1) % TWO32)
  }

  function Unlock(s: State): State {
    var s1 := if s.locks > 0 then s.(locks := s.locks - 1) else s;
    if s1.locks == 0 && s1.resched then s1.(resched := false, pending := true) else s1
  }

  // ---- Task life cycle ----

  /** In no list. */
  predicate Idle(task: Task) {
    task.state == Suspended || task.state == Deleted
  }

  /** task_create on a control block that is in no list. */
  function Create(s: State, t: Id, p: Prio): (r: State)
    requires Sane(s) && (t in s.info ==> Idle(s.info[t]))
    ensures Sane(r)
  {
    AddTask(s.(info := s.info[t := NewTask(p)]), t)
  }

  /** The critical sections of task_suspend and task_delete. */
  function Retire(s: State, t: Id, state: TaskState): (r: State)
    requires Sane(s) && t in s.info
    ensures Sane(r)
  {
    var s1 := RemoveTask(s, t);
    s1.(info := s1.info[t := s1.info[t].(state := state)])
  }

  /** task_suspend and task_delete: the current task yields once it is off its list. */
  function TaskRetire(s: State, t: Id, state: TaskState): (r: State)
    requires Sane(s) && t in s.info
    ensures Sane(r)
  {
    var r := Retire(s, t, state);
    if s.current == Some(t) then Yield(r) else r
  }

  /** The test of task_resume. */
  predicate ResumeTest(s: State, t: Id)
    requires t in s.info
  {
    s.info[t].state == Suspended
  }

  /** task_resume with nothing between its test and its add. */
  function Resume(s: State, t: Id): (r: State)
    requires Sane(s) && t in s.info
    ensures Sane(r)
  {
    if ResumeTest(s, t) then AddTask(s, t) else s
  }

  /** scheduler_start: the first task runs with a full slice. */
  function Start(s: State): (r: State)
    requires GetNext(s).Some? ==> GetNext(s).value in s.info
    ensures Sane(s) ==> Sane(r)
  {
    if GetNext(s).None? then s
    else
      var f := GetNext(s).value;
      s.(current := Some(f), info := s.info[f := s.info[f].(state := Running, slice := TIME_SLICE)])
  }

  /** event_wait notes the current task's condition in its control block. */
  function Expect(s: State, bits: U32, all: bool): (r: State)
    requires Sane(s)
    ensures Sane(r)
  {
    if s.current.None? then s
    else
      var c := s.current.value;
      s.(info := s.info[c := s.info[c].(waitBits := bits, waitAll := all)])
  }
}
