/** Constants, enumerations and value records shared by every module of the model. */
module Types {
  const MAX_PRIORITY: nat := 32
  const TIME_SLICE: nat := 10
  const TWO32: nat := 0x1_0000_0000

  /** Task and object identities. Object 0 plays the part of the null pointer. */
  type Id = nat
  const NO_OBJECT: nat := 0

  /** Priorities, numerically smallest first: 0 outranks 31. */
  type Prio = p: nat | p < MAX_PRIORITY

  type U32 = n: nat | n < TWO32
  const TIMEOUT_NONE: U32 := 0
  const TIMEOUT_FOREVER: U32 := TWO32 - 1

  datatype Option<+T> = None | Some(value: T)

  datatype Code = Ok | ErrParam | ErrNoMem | ErrTimeout | ErrIsr | ErrState | ErrDeleted | ErrOverflow

  datatype TaskState = Ready | Running | Blocked | Suspended | Deleted

  datatype Reason = NoReason | Delay | Semaphore | Mutex | QueueSend | QueueRecv | Event

  /** The scheduling-relevant fields of a task control block. */
  datatype Task = Task(
    priority: Prio, base: Prio, state: TaskState, slice: U32, wakeTick: U32,
    reason: Reason, obj: nat, timeout: U32, result: Code,
    waitBits: U32, waitAll: bool)
  {
    /** READY and RUNNING are one class: nothing keeps RUNNING in step with the current task. */
    predicate Runnable() {
      state == Ready || state == Running
    }
  }

  /** A control block as task_create leaves it. */
  function NewTask(p: Prio): Task {
    Task(p, p, Ready, TIME_SLICE, 0, NoReason, NO_OBJECT, 0, Ok, 0, false)
  }

  type ReadyLists = r: seq<seq<Id>> | |r| == MAX_PRIORITY witness seq(MAX_PRIORITY, i => [])
}
