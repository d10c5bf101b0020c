/** kernel/sync/semaphore.c, joined to the scheduler. */
module Semaphores {
  import opened Types
  import opened Blocking
  import opened SchedSpec
  import opened Waiting
  import K = Scheduler
  import SR = SemaphoreRuns

  class Sem {
    const obj: nat
    var count: int
    var maxCount: int

    ghost predicate Valid()
      reads this
    {
      0 <= count <= SR.INT32_MAX && (maxCount > 0 ==> count <= maxCount)
    }

    /** sem_init, for arguments it accepts. */
    constructor (obj: nat, initial: int, maxCount: int)
      requires 0 <= initial <= SR.INT32_MAX && (maxCount > 0 ==> initial <= maxCount)
      ensures Valid() && this.obj == obj && count == initial && this.maxCount == maxCount
    {
      this.obj, this.count, this.maxCount := obj, initial, maxCount;
    }

    /** The test part of sem_take. */
    method TryTake() returns (ok: bool)
      requires Valid()
      modifies this`count
      ensures Valid() && ok == (old(count) > 0) && count == if ok then old(count) - 1 else old(count)
    {
      ok := count > 0;
      if ok {
        count := count - 1;
      }
    }

    /** One pass of sem_take; the caller of Sleeps passes again when woken with OK. */
    method TakePass(k: K.Sched, timeout: U32, isr: bool) returns (pass: Pass)
      requires Valid() && k.Valid() && (k.current != null ==> k.current.state != Blocked)
      modifies this`count, k, k.readyList, k.pool
      ensures Valid() && k.Valid()
      ensures pass == if old(count) > 0 then Done(Code.Ok)
                      else if timeout == TIMEOUT_NONE then Done(ErrTimeout)
                      else if isr then Done(ErrIsr)
                      else if old(k.current) == null then Done(ErrState)
                      else Sleeps
      ensures count == if pass == Done(Code.Ok) then old(count) - 1 else old(count)
      ensures k.abs == if pass == Sleeps then Block(old(k.abs), Semaphore, obj, timeout) else old(k.abs)
    {
      var ok := TryTake();
      if ok {
        return Done(Code.Ok);
      }
      pass := GiveUpOrSleep(k, Semaphore, obj, timeout, isr);
    }

    /** Add a token unless that passes the limit. */
    method AddToken() returns (code: Code)
      requires Valid() && ((maxCount > 0 && count >= maxCount) || count < SR.INT32_MAX)
      modifies this`count
      ensures Valid() && code == if maxCount > 0 && old(count) >= maxCount then ErrOverflow else Code.Ok
      ensures count == if code == Code.Ok then old(count) + 1 else old(count)
    {
      if maxCount > 0 && count >= maxCount {
        return ErrOverflow;
      }
      count := count + 1;
      code := Code.Ok;
    }

    /** sem_give: wake one waiter, or else add a token, in one critical section. */
    method Give(k: K.Sched) returns (code: Code)
      requires Valid() && k.Valid()
      requires Chosen(k.abs, Semaphore, obj).Some? || (maxCount > 0 && count >= maxCount) || count < SR.INT32_MAX
      modifies this`count, k, k.readyList, k.pool
      ensures Valid() && k.Valid() && k.abs == UnblockOne(old(k.abs), Semaphore, obj, Code.Ok)
      ensures var woken := Chosen(old(k.abs), Semaphore, obj).Some?;
              && code == (if !woken && maxCount > 0 && old(count) >= maxCount then ErrOverflow else Code.Ok)
              && count == if !woken && code == Code.Ok then old(count) + 1 else old(count)
    {
      code := Code.Ok;
      var woken := k.UnblockOne(Semaphore, obj, Code.Ok);
      if !woken {
        code := AddToken();
      }
    }

    /** sem_give_isr with nothing between its critical section, which wakes a waiter, and the rest. */
    method GiveIsr(k: K.Sched) returns (code: Code)
      requires Valid() && k.Valid()
      requires Chosen(k.abs, Semaphore, obj).Some? || (maxCount > 0 && count >= maxCount) || count < SR.INT32_MAX
      modifies this`count, k, k.readyList, k.pool
      ensures Valid() && k.Valid() && k.abs == UnblockOne(old(k.abs), Semaphore, obj, Code.Ok)
      ensures var woken := Chosen(old(k.abs), Semaphore, obj).Some?;
              && code == (if !woken && maxCount > 0 && old(count) >= maxCount then ErrOverflow else Code.Ok)
              && count == if !woken && code == Code.Ok then old(count) + 1 else old(count)
    {
      var woken := k.UnblockOne(Semaphore, obj, Code.Ok);
      if woken {
        return Code.Ok;
      }
      code := AddToken();
    }

    /** sem_reset: a new count, and an error for every waiter. */
    method Reset(k: K.Sched, newCount: int) returns (code: Code)
      requires Valid() && k.Valid() && newCount <= SR.INT32_MAX
      modifies this`count, k, k.readyList, k.pool
      ensures Valid() && k.Valid()
      ensures code == if newCount < 0 || (maxCount > 0 && newCount > maxCount) then ErrParam else Code.Ok
      ensures count == if code == Code.Ok then newCount else old(count)
      ensures k.abs == if code == Code.Ok then UnblockAll(old(k.abs), Semaphore, obj, ErrState) else old(k.abs)
    {
      if newCount < 0 || (maxCount > 0 && newCount > maxCount) {
        return ErrParam;
      }
      count := newCount;
      var _ := k.UnblockAll(Semaphore, obj, ErrState);
      code := Code.Ok;
    }
  }

  /** sem_init: a count between 0 and the limit, or an error. */
  method Init(obj: nat, initial: int, maxCount: int) returns (code: Code, sem: Sem?)
    requires initial <= SR.INT32_MAX
    ensures code == if initial < 0 || (maxCount > 0 && initial > maxCount) then ErrParam else Code.Ok
    ensures if code == Code.Ok then
              && sem != null && fresh(sem) && sem.Valid()
              && sem.obj == obj && sem.count == initial && sem.maxCount == maxCount
            else sem == null
  {
    if initial < 0 || (maxCount > 0 && initial > maxCount) {
      return ErrParam, null;
    }
    sem := new Sem(obj, initial, maxCount);
    code := Code.Ok;
  }
}
