/** One pass through the loop of a blocking call, after its test has failed. */
module Blocking {
  import opened Types
  import opened SchedSpec
  import K = Scheduler

  /** The call returns, or its task sleeps and passes again when woken with OK. */
  datatype Pass = Done(code: Code) | Sleeps

  /** No time to wait, an interrupt handler and a missing current task end the call; else the task blocks. */
  method GiveUpOrSleep(k: K.Sched, reason: Reason, obj: nat, timeout: U32, isr: bool) returns (pass: Pass)
    requires k.Valid() && (k.current != null ==> k.current.state != Blocked)
    modifies k, k.readyList, k.pool
    ensures k.Valid()
    ensures pass == if timeout == TIMEOUT_NONE then Done(ErrTimeout)
                    else if isr then Done(ErrIsr)
                    else if old(k.current) == null then Done(ErrState)
                    else Sleeps
    ensures k.abs == if pass == Sleeps then Block(old(k.abs), reason, obj, timeout) else old(k.abs)
  {
    if timeout == TIMEOUT_NONE {
      return Done(ErrTimeout);
    }
    if isr {
      return Done(ErrIsr);
    }
    var code := k.Block(reason, obj, timeout);
    pass := if code.Some? then Done(code.value) else Sleeps;
  }
}
