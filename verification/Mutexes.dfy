/** kernel/sync/mutex.c, joined to the scheduler. */
module Mutexes {
  import opened Types
  import opened Blocking
  import opened SchedSpec
  import M = MutexSpec
  import K = Scheduler

  class Mtx {
    const obj: nat
    const recursive: bool
    var locked: bool
    var owner: K.Tcb?
    var recursiveCount: nat

    ghost function View(): M.Lock
      reads this
    {
      M.Lock(locked, K.Ptr(owner), recursiveCount, recursive)
    }

    /** The fields agree, and the owner is a task of the kernel. */
    ghost predicate Valid(k: K.Sched)
      reads this, k
    {
      M.Agrees(View()) && (owner != null ==> k.Has(owner))
    }

    /** mutex_init */
    constructor (obj: nat, recursive: bool)
      ensures this.obj == obj && View() == M.Free(recursive)
      ensures owner == null
    {
      this.obj, this.recursive := obj, recursive;
      locked, owner, recursiveCount := false, null, 0;
    }

    /** The current task owns the mutex iff it carries the owner's identity. */
    lemma OwnerIs(k: K.Sched)
      requires k.Valid() && Valid(k) && k.current != null
      ensures owner == k.current <==> K.Ptr(owner) == Some(k.current.id)
    {
      k.SameNode(k.net.links, owner, k.current);
    }

    /** mutex_trylock */
    method TryLock(k: K.Sched, isr: bool) returns (code: Code)
      requires k.Valid() && Valid(k)
      modifies this`locked, this`owner, this`recursiveCount
      ensures Valid(k)
      ensures isr ==> code == ErrIsr
      ensures !isr && k.current == null ==> code == ErrState
      ensures isr || k.current == null ==> View() == old(View())
      ensures !isr && k.current != null ==>
                var self := Some(k.current.id);
                && code == (if !old(locked) || (old(View()).owner == self && recursive) then Code.Ok else ErrTimeout)
                && View() == (if !old(locked) then M.Lock(true, self, 1, recursive)
                              else if code == Code.Ok && old(recursiveCount) < 255 then
                                M.Lock(true, self, old(recursiveCount) + 1, recursive)
                              else old(View()))
                && View() == M.TryLock(old(View()), k.current.id)
    {
      if isr {
        return ErrIsr;
      }
      var self := k.current;
      if self == null {
        return ErrState;
      }
      OwnerIs(k);
      if !locked {
        locked, owner, recursiveCount := true, self, 1;
        return Code.Ok;
      }
      if owner == self && recursive {
        if recursiveCount < 0xFF {
          recursiveCount := recursiveCount + 1;
        }
        return Code.Ok;
      }
      code := ErrTimeout;
    }

    /** The inheritance step of mutex_lock. */
    method Inherit(k: K.Sched)
      requires k.Valid() && Valid(k) && k.current != null
      modifies k`bitmap, k`net, k`abs, k`switchPending, k.readyList, k.pool
      ensures k.Valid() && Valid(k) && k.abs == M.Raise(old(k.abs), K.Ptr(owner))
    {
      assert k.RecordOk(k.current);
      assert owner != null ==> k.RecordOk(owner);
      if owner != null && owner.priority > k.current.priority {
        ghost var s := k.abs;
        k.SetPriority(owner, k.current.priority);
        KeysKept(s, owner.id, k.current.priority);
      }
    }

    /** Re-ranking a task forgets nobody. */
    lemma KeysKept(s: State, t: Id, p: Prio)
      requires Sane(s) && t in s.info
      ensures SetPriority(s, t, p).info.Keys == s.info.Keys
    {
    }

    /** Re-ranking another task leaves the current one unblocked. */
    lemma StillRuns(s: State, owner: Option<Id>)
      requires Sane(s) && s.current.Some? && (owner.Some? ==> owner.value in s.info)
      requires s.info[s.current.value].state != Blocked
      ensures var r := M.Raise(s, owner); r.current == s.current && r.info[s.current.value].state != Blocked
    {
    }

    /** One pass of mutex_lock; the caller of Sleeps passes again when woken with OK. */
    method LockPass(k: K.Sched, timeout: U32, isr: bool) returns (pass: Pass)
      requires k.Valid() && Valid(k) && (k.current != null ==> k.current.state != Blocked)
      modifies this`locked, this`owner, this`recursiveCount, k, k.readyList, k.pool
      ensures k.Valid() && Valid(k)
      ensures old(k.current) == null || isr ==>
                pass == Done(if isr then ErrIsr else ErrState) && View() == old(View()) && k.abs == old(k.abs)
      ensures old(k.current) != null && !isr ==>
                var self := old(k.current.id);
                && pass == (if !old(locked) || (old(View()).owner == Some(self) && recursive) then Done(Code.Ok)
                            else if timeout == TIMEOUT_NONE then Done(ErrTimeout) else Sleeps)
                && View() == M.TryLock(old(View()), self)
                && (pass != Sleeps ==> k.abs == old(k.abs))
                && (pass == Sleeps ==>
                      && Sane(old(k.abs)) && old(k.abs).current.Some?
                      && (old(View()).owner.Some? ==> old(View()).owner.value in old(k.abs).info)
                      && k.abs == Block(M.Raise(old(k.abs), old(View()).owner), Mutex, obj, timeout))
    {
      hide M.Raise, M.Agrees;
      var code := TryLock(k, isr);
      if k.current == null || isr || code == Code.Ok {
        return Done(code);
      }
      if timeout == TIMEOUT_NONE {
        return Done(ErrTimeout);
      }
      assert k.RecordOk(k.current);
      StillRuns(k.abs, K.Ptr(owner));
      Inherit(k);
      assert k.RecordOk(k.current);
      ghost var s := k.abs;
      BlockKeys(s, obj, timeout);
      var _ := k.Block(Mutex, obj, timeout);
      pass := Sleeps;
    }

    lemma BlockKeys(s: State, obj: nat, timeout: U32)
      requires Sane(s)
      ensures Block(s, Mutex, obj, timeout).info.Keys == s.info.Keys
    {
    }

    /** The restoration step of mutex_unlock. */
    method RestorePriority(k: K.Sched)
      requires k.Valid() && k.current != null
      modifies k`bitmap, k`net, k`abs, k`switchPending, k.readyList, k.pool
      ensures k.Valid() && Sane(old(k.abs)) && old(k.abs).current.Some? && k.abs == M.Restore(old(k.abs))
    {
      assert k.RecordOk(k.current);
      if k.current.priority != k.current.basePriority {
        k.SetPriority(k.current, k.current.basePriority);
      }
    }

    /** The end of the unlock that gives the mutex up: priority, fields and wake-up. */
    method GiveUp(k: K.Sched)
      requires k.Valid() && Valid(k) && k.current != null
      modifies this`locked, this`owner, this`recursiveCount, k, k.readyList, k.pool
      ensures k.Valid() && Valid(k) && !locked && owner == null && recursiveCount == 0
      ensures Sane(old(k.abs)) && old(k.abs).current.Some?
      ensures k.abs == UnblockOne(M.Restore(old(k.abs)), Mutex, obj, Code.Ok)
    {
      hide M.Restore, UnblockOne;
      RestorePriority(k);
      locked, owner, recursiveCount := false, null, 0;
      var _ := k.UnblockOne(Mutex, obj, Code.Ok);
    }

    /** mutex_unlock */
    method Unlock(k: K.Sched, isr: bool) returns (code: Code)
      requires k.Valid() && Valid(k)
      modifies this`locked, this`owner, this`recursiveCount, k, k.readyList, k.pool
      ensures k.Valid() && Valid(k)
      ensures var mine := old(k.current) != null && old(View()).owner == Some(old(k.current.id));
              && code == (if isr then ErrIsr else if !mine then ErrState else Code.Ok)
              && View() == (if code != Code.Ok then old(View())
                            else if old(recursiveCount) > 1 then
                              M.Lock(true, old(View()).owner, old(recursiveCount) - 1, recursive)
                            else M.Lock(false, None, 0, recursive))
              && (code == Code.Ok ==> View() == M.Unlock(old(View())))
              && (code == Code.Ok ==> Sane(old(k.abs)) && old(k.abs).current.Some?)
              && k.abs == if code == Code.Ok && old(recursiveCount) <= 1
                          then UnblockOne(M.Restore(old(k.abs)), Mutex, obj, Code.Ok) else old(k.abs)
    {
      hide M.Restore, UnblockOne;
      if isr {
        return ErrIsr;
      }
      if k.current != null {
        OwnerIs(k);
      }
      if k.current == null || owner != k.current {
        return ErrState;
      }
      if recursiveCount > 1 {
        recursiveCount := recursiveCount - 1;
        return Code.Ok;
      }
      GiveUp(k);
      code := Code.Ok;
    }
  }
}
