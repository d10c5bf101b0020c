/** kernel/sync/queue.c over a byte array: the ring refines a sequence of messages. */
module Queue {
  import opened Types
  import opened SchedSpec
  import opened Blocking
  import opened Ring
  import K = Scheduler

  /** mem_copy between two different buffers. */
  method MemCopy(dst: array<Byte>, to: nat, src: array<Byte>, from: nat, len: nat)
    requires dst != src && to + len <= dst.Length && from + len <= src.Length
    modifies dst
    ensures dst[..] == old(dst[..to]) + src[from..from + len] + old(dst[to + len..])
  {
    var k := 0;
    while k < len
      invariant k <= len
      invariant forall i :: 0 <= i < dst.Length ==>
                  dst[i] == if to <= i < to + k then src[from + i - to] else old(dst[i])
    {
      dst[to + k] := src[from + k];
      k := k + 1;
    }
  }

  class MsgQueue {
    const obj: nat
    const buffer: array<Byte>
    const msgSize: nat
    const capacity: nat
    var head: nat
    var tail: nat
    var count: nat

    ghost predicate Valid()
      reads this, buffer
    {
      && msgSize > 0 && capacity > 0 && capacity * msgSize <= buffer.Length < TWO32
      && tail < capacity && count <= capacity && head == (tail + count) % capacity
    }

    /** The stored messages, oldest first. */
    ghost function Contents(): (q: seq<Msg>)
      requires Valid()
      reads this, buffer
      ensures |q| == count
    {
      Messages(buffer[..], msgSize, capacity, tail, count)
    }

    /** queue_init, for arguments it accepts: the queue is fit for use iff the buffer holds its slots. */
    constructor (obj: nat, buffer: array<Byte>, msgSize: nat, capacity: nat)
      requires msgSize > 0 && capacity > 0
      ensures Valid() <==> capacity * msgSize <= buffer.Length < TWO32
      ensures Valid() ==> Contents() == []
      ensures this.obj == obj && this.buffer == buffer && this.msgSize == msgSize && this.capacity == capacity
      ensures head == tail == count == 0
    {
      this.obj, this.buffer, this.msgSize, this.capacity := obj, buffer, msgSize, capacity;
      head, tail, count := 0, 0, 0;
    }

    /** A caller's message buffer: one message long, and not part of the queue. */
    ghost predicate Outside(msg: array<Byte>) {
      msg != buffer && msg.Length == msgSize
    }

    /** queue_push_back */
    method PushBack(msg: array<Byte>)
      requires Valid() && Outside(msg) && count < capacity
      modifies this`head, this`count, buffer
      ensures Valid() && Contents() == old(Contents()) + [msg[..]]
    {
      AtIsMod(tail, count, capacity);
      SlotBounds(head, capacity, msgSize);
      Ring.PushBack(buffer[..], msgSize, capacity, tail, count, msg[..]);
      MemCopy(buffer, head * msgSize, msg, 0, msgSize);
      assert msg[0..msgSize] == msg[..];
      assert buffer[..] == WriteSlot(old(buffer[..]), msgSize, capacity, head, msg[..]);
      AtIsMod(head, 1, capacity);
      AtIsMod(tail, count + 1, capacity);
      head := (head + 1) % capacity;
      count := count + 1;
    }

    /** queue_push_front */
    method PushFront(msg: array<Byte>)
      requires Valid() && Outside(msg) && count < capacity
      modifies this`tail, this`count, buffer
      ensures Valid() && Contents() == [msg[..]] + old(Contents())
    {
      AtIsMod(tail, count, capacity);
      Ring.PushFront(buffer[..], msgSize, capacity, tail, count, msg[..]);
      if tail == 0 {
        tail := capacity - 1;
      } else {
        tail := tail - 1;
      }
      SlotBounds(tail, capacity, msgSize);
      MemCopy(buffer, tail * msgSize, msg, 0, msgSize);
      assert msg[0..msgSize] == msg[..];
      assert buffer[..] == WriteSlot(old(buffer[..]), msgSize, capacity, tail, msg[..]);
      AtIsMod(tail, count + 1, capacity);
      count := count + 1;
    }

    /** The read of the first message that queue_pop and queue_peek share. */
    method ReadFirst(msg: array<Byte>)
      requires Valid() && Outside(msg) && count > 0
      modifies msg
      ensures Valid() && Contents() == old(Contents()) && msg[..] == Contents()[0]
    {
      Ring.Pop(buffer[..], msgSize, capacity, tail, count);
      SlotBounds(tail, capacity, msgSize);
      MemCopy(msg, 0, buffer, tail * msgSize, msgSize);
      assert msg[..] == buffer[tail * msgSize..tail * msgSize + msgSize];
      assert buffer[..] == old(buffer[..]);
      assert msg[..] == Slot(buffer[..], msgSize, capacity, tail);
    }

    /** queue_pop */
    method PopFirst(msg: array<Byte>)
      requires Valid() && Outside(msg) && count > 0
      modifies this`tail, this`count, msg
      ensures Valid() && msg[..] == old(Contents())[0] && Contents() == old(Contents())[1..]
    {
      Ring.Pop(buffer[..], msgSize, capacity, tail, count);
      ReadFirst(msg);
      AtIsMod(tail, 1, capacity);
      AtIsMod(tail, count, capacity);
      AtIsMod(At(tail, 1, capacity), count - 1, capacity);
      tail := (tail + 1) % capacity;
      count := count - 1;
    }

    // ---- The calls, joined to the scheduler ----

    /** The test-and-copy critical section of the sends. */
    method TryPut(k: K.Sched, msg: array<Byte>, front: bool) returns (ok: bool)
      requires Valid() && k.Valid() && Outside(msg)
      modifies this`head, this`tail, this`count, buffer, k, k.readyList, k.pool
      ensures Valid() && k.Valid() && ok == (|old(Contents())| < capacity)
      ensures ok ==> Contents() == if front then [msg[..]] + old(Contents()) else old(Contents()) + [msg[..]]
      ensures !ok ==> Contents() == old(Contents())
      ensures k.abs == if ok then UnblockOne(old(k.abs), QueueRecv, obj, Code.Ok) else old(k.abs)
      ensures k.current == old(k.current)
    {
      ok := count < capacity;
      if ok {
        if front {
          PushFront(msg);
        } else {
          PushBack(msg);
        }
        var _ := k.UnblockOne(QueueRecv, obj, Code.Ok);
      }
    }

    /** The test-and-copy critical section of queue_receive. */
    method TryTake(k: K.Sched, msg: array<Byte>) returns (ok: bool)
      requires Valid() && k.Valid() && Outside(msg)
      modifies this`tail, this`count, msg, k, k.readyList, k.pool
      ensures Valid() && k.Valid() && ok == (|old(Contents())| > 0)
      ensures ok ==> msg[..] == old(Contents())[0] && Contents() == old(Contents())[1..]
      ensures !ok ==> Contents() == old(Contents())
      ensures k.abs == if ok then UnblockOne(old(k.abs), QueueSend, obj, Code.Ok) else old(k.abs)
      ensures k.current == old(k.current)
    {
      ok := count > 0;
      if ok {
        PopFirst(msg);
        var _ := k.UnblockOne(QueueSend, obj, Code.Ok);
      }
    }

    /** One pass of queue_send and queue_send_front; the caller of Sleeps passes again when woken with OK. */
    method SendPass(k: K.Sched, msg: array?<Byte>, front: bool, timeout: U32, isr: bool) returns (pass: Pass)
      requires Valid() && k.Valid() && (msg != null ==> Outside(msg))
      requires k.current != null ==> k.current.state != Blocked
      modifies this`head, this`tail, this`count, buffer, k, k.readyList, k.pool
      ensures Valid() && k.Valid()
      ensures pass == if msg == null then Done(ErrParam)
                      else if |old(Contents())| < capacity then Done(Code.Ok)
                      else if timeout == TIMEOUT_NONE then Done(ErrTimeout)
                      else if isr then Done(ErrIsr)
                      else if old(k.current) == null then Done(ErrState)
                      else Sleeps
      ensures pass == Done(Code.Ok) ==>
                Contents() == if front then [msg[..]] + old(Contents()) else old(Contents()) + [msg[..]]
      ensures pass != Done(Code.Ok) ==> Contents() == old(Contents())
      ensures k.abs == if pass == Done(Code.Ok) then UnblockOne(old(k.abs), QueueRecv, obj, Code.Ok)
                       else if pass == Sleeps then Block(old(k.abs), QueueSend, obj, timeout)
                       else old(k.abs)
    {
      if msg == null {
        return Done(ErrParam);
      }
      if count < capacity {
        var _ := TryPut(k, msg, front);
        pass := Done(Code.Ok);
      } else {
        pass := GiveUpOrSleep(k, QueueSend, obj, timeout, isr);
      }
    }

    /** queue_send_isr */
    method SendIsr(k: K.Sched, msg: array?<Byte>) returns (code: Code)
      requires Valid() && k.Valid() && (msg != null ==> Outside(msg))
      modifies this`head, this`tail, this`count, buffer, k, k.readyList, k.pool
      ensures Valid() && k.Valid()
      ensures code == if msg == null then ErrParam else if |old(Contents())| < capacity then Code.Ok else ErrOverflow
      ensures Contents() == if code == Code.Ok then old(Contents()) + [msg[..]] else old(Contents())
      ensures k.abs == if code == Code.Ok then UnblockOne(old(k.abs), QueueRecv, obj, Code.Ok) else old(k.abs)
    {
      if msg == null {
        return ErrParam;
      }
      var ok := TryPut(k, msg, false);
      code := if ok then Code.Ok else ErrOverflow;
    }

    /** One pass of queue_receive. */
    method ReceivePass(k: K.Sched, msg: array?<Byte>, timeout: U32, isr: bool) returns (pass: Pass)
      requires Valid() && k.Valid() && (msg != null ==> Outside(msg))
      requires k.current != null ==> k.current.state != Blocked
      modifies this`tail, this`count, k, k.readyList, k.pool, msg
      ensures Valid() && k.Valid()
      ensures pass == if msg == null then Done(ErrParam)
                      else if |old(Contents())| > 0 then Done(Code.Ok)
                      else if timeout == TIMEOUT_NONE then Done(ErrTimeout)
                      else if isr then Done(ErrIsr)
                      else if old(k.current) == null then Done(ErrState)
                      else Sleeps
      ensures pass == Done(Code.Ok) ==> msg[..] == old(Contents())[0] && Contents() == old(Contents())[1..]
      ensures pass != Done(Code.Ok) ==> Contents() == old(Contents())
      ensures k.abs == if pass == Done(Code.Ok) then UnblockOne(old(k.abs), QueueSend, obj, Code.Ok)
                       else if pass == Sleeps then Block(old(k.abs), QueueRecv, obj, timeout)
                       else old(k.abs)
    {
      if msg == null {
        return Done(ErrParam);
      }
      if count > 0 {
        var _ := TryTake(k, msg);
        pass := Done(Code.Ok);
      } else {
        pass := GiveUpOrSleep(k, QueueRecv, obj, timeout, isr);
      }
    }

    /** One pass of queue_peek: it reads, wakes nobody, and sleeps as a receiver. */
    method PeekPass(k: K.Sched, msg: array?<Byte>, timeout: U32, isr: bool) returns (pass: Pass)
      requires Valid() && k.Valid() && (msg != null ==> Outside(msg))
      requires k.current != null ==> k.current.state != Blocked
      modifies k, k.readyList, k.pool, msg
      ensures Valid() && k.Valid() && Contents() == old(Contents())
      ensures pass == if msg == null then Done(ErrParam)
                      else if |Contents()| > 0 then Done(Code.Ok)
                      else if timeout == TIMEOUT_NONE then Done(ErrTimeout)
                      else if isr then Done(ErrIsr)
                      else if old(k.current) == null then Done(ErrState)
                      else Sleeps
      ensures pass == Done(Code.Ok) ==> msg[..] == Contents()[0]
      ensures k.abs == if pass == Sleeps then Block(old(k.abs), QueueRecv, obj, timeout) else old(k.abs)
    {
      if msg == null {
        return Done(ErrParam);
      }
      if count > 0 {
        ReadFirst(msg);
        pass := Done(Code.Ok);
      } else {
        pass := GiveUpOrSleep(k, QueueRecv, obj, timeout, isr);
      }
    }

    /** The part of queue_reset that drops everything. */
    method Clear()
      requires Valid()
      modifies this`head, this`tail, this`count
      ensures Valid() && Contents() == []
    {
      head, tail, count := 0, 0, 0;
    }

    /** queue_reset with nothing in between: besides, every waiter is sent away with an error. */
    method Reset(k: K.Sched)
      requires Valid() && k.Valid()
      modifies this`head, this`tail, this`count, k, k.readyList, k.pool
      ensures Valid() && k.Valid() && Contents() == []
      ensures k.abs == UnblockAll(UnblockAll(old(k.abs), QueueSend, obj, ErrState), QueueRecv, obj, ErrState)
    {
      Clear();
      var _ := k.UnblockAll(QueueSend, obj, ErrState);
      var _ := k.UnblockAll(QueueRecv, obj, ErrState);
    }
  }

  /** queue_init: a buffer and two non-zero sizes, or an error. */
  method Init(obj: nat, buffer: array?<Byte>, msgSize: nat, capacity: nat) returns (code: Code, queue: MsgQueue?)
    ensures code == if buffer == null || msgSize == 0 || capacity == 0 then ErrParam else Code.Ok
    ensures if code == Code.Ok then
              && queue != null && fresh(queue) && queue.obj == obj && queue.buffer == buffer
              && queue.msgSize == msgSize && queue.capacity == capacity
              && queue.head == queue.tail == queue.count == 0
              && (queue.Valid() <==> capacity * msgSize <= buffer.Length < TWO32)
              && (queue.Valid() ==> queue.Contents() == [])
            else queue == null
  {
    if buffer == null || msgSize == 0 || capacity == 0 {
      return ErrParam, null;
    }
    queue := new MsgQueue(obj, buffer, msgSize, capacity);
    code := Code.Ok;
  }
}
