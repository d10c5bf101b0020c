/** A byte buffer cut into slots of equal size, used as a ring. */
module Ring {
  import opened Arith

  type Byte = n: nat | n < 256
  type Msg = seq<Byte>

  /** The i-th position after tail, in a ring of cap slots. */
  function At(tail: nat, i: nat, cap: nat): (p: nat)
    requires tail < cap && i <= cap
    ensures p < cap
  {
    if tail + i < cap then tail + i else tail + i - cap
  }

  /** The source computes positions with the remainder operator. */
  lemma AtIsMod(tail: nat, i: nat, cap: nat)
    requires tail < cap && i <= cap
    ensures (tail + i) % cap == At(tail, i, cap)
  {
    if tail + i < cap {
      DivUnique(tail + i, cap, 0, tail + i);
    } else {
      DivUnique(tail + i, cap, 1, tail + i - cap);
    }
  }

  /** n slots of m bytes fit the buffer. */
  predicate Fits(b: seq<Byte>, m: nat, cap: nat) {
    cap * m <= |b|
  }

  lemma {:induction false} SlotBounds(i: nat, j: nat, m: nat)
    requires i < j
    ensures i * m + m <= j * m
  {
    assert j * m == (j - 1) * m + m;
    if i < j - 1 {
      SlotBounds(i, j - 1, m);
    }
  }

  function Slot(b: seq<Byte>, m: nat, cap: nat, i: nat): (s: Msg)
    requires Fits(b, m, cap) && i < cap
    ensures |s| == m
  {
    SlotBounds(i, cap, m);
    b[i * m..i * m + m]
  }

  function WriteSlot(b: seq<Byte>, m: nat, cap: nat, j: nat, msg: Msg): (r: seq<Byte>)
    requires Fits(b, m, cap) && j < cap && |msg| == m
    ensures |r| == |b| && Fits(r, m, cap)
  {
    SlotBounds(j, cap, m);
    b[..j * m] + msg + b[j * m + m..]
  }

  /** Writing one slot changes that slot and no other. */
  lemma SlotWritten(b: seq<Byte>, m: nat, cap: nat, j: nat, msg: Msg, i: nat)
    requires Fits(b, m, cap) && j < cap && |msg| == m && i < cap
    ensures Slot(WriteSlot(b, m, cap, j, msg), m, cap, i) == if i == j then msg else Slot(b, m, cap, i)
  {
    SlotBounds(i, cap, m);
    SlotBounds(j, cap, m);
    if i < j {
      SlotBounds(i, j, m);
    } else if j < i {
      SlotBounds(j, i, m);
    }
  }

  /** The messages stored from position tail on. */
  function Messages(b: seq<Byte>, m: nat, cap: nat, tail: nat, count: nat): (q: seq<Msg>)
    requires Fits(b, m, cap) && tail < cap && count <= cap
    ensures |q| == count
    ensures forall i :: 0 <= i < count ==> q[i] == Slot(b, m, cap, At(tail, i, cap))
  {
    seq(count, i requires 0 <= i < count => Slot(b, m, cap, At(tail, i, cap)))
  }

  /** Writing the slot behind the last message appends a message. */
  lemma PushBack(b: seq<Byte>, m: nat, cap: nat, tail: nat, count: nat, msg: Msg)
    requires Fits(b, m, cap) && tail < cap && count < cap && |msg| == m
    ensures Messages(WriteSlot(b, m, cap, At(tail, count, cap), msg), m, cap, tail, count + 1) ==
            Messages(b, m, cap, tail, count) + [msg]
  {
    var h := At(tail, count, cap);
    forall i | 0 <= i <= count
      ensures Slot(WriteSlot(b, m, cap, h, msg), m, cap, At(tail, i, cap)) ==
              if i == count then msg else Slot(b, m, cap, At(tail, i, cap))
    {
      SlotWritten(b, m, cap, h, msg, At(tail, i, cap));
    }
    hide Slot, WriteSlot;
  }

  function Before(tail: nat, cap: nat): (t: nat)
    requires tail < cap
    ensures t < cap
  {
    if tail == 0 then cap - 1 else tail - 1
  }

  /** Writing the slot before the first message prepends a message. */
  lemma PushFront(b: seq<Byte>, m: nat, cap: nat, tail: nat, count: nat, msg: Msg)
    requires Fits(b, m, cap) && tail < cap && count < cap && |msg| == m
    ensures var t := Before(tail, cap);
            Messages(WriteSlot(b, m, cap, t, msg), m, cap, t, count + 1) == [msg] + Messages(b, m, cap, tail, count)
  {
    var t := Before(tail, cap);
    var b' := WriteSlot(b, m, cap, t, msg);
    forall i | 0 <= i <= count
      ensures Slot(b', m, cap, At(t, i, cap)) ==
              if i == 0 then msg else Slot(b, m, cap, At(tail, i - 1, cap))
    {
      SlotWritten(b, m, cap, t, msg, At(t, i, cap));
      assert i > 0 ==> At(t, i, cap) == At(tail, i - 1, cap);
    }
    hide Slot, WriteSlot;
  }

  /** Moving tail one on drops the first message. */
  lemma Pop(b: seq<Byte>, m: nat, cap: nat, tail: nat, count: nat)
    requires Fits(b, m, cap) && tail < cap && 0 < count <= cap
    ensures Messages(b, m, cap, tail, count)[0] == Slot(b, m, cap, tail)
    ensures Messages(b, m, cap, At(tail, 1, cap), count - 1) == Messages(b, m, cap, tail, count)[1..]
  {
    hide Slot;
    forall i | 0 <= i < count - 1
      ensures At(At(tail, 1, cap), i, cap) == At(tail, i + 1, cap)
    {
    }
  }
}
