/** The static pools of control blocks and stacks behind task_create. */
module Pools {
  import opened Types

  const MAX_TASKS: nat := 16
  const MIN_STACK: nat := 256
  const DEFAULT_STACK: nat := 1024

  /** The lowest unused slot from i on, or the length when there is none. */
  function FirstFree(used: seq<bool>, i: nat): (k: nat)
    requires i <= |used|
    ensures i <= k <= |used|
    ensures k < |used| ==> !used[k]
    ensures forall j :: i <= j < k ==> used[j]
    decreases |used| - i
  {
    if i == |used| || !used[i] then i else FirstFree(used, i + 1)
  }

  /** A request: which of the control block and the stack the caller brings, and what else task_create checks. */
  datatype Request = Request(entry: bool, priority: nat, ownBlock: bool, ownStack: bool, stackSize: U32)

  datatype Slots = Slots(blocks: seq<bool>, stacks: seq<bool>)

  /** The slots taken, where a slot was asked for. */
  datatype Grant = Refused(code: Code) | Granted(block: Option<nat>, stack: Option<nat>)

  predicate BadRequest(r: Request) {
    !r.entry || r.priority >= MAX_PRIORITY || r.stackSize < MIN_STACK || r.stackSize % 8 != 0
  }

  function Marked(used: seq<bool>, slot: Option<nat>): (r: seq<bool>)
    ensures |r| == |used|
  {
    if slot.Some? && slot.value < |used| then used[slot.value := true] else used
  }

  /** What task_create answers, as far as the pools go. */
  function Answer(s: Slots, r: Request): Grant {
    var b, t := FirstFree(s.blocks, 0), FirstFree(s.stacks, 0);
    if BadRequest(r) then Refused(ErrParam)
    else if !r.ownBlock && b == |s.blocks| then Refused(ErrNoMem)
    else if !r.ownStack && (r.stackSize > DEFAULT_STACK || t == |s.stacks|) then Refused(ErrNoMem)
    else Granted(if r.ownBlock then None else Some(b), if r.ownStack then None else Some(t))
  }

  /** A refusal takes nothing; a grant takes exactly the granted slots. */
  function After(s: Slots, r: Request): Slots {
    match Answer(s, r)
    case Refused(_) => s
    case Granted(b, t) => Slots(Marked(s.blocks, b), Marked(s.stacks, t))
  }

  /** The slot was free, all slots before it are used, and it is used now. */
  predicate Takes(was: seq<bool>, now: seq<bool>, slot: Option<nat>) {
    && slot.Some? && slot.value < |was| && !was[slot.value] && now == was[slot.value := true]
    && forall j :: 0 <= j < slot.value ==> was[j]
  }

  class TaskPools {
    const blocks: array<bool>
    const stacks: array<bool>

    ghost predicate Valid()
      reads this
    {
      blocks != stacks && blocks.Length == MAX_TASKS && stacks.Length == MAX_TASKS
    }

    ghost function View(): Slots
      reads this, blocks, stacks
    {
      Slots(blocks[..], stacks[..])
    }

    constructor ()
      ensures Valid() && View() == Fresh()
      ensures fresh(blocks) && fresh(stacks)
    {
      blocks := new bool[MAX_TASKS](_ => false);
      stacks := new bool[MAX_TASKS](_ => false);
      new;
      assert blocks[..] == Fresh().blocks && stacks[..] == Fresh().stacks;
    }

    /** alloc_slot: mark and return the lowest unused slot. */
    method AllocSlot(bitmap: array<bool>) returns (slot: Option<nat>)
      modifies bitmap
      ensures var k := FirstFree(old(bitmap[..]), 0);
              && slot == (if k == bitmap.Length then None else Some(k))
              && bitmap[..] == Marked(old(bitmap[..]), slot)
    {
      var i := 0;
      while i < bitmap.Length
        invariant i <= bitmap.Length && bitmap[..] == old(bitmap[..])
        invariant FirstFree(bitmap[..], 0) == FirstFree(bitmap[..], i)
      {
        if !bitmap[i] {
          bitmap[i] := true;
          return Some(i);
        }
        i := i + 1;
      }
      slot := None;
    }

    /** free_slot undoes the allocation of that slot. */
    method FreeSlot(bitmap: array<bool>, slot: Option<nat>)
      requires slot.Some? ==> slot.value < bitmap.Length
      modifies bitmap
      ensures bitmap[..] == if slot.Some? then old(bitmap[..])[slot.value := false] else old(bitmap[..])
    {
      if slot.Some? {
        bitmap[slot.value] := false;
      }
    }

    /** The part of task_create that reserves a control block and a stack. */
    method Reserve(r: Request) returns (grant: Grant)
      requires Valid()
      modifies blocks, stacks
      ensures grant == Answer(old(View()), r) && View() == After(old(View()), r)
      ensures grant == Refused(ErrParam) <==>
                !r.entry || r.priority >= 32 || r.stackSize < 256 || r.stackSize % 8 != 0
      ensures grant == Refused(ErrNoMem) ==>
                || (!r.ownBlock && forall i :: 0 <= i < MAX_TASKS ==> old(blocks[i]))
                || (!r.ownStack && (r.stackSize > 1024 || forall i :: 0 <= i < MAX_TASKS ==> old(stacks[i])))
      ensures grant.Refused? ==> blocks[..] == old(blocks[..]) && stacks[..] == old(stacks[..])
      ensures grant.Granted? ==>
                && (if r.ownBlock then grant.block.None? && blocks[..] == old(blocks[..])
                    else Takes(old(blocks[..]), blocks[..], grant.block))
                && (if r.ownStack then grant.stack.None? && stacks[..] == old(stacks[..])
                    else r.stackSize <= 1024 && Takes(old(stacks[..]), stacks[..], grant.stack))
    {
      if !r.entry || r.priority >= MAX_PRIORITY {
        return Refused(ErrParam);
      }
      if r.stackSize < MIN_STACK || r.stackSize % 8 != 0 {
        return Refused(ErrParam);
      }
      var block := None;
      if !r.ownBlock {
        block := AllocSlot(blocks);
        if block.None? {
          return Refused(ErrNoMem);
        }
      }
      if r.ownStack {
        return Granted(block, None);
      }
      if r.stackSize > DEFAULT_STACK {
        FreeSlot(blocks, block);
        assert blocks[..] == old(blocks[..]);
        return Refused(ErrNoMem);
      }
      var stack := AllocSlot(stacks);
      if stack.None? {
        FreeSlot(blocks, block);
        assert blocks[..] == old(blocks[..]);
        return Refused(ErrNoMem);
      }
      grant := Granted(block, stack);
    }
  }

  /**
   * The scans and marks of alloc_slot are in no critical section. A request answered before
   * an earlier one has marked its slot is granted the same control block; afterwards, never.
   */
  lemma OverlapShares(s: Slots, r1: Request, r2: Request)
    requires Answer(s, r1).Granted? && Answer(s, r2).Granted? && !r1.ownBlock && !r2.ownBlock
    ensures Answer(s, r1).block == Answer(s, r2).block
    ensures Answer(After(s, r1), r2).Granted? ==> Answer(After(s, r1), r2).block != Answer(s, r1).block
  {
    var k := FirstFree(s.blocks, 0);
    assert After(s, r1).blocks == s.blocks[k := true];
  }

  // ---- Whole runs: task_delete gives no slot back ----

  function Fresh(): Slots {
    Slots(Filled(0), Filled(0))
  }

  /** The first n slots used. */
  function Filled(n: nat): (r: seq<bool>)
    ensures |r| == MAX_TASKS
  {
    seq(MAX_TASKS, i => i < n)
  }

  lemma {:induction false} FirstOfFilled(n: nat, i: nat)
    requires i <= n <= MAX_TASKS
    ensures FirstFree(Filled(n), i) == n
    decreases n - i
  {
    if i < n {
      FirstOfFilled(n, i + 1);
    }
  }

  /** The slots after the requests rs, and the control-block slots they were granted. */
  function Serve(s: Slots, rs: seq<Request>): Slots
    decreases |rs|
  {
    if rs == [] then s else Serve(After(s, rs[0]), rs[1..])
  }

  function GrantedBlocks(s: Slots, rs: seq<Request>): seq<nat>
    decreases |rs|
  {
    if rs == [] then []
    else
      (match Answer(s, rs[0])
       case Granted(Some(b), _) => [b]
       case _ => []) + GrantedBlocks(After(s, rs[0]), rs[1..])
  }

  predicate Used(s: Slots, b: nat, t: nat) {
    b <= MAX_TASKS && t <= MAX_TASKS && s == Slots(Filled(b), Filled(t))
  }

  lemma OneRequest(s: Slots, r: Request, b: nat, t: nat) returns (b': nat, t': nat)
    requires Used(s, b, t)
    ensures Used(After(s, r), b', t')
    ensures match Answer(s, r)
            case Granted(Some(k), _) => k == b && b < MAX_TASKS && b' == b + 1
            case _ => b' == b
  {
    FirstOfFilled(b, 0);
    FirstOfFilled(t, 0);
    b', t' := b, t;
    match Answer(s, r)
    case Refused(_) =>
    case Granted(x, y) =>
      if x.Some? {
        assert Filled(b)[b := true] == Filled(b + 1);
        b' := b + 1;
      }
      if y.Some? {
        assert Filled(t)[t := true] == Filled(t + 1);
        t' := t + 1;
      }
  }

  /**
   * However many tasks are deleted in between, the n-th control block taken from the pool
   * is slot n: no slot is handed out twice, none is skipped, and after CONFIG_MAX_TASKS of
   * them every further request for one is refused.
   */
  lemma {:induction false} SlotsInOrder(s: Slots, rs: seq<Request>, b: nat, t: nat)
    requires Used(s, b, t)
    ensures var g := GrantedBlocks(s, rs);
            && b + |g| <= MAX_TASKS
            && (forall i :: 0 <= i < |g| ==> g[i] == b + i)
            && (forall r: Request :: b + |g| == MAX_TASKS && !r.ownBlock ==> Answer(Serve(s, rs), r).Refused?)
    decreases |rs|
  {
    if rs == [] {
      FirstOfFilled(b, 0);
    } else {
      var b', t' := OneRequest(s, rs[0], b, t);
      SlotsInOrder(After(s, rs[0]), rs[1..], b', t');
    }
  }
}
