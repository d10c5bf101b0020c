/**
 * The scheduler of kernel/scheduler.c over heap nodes: 32 doubly linked ready lists
 * indexed by a bitmap, and one doubly linked blocked list. Every method is proved to
 * compute the value-level function of the same name in SchedSpec.
 */
module Scheduler {
  import opened Types
  import opened Seqs
  import opened Words
  import C = Chains
  import S = SchedSpec
  import I = SchedInv
  import W = WakeLaws

  class Tcb {
    const id: Id
    var next: Tcb?
    var prev: Tcb?
    var priority: Prio
    var basePriority: Prio
    var state: TaskState
    var timeSlice: U32
    var wakeTick: U32
    var blockReason: Reason
    var blockObject: nat
    var blockTimeout: U32
    var blockResult: Code
    var eventWaitBits: U32
    var eventWaitAll: bool

    /** The fields task_create sets. */
    constructor (id: Id, priority: Prio)
      ensures this.id == id && next == null && prev == null
      ensures View() == NewTask(priority)
    {
      this.id := id;
      next, prev := null, null;
      this.priority, basePriority := priority, priority;
      state := Ready;
      timeSlice, wakeTick := TIME_SLICE, 0;
      blockReason, blockObject, blockTimeout, blockResult := NoReason, NO_OBJECT, 0, Ok;
      eventWaitBits, eventWaitAll := 0, false;
    }

    ghost function View(): Task
      reads this`priority, this`basePriority, this`state, this`timeSlice, this`wakeTick, this`blockReason,
            this`blockObject, this`blockTimeout, this`blockResult, this`eventWaitBits, this`eventWaitAll
    {
      Task(priority, basePriority, state, timeSlice, wakeTick, blockReason, blockObject, blockTimeout,
           blockResult, eventWaitBits, eventWaitAll)
    }
  }

  ghost function Ptr(o: Tcb?): Option<Id> {
    if o == null then None else Some(o.id)
  }

  class Sched {
    // The fields of g_sched and the file-level variables
    var bitmap: U32
    const readyList: array<Tcb?>
    var blockedHead: Tcb?
    var tickCount: U32
    var current: Tcb?
    var lockCount: U32
    var reschedulePending: bool
    var switchPending: bool

    // The pool of known nodes, the pointers as value maps, and the lists they stand for
    ghost var pool: set<Tcb>
    ghost var node: map<Id, Tcb>
    ghost var net: C.Net

    // The abstract state
    ghost var abs: S.State

    ghost predicate Known(o: Tcb?)
      reads this`pool
    {
      o != null ==> o in pool
    }

    /** A node of the pool is found under its identity, and k records its two pointers. */
    ghost predicate NodeOk(k: C.Links, o: Tcb)
      reads this`pool, this`node, o`next, o`prev
    {
      && o.id in node && node[o.id] == o
      && o.id in k.next && k.next[o.id] == Ptr(o.next) && Known(o.next)
      && o.id in k.prev && k.prev[o.id] == Ptr(o.prev) && Known(o.prev)
    }

    ghost predicate HeadOk(k: C.Links, l: nat)
      requires readyList.Length == MAX_PRIORITY && |k.heads| == C.LISTS && l < C.LISTS
      reads this`pool, this`blockedHead, readyList
    {
      var head := if l == C.BLOCKED_LIST then blockedHead else readyList[l];
      Known(head) && k.heads[l] == Ptr(head)
    }

    /** The maps k record the pointers, and every pointer leads to a node of the pool. */
    ghost predicate Typed(k: C.Links)
      reads this`blockedHead, this`pool, this`node, readyList, pool`next, pool`prev
    {
      && readyList.Length == MAX_PRIORITY && |k.heads| == C.LISTS
      && (forall o {:trigger NodeOk(k, o)} :: o in pool ==> NodeOk(k, o))
      && (forall l {:trigger HeadOk(k, l)} :: 0 <= l < C.LISTS ==> HeadOk(k, l))
    }

    /** The heap holds exactly the lists of net. */
    ghost predicate Wired()
      reads this`blockedHead, this`pool, this`node, this`net
      reads readyList, pool`next, pool`prev
    {
      Typed(net.links)
    }

    /** Besides, the bitmap marks the non-empty ready lists. */
    ghost predicate Links()
      reads this`bitmap, this`blockedHead, this`pool, this`node, this`net
      reads readyList, pool`next, pool`prev
    {
      Wired() && BitSet(bitmap) == C.Occupied(net)
    }

    // ---- Single pointer writes, and what they do to the link maps ----

    method SetNext(tcb: Tcb, to: Tcb?, ghost k: C.Links) returns (ghost r: C.Links)
      requires Typed(k) && tcb in pool && Known(to)
      modifies tcb`next
      ensures Typed(r) && tcb.next == to && r == k.(next := k.next[tcb.id := Ptr(to)])
      ensures net == old(net)
    {
      r := k.(next := k.next[tcb.id := Ptr(to)]);
      tcb.next := to;
      forall o | o in pool
        ensures NodeOk(r, o)
      {
        assert old(NodeOk(k, o)) && old(NodeOk(k, tcb));
      }
      forall l | 0 <= l < C.LISTS
        ensures HeadOk(r, l)
      {
        assert old(HeadOk(k, l));
      }
    }

    method SetPrev(tcb: Tcb, to: Tcb?, ghost k: C.Links) returns (ghost r: C.Links)
      requires Typed(k) && tcb in pool && Known(to)
      modifies tcb`prev
      ensures Typed(r) && tcb.prev == to && r == k.(prev := k.prev[tcb.id := Ptr(to)])
      ensures net == old(net)
    {
      r := k.(prev := k.prev[tcb.id := Ptr(to)]);
      tcb.prev := to;
      forall o | o in pool
        ensures NodeOk(r, o)
      {
        assert old(NodeOk(k, o)) && old(NodeOk(k, tcb));
      }
      forall l | 0 <= l < C.LISTS
        ensures HeadOk(r, l)
      {
        assert old(HeadOk(k, l));
      }
    }

    method SetReadyHead(p: Prio, to: Tcb?, ghost k: C.Links) returns (ghost r: C.Links)
      requires Typed(k) && Known(to)
      modifies readyList
      ensures Typed(r) && readyList[p] == to && r == k.(heads := k.heads[p := Ptr(to)])
      ensures net == old(net)
    {
      r := k.(heads := k.heads[p := Ptr(to)]);
      readyList[p] := to;
      forall o | o in pool
        ensures NodeOk(r, o)
      {
        assert old(NodeOk(k, o));
      }
      forall l | 0 <= l < C.LISTS
        ensures HeadOk(r, l)
      {
        assert old(HeadOk(k, l));
      }
    }

    method SetBlockedHead(to: Tcb?, ghost k: C.Links) returns (ghost r: C.Links)
      requires Typed(k) && Known(to)
      modifies this`blockedHead
      ensures Typed(r) && blockedHead == to && r == k.(heads := k.heads[C.BLOCKED_LIST := Ptr(to)])
      ensures net == old(net)
    {
      r := k.(heads := k.heads[C.BLOCKED_LIST := Ptr(to)]);
      blockedHead := to;
      forall o | o in pool
        ensures NodeOk(r, o)
      {
        assert old(NodeOk(k, o));
      }
      forall l | 0 <= l < C.LISTS
        ensures HeadOk(r, l)
      {
        assert old(HeadOk(k, l));
      }
    }

    // ---- The list operations ----

    /** The last node of a non-empty ready list, found by walking it. */
    method ReadyTail(prio: Prio) returns (last: Tcb)
      requires Wired() && C.Lists(net)[prio] != []
      ensures last in pool && last.id == C.Lists(net)[prio][|C.Lists(net)[prio]| - 1]
    {
      C.HeadAt(net, prio);
      assert HeadOk(net.links, prio);
      last := readyList[prio];
      ghost var q := C.Lists(net)[prio];
      ghost var i := 0;
      C.NodeAt(net, prio, 0);
      assert NodeOk(net.links, last);
      while last.next != null
        invariant 0 <= i < |q| && last in pool && last.id == q[i]
        invariant Ptr(last.next) == C.Get(q, i + 1) && Known(last.next)
        decreases |q| - i
      {
        last := last.next;
        i := i + 1;
        C.NodeAt(net, prio, i);
        assert NodeOk(net.links, last);
      }
    }

    method LinkFirst(tcb: Tcb)
      requires Wired() && tcb in pool && C.Free(net, tcb.id) && C.Lists(net)[tcb.priority] == []
      modifies this`net, readyList
      ensures Wired() && net == C.Appended(old(net), tcb.id, tcb.priority)
    {
      ghost var k := net.links;
      C.HeadAt(net, tcb.priority);
      net := C.Appended(net, tcb.id, tcb.priority);
      k := SetReadyHead(tcb.priority, tcb, k);
    }

    method LinkLast(tcb: Tcb)
      requires Wired() && tcb in pool && C.Free(net, tcb.id) && C.Lists(net)[tcb.priority] != []
      modifies this`net, pool`next, pool`prev
      ensures Wired() && net == C.Appended(old(net), tcb.id, tcb.priority)
    {
      ghost var k := net.links;
      C.FreeLinks(net, tcb.id);
      var last := ReadyTail(tcb.priority);
      C.Membership(net, tcb.id, tcb.priority);
      net := C.Appended(net, tcb.id, tcb.priority);
      k := SetNext(last, tcb, k);
      k := SetPrev(tcb, last, k);
    }

    /** ready_insert_tail: a free node's own links are null already. */
    method ReadyInsertTail(tcb: Tcb)
      requires Links() && tcb in pool && C.Free(net, tcb.id)
      modifies this`bitmap, this`net, readyList, pool`next, pool`prev
      ensures Links() && net == C.Appended(old(net), tcb.id, tcb.priority)
    {
      C.HeadAt(net, tcb.priority);
      assert HeadOk(net.links, tcb.priority);
      C.OccupiedAppended(net, tcb.id, tcb.priority);
      if readyList[tcb.priority] == null {
        bitmap := BitmapSet(bitmap, tcb.priority);
        LinkFirst(tcb);
      } else {
        LinkLast(tcb);
      }
    }

    /** blocked_insert */
    method BlockedInsert(tcb: Tcb)
      requires Links() && tcb in pool && C.Free(net, tcb.id)
      modifies this`blockedHead, this`net, pool`next, pool`prev
      ensures Links() && net == C.Prepended(old(net), tcb.id, C.BLOCKED_LIST)
    {
      C.HeadAt(net, C.BLOCKED_LIST);
      C.OccupiedBlocked(net, tcb.id);
      assert HeadOk(net.links, C.BLOCKED_LIST);
      ghost var k := net.links;
      net := C.Prepended(net, tcb.id, C.BLOCKED_LIST);
      k := SetNext(tcb, blockedHead, k);
      k := SetPrev(tcb, null, k);
      if blockedHead != null {
        k := SetPrev(blockedHead, tcb, k);
      }
      k := SetBlockedHead(tcb, k);
    }

    /** blocked_remove */
    method BlockedRemove(tcb: Tcb)
      requires Links() && tcb in pool && C.In(net, tcb.id, C.BLOCKED_LIST)
      modifies this`blockedHead, this`net, pool`next, pool`prev
      ensures Links() && net == C.Unlinked(old(net), tcb.id, C.BLOCKED_LIST)
    {
      C.Around(net, tcb.id, C.BLOCKED_LIST);
      C.OccupiedBlocked(net, tcb.id);
      assert NodeOk(net.links, tcb) && HeadOk(net.links, C.BLOCKED_LIST);
      SameNode(net.links, blockedHead, tcb);
      ghost var k := net.links;
      net := C.Unlinked(net, tcb.id, C.BLOCKED_LIST);
      if tcb.prev != null {
        k := SetNext(tcb.prev, tcb.next, k);
      } else if blockedHead == tcb {
        k := SetBlockedHead(tcb.next, k);
      }
      k := UnlinkRest(tcb, k);
      assert k == net.links;
    }

    /** Nodes are told apart by their identities. */
    lemma SameNode(k: C.Links, a: Tcb?, b: Tcb)
      requires Typed(k) && Known(a) && b in pool
      ensures a == b <==> Ptr(a) == Some(b.id)
    {
      assert NodeOk(k, b);
      assert a != null ==> NodeOk(k, a);
    }

    /** The part of the surgery that both removals share. */
    method UnlinkRest(tcb: Tcb, ghost k: C.Links) returns (ghost r: C.Links)
      requires Typed(k) && tcb in pool && tcb.next != tcb
      modifies pool`next, pool`prev
      ensures net == old(net)
      ensures Typed(r) && r.heads == k.heads && r.next == k.next[tcb.id := None]
      ensures r.prev == (if old(tcb.next) == null then k.prev
                         else k.prev[old(tcb.next).id := Ptr(old(tcb.prev))])[tcb.id := None]
    {
      assert NodeOk(k, tcb);
      r := k;
      if tcb.next != null {
        r := SetPrev(tcb.next, tcb.prev, r);
      }
      r := SetNext(tcb, null, r);
      r := SetPrev(tcb, null, r);
    }

    method UnlinkFront(tcb: Tcb, ghost k: C.Links) returns (ghost r: C.Links)
      requires Typed(k) && tcb in pool && tcb.prev != tcb
      modifies readyList, pool`next
      ensures net == old(net) && tcb.next == old(tcb.next)
      ensures Typed(r) && r.prev == k.prev
      ensures r.heads ==
              if k.heads[tcb.priority] == Some(tcb.id) then k.heads[tcb.priority := Ptr(tcb.next)] else k.heads
      ensures r.next == if tcb.prev == null then k.next else k.next[tcb.prev.id := Ptr(tcb.next)]
    {
      assert NodeOk(k, tcb) && HeadOk(k, tcb.priority);
      SameNode(k, readyList[tcb.priority], tcb);
      r := k;
      var head := readyList[tcb.priority];
      if head == tcb {
        r := SetReadyHead(tcb.priority, tcb.next, r);
      }
      if tcb.prev != null {
        r := SetNext(tcb.prev, tcb.next, r);
      }
    }

    /** The pointer surgery of scheduler_remove_task: nothing to do for an unlisted node. */
    method ReadyUnlink(tcb: Tcb)
      requires Wired() && tcb in pool && (C.In(net, tcb.id, tcb.priority) || C.Free(net, tcb.id))
      modifies this`net, readyList, pool`next, pool`prev
      ensures Wired()
      ensures net == if C.Free(old(net), tcb.id) then old(net) else C.Unlinked(old(net), tcb.id, tcb.priority)
    {
      ghost var k := net.links;
      assert NodeOk(k, tcb);
      C.HeadAt(net, tcb.priority);
      if C.Free(net, tcb.id) {
        C.FreeLinks(net, tcb.id);
        C.Membership(net, tcb.id, tcb.priority);
      } else {
        C.Around(net, tcb.id, tcb.priority);
        net := C.Unlinked(net, tcb.id, tcb.priority);
      }
      k := UnlinkFront(tcb, k);
      k := UnlinkRest(tcb, k);
      assert k == net.links;
    }

    /** scheduler_remove_task up to the bitmap: the last task of a priority clears its bit. */
    method ReadyRemove(tcb: Tcb)
      requires Links() && tcb in pool && (C.In(net, tcb.id, tcb.priority) || C.Free(net, tcb.id))
      modifies this`bitmap, this`net, readyList, pool`next, pool`prev
      ensures Links()
      ensures net == if C.Free(old(net), tcb.id) then old(net) else C.Unlinked(old(net), tcb.id, tcb.priority)
    {
      if !C.Free(net, tcb.id) {
        C.OccupiedUnlinked(net, tcb.id, tcb.priority);
      }
      ghost var was := C.Occupied(net);
      ReadyUnlink(tcb);
      C.HeadAt(net, tcb.priority);
      assert HeadOk(net.links, tcb.priority);
      if readyList[tcb.priority] == null {
        bitmap := BitmapClear(bitmap, tcb.priority);
      }
      assert C.Lists(net)[tcb.priority] == [] <==> tcb.priority !in C.Occupied(net);
    }

    /** scheduler_yield's surgery: cut the head off a list of at least two. */
    method DetachHead(head: Tcb)
      requires Links() && head in pool && C.In(net, head.id, head.priority)
      requires readyList.Length == MAX_PRIORITY && readyList[head.priority] == head && head.next != null
      modifies this`net, readyList, pool`next, pool`prev
      ensures Links() && net == C.Unlinked(old(net), head.id, head.priority)
    {
      ghost var k := net.links;
      assert NodeOk(k, head) && HeadOk(k, head.priority);
      C.Around(net, head.id, head.priority);
      C.OccupiedUnlinked(net, head.id, head.priority);
      C.SecondAt(net, head.id, head.priority);
      net := C.Unlinked(net, head.id, head.priority);
      C.HeadAt(net, head.priority);
      k := SetReadyHead(head.priority, head.next, k);
      k := SetPrev(head.next, null, k);
      k := SetNext(head, null, k);
      k := SetPrev(head, null, k);
      assert k == net.links;
    }

    // ---- The abstract state ----

    ghost predicate RecordOk(o: Tcb)
      reads this`abs, o`priority, o`basePriority, o`state, o`timeSlice, o`wakeTick, o`blockReason
      reads o`blockObject, o`blockTimeout, o`blockResult, o`eventWaitBits, o`eventWaitAll
    {
      o.id in abs.info && abs.info[o.id] == o.View()
    }

    /** The task records of abs are the nodes' fields. */
    ghost predicate Recorded()
      reads this`pool, this`abs
      reads pool`priority, pool`basePriority, pool`state, pool`timeSlice, pool`wakeTick, pool`blockReason
      reads pool`blockObject, pool`blockTimeout, pool`blockResult, pool`eventWaitBits, pool`eventWaitAll
    {
      forall o {:trigger RecordOk(o)} :: o in pool ==> RecordOk(o)
    }

    ghost predicate Synced()
      reads this`net, this`tickCount, this`current, this`lockCount, this`reschedulePending, this`switchPending
      reads this`abs
    {
      abs == S.State(abs.info, C.ReadyOf(net), C.BlockedOf(net), tickCount, Ptr(current), lockCount,
                     reschedulePending, switchPending)
    }

    /** tcb is a task of this kernel. */
    ghost predicate Has(tcb: Tcb)
      reads this`pool, this`abs
    {
      tcb in pool && tcb.id in abs.info
    }

    /** The heap holds the abstract state; its lists need not fit the tasks' states yet. */
    ghost predicate Ok()
      reads this, readyList, pool
    {
      Links() && Recorded() && Synced() && (current != null ==> Has(current))
    }

    /** Between critical sections the lists fit the tasks' states. */
    ghost predicate Valid()
      reads this, readyList, pool
    {
      Ok() && I.Inv(abs)
    }

    /** Bring the record of one node up to date with its fields. */
    ghost method Record(tcb: Tcb)
      requires Links() && Synced() && (current != null ==> Has(current)) && Has(tcb)
      requires forall o {:trigger RecordOk(o)} :: o in pool && o != tcb ==> RecordOk(o)
      modifies this`abs
      ensures Ok() && abs == old(abs).(info := old(abs).info[tcb.id := tcb.View()])
    {
      abs := abs.(info := abs.info[tcb.id := tcb.View()]);
      forall o | o in pool
        ensures RecordOk(o)
      {
        SameNode(net.links, o, tcb);
        assert o != tcb ==> old(RecordOk(o));
      }
    }

    /** ready_insert_tail, seen from above. */
    method InsertReady(tcb: Tcb)
      requires Ok() && Has(tcb) && C.Free(net, tcb.id)
      modifies this`bitmap, this`net, this`abs, readyList, pool`next, pool`prev
      ensures Ok() && abs == S.InsertTail(old(abs), tcb.id)
    {
      assert RecordOk(tcb);
      hide Links, Wired, Typed, Recorded;
      C.AppendedViews(net, tcb.id, tcb.priority);
      ReadyInsertTail(tcb);
      abs := S.InsertTail(abs, tcb.id);
      Kept();
    }

    /** Records survive whatever leaves the nodes' fields and abs.info alone. */
    twostate lemma Kept()
      requires old(Recorded()) && pool == old(pool) && abs.info == old(abs.info)
      requires forall o :: o in pool ==> o.View() == old(o.View())
      ensures Recorded()
    {
      forall o | o in pool
        ensures RecordOk(o)
      {
        assert old(RecordOk(o));
      }
    }

    /** scheduler_trigger_switch, when priority p outranks the current task. */
    method Preempt(p: Prio)
      requires Ok()
      modifies this`switchPending, this`abs
      ensures Ok() && abs == S.Preempt(old(abs), p)
    {
      assert current != null ==> RecordOk(current);
      if current != null && p < current.priority {
        switchPending := true;
      }
      abs := S.Preempt(abs, p);
      Kept();
    }

    method MarkReady(tcb: Tcb)
      requires Ok() && Has(tcb)
      modifies this`abs, tcb`state, tcb`timeSlice
      ensures Ok()
      ensures abs == old(abs).(info :=
                old(abs).info[tcb.id := old(abs).info[tcb.id].(state := Ready, slice := TIME_SLICE)])
    {
      hide Links, Wired, Typed;
      assert RecordOk(tcb);
      tcb.state := Ready;
      tcb.timeSlice := TIME_SLICE;
      Others(tcb);
      Record(tcb);
    }

    /** Records of other nodes survive writes to one node. */
    twostate lemma Others(tcb: Tcb)
      requires old(Recorded()) && pool == old(pool) && abs.info == old(abs.info)
      requires forall o :: o in pool && o != tcb ==> o.View() == old(o.View())
      ensures forall o {:trigger RecordOk(o)} :: o in pool && o != tcb ==> RecordOk(o)
    {
      forall o | o in pool && o != tcb
        ensures RecordOk(o)
      {
        assert old(RecordOk(o));
      }
    }

    /** scheduler_add_task */
    method AddTask(tcb: Tcb)
      requires Ok() && Has(tcb) && C.Free(net, tcb.id)
      modifies this`bitmap, this`net, this`abs, this`switchPending, readyList, pool
      ensures Ok() && abs == S.AddTask(old(abs), tcb.id)
    {
      assert RecordOk(tcb);
      MarkReady(tcb);
      InsertReady(tcb);
      Preempt(tcb.priority);
    }

    /** scheduler_remove_task, for a task that is in its ready list or in no list. */
    method RemoveTask(tcb: Tcb)
      requires Ok() && Has(tcb) && (C.In(net, tcb.id, tcb.priority) || C.Free(net, tcb.id))
      modifies this`bitmap, this`net, this`abs, readyList, pool`next, pool`prev
      ensures Ok() && abs == S.RemoveTask(old(abs), tcb.id) && C.Free(net, tcb.id)
    {
      hide Links, Wired, Typed, Recorded, Drop, C.ReadyOf, C.BlockedOf, C.Unlinked, C.In;
      RemovedViews(tcb);
      ReadyRemove(tcb);
      abs := S.RemoveTask(abs, tcb.id);
      Kept();
    }

    /** What the lists are without the task, which may be in none. */
    lemma RemovedViews(tcb: Tcb)
      requires Ok() && Has(tcb) && (C.In(net, tcb.id, tcb.priority) || C.Free(net, tcb.id))
      ensures var r := if C.Free(net, tcb.id) then net else C.Unlinked(net, tcb.id, tcb.priority);
              && C.Free(r, tcb.id) && C.BlockedOf(r) == abs.blocked
              && C.ReadyOf(r) == S.RemoveTask(abs, tcb.id).ready
    {
      hide Links, Wired, Typed, Drop;
      assert RecordOk(tcb);
      if C.Free(net, tcb.id) {
        C.Membership(net, tcb.id, tcb.priority);
        SelectNone(abs.ready[tcb.priority], {tcb.id});
      } else {
        C.UnlinkedViews(net, tcb.id, tcb.priority);
      }
    }

    /** Between critical sections a task's state tells which list its node is in. */
    lemma PlaceOf(tcb: Tcb)
      requires Valid() && Has(tcb)
      ensures RecordOk(tcb)
      ensures tcb.View().Runnable() ==> C.In(net, tcb.id, tcb.priority)
      ensures tcb.state == Blocked ==> C.In(net, tcb.id, C.BLOCKED_LIST)
      ensures !tcb.View().Runnable() && tcb.state != Blocked ==> C.Free(net, tcb.id)
    {
      assert RecordOk(tcb) && NodeOk(net.links, tcb);
      I.Runs(abs, tcb.id);
      C.HeadAt(net, 0);
      C.PlaceRange(net, tcb.id);
      C.Membership(net, tcb.id, tcb.priority);
      C.Membership(net, tcb.id, C.BLOCKED_LIST);
      var l := net.layout.place[tcb.id];
      if l < C.LISTS {
        C.Membership(net, tcb.id, l);
      }
    }

    method Rerank(tcb: Tcb, p: Prio)
      requires Ok() && Has(tcb)
      modifies this`abs, tcb`priority
      ensures Ok() && tcb.priority == p
      ensures abs == old(abs).(info := old(abs).info[tcb.id := old(abs).info[tcb.id].(priority := p)])
    {
      hide Links, Wired, Typed;
      assert RecordOk(tcb);
      tcb.priority := p;
      Others(tcb);
      Record(tcb);
    }

    /** scheduler_set_priority */
    method SetPriority(tcb: Tcb?, newPriority: nat)
      requires Valid() && (tcb != null ==> Has(tcb))
      modifies this`bitmap, this`net, this`abs, this`switchPending, readyList, pool
      ensures Valid()
      ensures abs == if tcb == null || newPriority >= MAX_PRIORITY then old(abs)
                     else S.SetPriority(old(abs), tcb.id, newPriority)
    {
      if tcb == null || newPriority >= MAX_PRIORITY {
        return;
      }
      PlaceOf(tcb);
      I.SetPriorityInv(abs, tcb.id, newPriority);
      if tcb.state == Ready || tcb.state == Running {
        RemoveTask(tcb);
        Rerank(tcb, newPriority);
        AddTask(tcb);
      } else {
        Rerank(tcb, newPriority);
      }
    }

    /** The first task of its list, with a second one behind it. */
    ghost predicate HeadsPeers(head: Tcb)
      requires readyList.Length == MAX_PRIORITY
      reads head`priority, head`next, readyList
    {
      readyList[head.priority] == head && head.next != null
    }

    lemma PeersListed(head: Tcb)
      requires Ok() && Has(head) && readyList[head.priority] == head
      ensures readyList.Length == MAX_PRIORITY
      ensures var q := abs.ready[head.priority];
              && (HeadsPeers(head) <==> |q| > 1) && |q| > 0 && q[0] == head.id && NoDup(q)
              && C.In(net, head.id, head.priority)
    {
      assert RecordOk(head) && HeadOk(net.links, head.priority) && NodeOk(net.links, head);
      C.SecondAt(net, head.id, head.priority);
      C.Membership(net, head.id, head.priority);
    }

    method DropHead(head: Tcb)
      requires Ok() && Has(head) && HeadsPeers(head)
      modifies this`net, this`abs, readyList, pool`next, pool`prev
      ensures Ok() && C.Free(net, head.id) && abs == S.RemoveTask(old(abs), head.id)
    {
      hide Links, Wired, Typed, Drop, C.ReadyOf, C.BlockedOf, C.Unlinked;
      PeersListed(head);
      RemovedViews(head);
      DetachHead(head);
      abs := S.RemoveTask(abs, head.id);
      Kept();
    }

    method RotateHead(head: Tcb)
      requires Ok() && Has(head) && HeadsPeers(head)
      modifies this`bitmap, this`net, this`abs, readyList, pool`next, pool`prev
      ensures Ok()
      ensures var q := old(abs).ready[head.priority];
              |q| > 1 && abs == old(abs).(ready := old(abs).ready[head.priority := q[1..] + [head.id]])
    {
      PeersListed(head);
      assert RecordOk(head);
      ghost var q := abs.ready[head.priority];
      DropAt(q, 0);
      assert Drop(q, {head.id}) == q[1..];
      DropHead(head);
      InsertReady(head);
    }

    method SetPending()
      requires Ok()
      modifies this`switchPending, this`abs
      ensures Ok() && abs == old(abs).(pending := true)
    {
      switchPending := true;
      abs := abs.(pending := true);
      Kept();
    }

    method SetResched(b: bool)
      requires Ok()
      modifies this`reschedulePending, this`abs
      ensures Ok() && abs == old(abs).(resched := b)
    {
      reschedulePending := b;
      abs := abs.(resched := b);
      Kept();
    }

    /** What scheduler_yield compares: the head of the current task's list, and its next link. */
    lemma CurrentHeads()
      requires Ok() && current != null
      ensures RecordOk(current)
      ensures readyList[current.priority] == current && HeadsPeers(current) <==>
              |abs.ready[current.priority]| > 1 && abs.ready[current.priority][0] == current.id
    {
      assert RecordOk(current) && HeadOk(net.links, current.priority);
      C.HeadAt(net, current.priority);
      SameNode(net.links, readyList[current.priority], current);
      if readyList[current.priority] == current {
        PeersListed(current);
      }
    }

    /** scheduler_yield */
    method Yield()
      requires Valid()
      modifies this`bitmap, this`net, this`abs, this`switchPending, this`reschedulePending,
               readyList, pool`next, pool`prev
      ensures Valid() && abs == S.Yield(old(abs))
    {
      I.YieldInv(abs);
      if current == null {
        return;
      }
      if lockCount > 0 {
        SetResched(true);
        return;
      }
      CurrentHeads();
      var prio := current.priority;
      var head := readyList[prio];
      if head != null && head.next != null && head == current {
        RotateHead(head);
      }
      SetPending();
    }

    // ---- Blocking and waking ----

    method PushBlocked(tcb: Tcb)
      requires Ok() && Has(tcb) && C.Free(net, tcb.id)
      modifies this`blockedHead, this`net, this`abs, pool`next, pool`prev
      ensures Ok() && abs == old(abs).(blocked := [tcb.id] + old(abs).blocked)
    {
      hide Links, Wired, Typed;
      C.PrependedViews(net, tcb.id);
      BlockedInsert(tcb);
      abs := abs.(blocked := [tcb.id] + abs.blocked);
      Kept();
    }

    method Deadline(timeout: U32) returns (wake: U32)
      ensures wake == S.WakeTick(tickCount, timeout)
    {
      if timeout == TIMEOUT_NONE {
        wake := (tickCount + 1) % TWO32;
      } else if timeout == TIMEOUT_FOREVER {
        wake := TIMEOUT_FOREVER;
      } else {
        wake := (tickCount + timeout) % TWO32;
      }
    }

    method MarkBlocked(tcb: Tcb, reason: Reason, obj: nat)
      requires Ok() && Has(tcb)
      modifies this`abs, tcb`state, tcb`blockReason, tcb`blockObject
      ensures Ok()
      ensures abs == old(abs).(info := old(abs).info[tcb.id := old(abs).info[tcb.id].(
                state := Blocked, reason := reason, obj := obj)])
    {
      hide Links, Wired, Typed, Synced;
      assert RecordOk(tcb);
      tcb.state := Blocked;
      tcb.blockReason := reason;
      tcb.blockObject := obj;
      Others(tcb);
      Record(tcb);
    }

    method MarkDeadline(tcb: Tcb, timeout: U32)
      requires Ok() && Has(tcb)
      modifies this`abs, tcb`blockTimeout, tcb`blockResult, tcb`wakeTick
      ensures Ok()
      ensures abs == old(abs).(info := old(abs).info[tcb.id := old(abs).info[tcb.id].(
                timeout := timeout, result := Code.Ok, wakeTick := S.WakeTick(old(abs).tick, timeout))])
    {
      hide Links, Wired, Typed;
      assert RecordOk(tcb);
      var wake := Deadline(timeout);
      tcb.blockTimeout := timeout;
      tcb.blockResult := Code.Ok;
      tcb.wakeTick := wake;
      Others(tcb);
      Record(tcb);
    }

    method MarkWaiting(tcb: Tcb, reason: Reason, obj: nat, timeout: U32)
      requires Ok() && Has(tcb)
      modifies this`abs, tcb`state, tcb`blockReason, tcb`blockObject, tcb`blockTimeout, tcb`blockResult, tcb`wakeTick
      ensures Ok()
      ensures abs == old(abs).(info := old(abs).info[
                tcb.id := S.Waiting(old(abs).info[tcb.id], reason, obj, timeout, old(abs).tick)])
    {
      MarkBlocked(tcb, reason, obj);
      MarkDeadline(tcb, timeout);
    }

    /**
     * The critical section of scheduler_block_task. The yield that follows it, and the
     * reading of the result when the task runs again, are separate steps.
     */
    method Block(reason: Reason, obj: nat, timeout: U32) returns (code: Option<Code>)
      requires Valid() && (current != null ==> current.state != Blocked)
      modifies this`bitmap, this`blockedHead, this`net, this`abs, this`switchPending, readyList, pool
      ensures Valid() && abs == S.Block(old(abs), reason, obj, timeout)
      ensures code == if current == null then Some(ErrState) else None
    {
      assert current != null ==> RecordOk(current);
      I.BlockInv(abs, reason, obj, timeout);
      if current == null {
        return Some(ErrState);
      }
      PlaceOf(current);
      RemoveTask(current);
      MarkWaiting(current, reason, obj, timeout);
      PushBlocked(current);
      SetPending();
      code := None;
    }

    method PopBlocked(tcb: Tcb)
      requires Ok() && Has(tcb) && C.In(net, tcb.id, C.BLOCKED_LIST)
      modifies this`blockedHead, this`net, this`abs, pool`next, pool`prev
      ensures Ok() && C.Free(net, tcb.id) && abs == old(abs).(blocked := Drop(old(abs).blocked, {tcb.id}))
    {
      hide Links, Wired, Typed;
      C.UnlinkedViews(net, tcb.id, C.BLOCKED_LIST);
      BlockedRemove(tcb);
      abs := abs.(blocked := Drop(abs.blocked, {tcb.id}));
      Kept();
    }

    method MarkWoken(tcb: Tcb, code: Code)
      requires Ok() && Has(tcb)
      modifies this`abs, tcb`state, tcb`blockReason, tcb`blockObject, tcb`blockTimeout, tcb`blockResult
      ensures Ok()
      ensures abs == old(abs).(info := old(abs).info[tcb.id := S.Woken(old(abs).info[tcb.id], S.Answer(code))])
    {
      hide Links, Wired, Typed, Synced;
      assert RecordOk(tcb);
      tcb.state := Ready;
      tcb.blockReason := NoReason;
      tcb.blockResult := code;
      tcb.blockObject := NO_OBJECT;
      tcb.blockTimeout := 0;
      Others(tcb);
      Record(tcb);
    }

    /** The wake-up of one blocked node that every unblocking path performs. */
    method WakeNode(tcb: Tcb, code: Code)
      requires Ok() && Has(tcb) && C.In(net, tcb.id, C.BLOCKED_LIST)
      modifies this`bitmap, this`blockedHead, this`net, this`abs, readyList, pool
      ensures Ok() && abs == S.Wake(old(abs), {tcb.id}, S.Answer(code))
      ensures tcb.priority == old(tcb.priority)
    {
      C.Membership(net, tcb.id, C.BLOCKED_LIST);
      W.WakeOne(abs, tcb.id, S.Answer(code));
      PopBlocked(tcb);
      MarkWoken(tcb, code);
      InsertReady(tcb);
    }

    /** scheduler_unblock_task */
    method UnblockTask(tcb: Tcb?, code: Code)
      requires Valid() && (tcb != null ==> Has(tcb))
      modifies this`bitmap, this`blockedHead, this`net, this`abs, this`switchPending, readyList, pool
      ensures Valid()
      ensures abs == if tcb == null then old(abs) else S.UnblockTask(old(abs), tcb.id, code)
    {
      if tcb == null || tcb.state != Blocked {
        assert tcb != null ==> RecordOk(tcb);
        return;
      }
      PlaceOf(tcb);
      I.UnblockTaskInv(abs, tcb.id, code);
      WakeNode(tcb, code);
      Preempt(tcb.priority);
    }

    /** scheduler_unblock_one: scan for the best waiter, wake it, and preempt if it outranks. */
    method UnblockOne(reason: Reason, obj: nat, code: Code) returns (woken: bool)
      requires Valid()
      modifies this`bitmap, this`blockedHead, this`net, this`abs, this`switchPending, readyList, pool
      ensures Valid() && abs == S.UnblockOne(old(abs), reason, obj, code)
      ensures woken == S.Best(old(abs).info, old(abs).blocked, reason, obj).Some?
    {
      I.UnblockOneInv(abs, reason, obj, code);
      var best := FindBest(reason, obj);
      if best != null {
        PlaceOf(best);
        WakeNode(best, code);
        Preempt(best.priority);
      }
      woken := best != null;
    }

    method FindBest(reason: Reason, obj: nat) returns (best: Tcb?)
      requires Valid()
      ensures Ptr(best) == S.Best(abs.info, abs.blocked, reason, obj)
      ensures best != null ==> Has(best) && best.state == Blocked
    {
      hide Links, Wired, Typed, Recorded, I.Inv;
      best := null;
      ghost var q := abs.blocked;
      ghost var i := 0;
      FirstBlocked();
      var iter := blockedHead;
      while iter != null
        invariant i <= |q| && (iter == null <==> i == |q|)
        invariant iter != null ==> iter in pool && iter.id == q[i]
        invariant Ptr(best) == S.Best(abs.info, q[..i], reason, obj)
        invariant Known(best)
        decreases |q| - i
      {
        BestStep(best, iter, i, reason, obj);
        if iter.blockReason == reason && iter.blockObject == obj {
          if best == null || iter.priority < best.priority {
            best := iter;
          }
        }
        NextBlocked(iter, i);
        iter := iter.next;
        i := i + 1;
      }
      assert q[..i] == q;
      if best != null {
        ListedBlocked(best);
      }
    }

    /** One step of the scan, for the node at position i of the blocked list. */
    lemma BestStep(best: Tcb?, iter: Tcb, i: nat, reason: Reason, obj: nat)
      requires Recorded() && Known(best) && iter in pool && i < |abs.blocked| && iter.id == abs.blocked[i]
      requires Ptr(best) == S.Best(abs.info, abs.blocked[..i], reason, obj)
      ensures var better := && iter.blockReason == reason && iter.blockObject == obj
                            && (best == null || iter.priority < best.priority);
              S.Best(abs.info, abs.blocked[..i + 1], reason, obj) == Ptr(if better then iter else best)
    {
      assert RecordOk(iter) && (best != null ==> RecordOk(best));
      W.BestNext(abs.info, abs.blocked[..i], abs.blocked[i], reason, obj);
      assert abs.blocked[..i + 1] == abs.blocked[..i] + [abs.blocked[i]];
      hide S.Best;
    }

    lemma ListedBlocked(tcb: Tcb)
      requires Valid() && tcb in pool && tcb.id in abs.blocked
      ensures Has(tcb) && tcb.state == Blocked
    {
      assert RecordOk(tcb);
    }

    lemma FirstBlocked()
      requires Links() && Synced()
      ensures blockedHead == null <==> abs.blocked == []
      ensures blockedHead != null ==> blockedHead in pool && blockedHead.id == abs.blocked[0]
    {
      C.HeadAt(net, C.BLOCKED_LIST);
      assert HeadOk(net.links, C.BLOCKED_LIST);
    }

    /** The node at position i of the blocked list leads to position i + 1. */
    lemma NextBlocked(iter: Tcb, i: nat)
      requires Links() && Synced() && iter in pool && i < |abs.blocked| && iter.id == abs.blocked[i]
      ensures iter.next == null <==> i + 1 == |abs.blocked|
      ensures iter.next != null ==> iter.next in pool && iter.next.id == abs.blocked[i + 1]
    {
      C.NodeAt(net, C.BLOCKED_LIST, i);
      assert NodeOk(net.links, iter);
    }

    // ---- Walks that unlink nodes ----

    /** Where a wake-up walk over q stands once the members of d among q[..i] are woken. */
    ghost predicate Walking(s: S.State, d: set<Id>, how: S.Wakeup, i: nat, iter: Tcb?)
      reads this, readyList, pool
    {
      && Ok() && NoDup(s.blocked) && i <= |s.blocked|
      && abs == S.Wake(s, W.Upto(s.blocked, i, d), how)
      && (iter == null <==> i == |s.blocked|)
      && (iter != null ==> Has(iter) && iter.id == s.blocked[i])
    }

    /** The walk's node is still blocked, unwritten, and leads to the next element of q. */
    lemma WalkAt(s: S.State, d: set<Id>, how: S.Wakeup, i: nat, iter: Tcb)
      requires Walking(s, d, how, i, iter)
      ensures C.In(net, iter.id, C.BLOCKED_LIST) && iter.id in s.info
      ensures RecordOk(iter) && abs.info[iter.id] == s.info[iter.id]
      ensures iter.next == null <==> i + 1 == |s.blocked|
      ensures iter.next != null ==> iter.next in pool && iter.next.id in abs.info && iter.next.id == s.blocked[i + 1]
    {
      var q := s.blocked;
      W.WalkPosition(q, i, d);
      var j := |Drop(q[..i], d)|;
      assert abs.blocked[j] == q[i];
      C.Membership(net, iter.id, C.BLOCKED_LIST);
      NextBlocked(iter, j);
      assert RecordOk(iter);
      assert iter.next != null ==> RecordOk(iter.next);
    }

    lemma WalkStart(d: set<Id>, how: S.Wakeup)
      requires Ok()
      ensures Walking(abs, d, how, 0, blockedHead)
    {
      C.Membership(net, 0, C.BLOCKED_LIST);
      FirstBlocked();
      assert blockedHead != null ==> RecordOk(blockedHead);
      assert W.Upto(abs.blocked, 0, d) == {};
      W.WakeNobody(abs, how);
    }

    /** The walk's step over a node it leaves blocked. */
    lemma WalkSkip(s: S.State, d: set<Id>, how: S.Wakeup, i: nat, iter: Tcb)
      requires Walking(s, d, how, i, iter) && iter.id !in d
      ensures Walking(s, d, how, i + 1, iter.next)
    {
      WalkAt(s, d, how, i, iter);
      W.UptoNext(s.blocked, i, d);
    }

    /** The walk's step over a node it wakes. */
    method WalkWake(iter: Tcb, code: Code, ghost s: S.State, ghost d: set<Id>, ghost how: S.Wakeup, ghost i: nat)
        returns (next: Tcb?)
      requires Walking(s, d, how, i, iter) && iter.id in d
      requires S.Woken(abs.info[iter.id], how) == S.Woken(abs.info[iter.id], S.Answer(code))
      modifies this`bitmap, this`blockedHead, this`net, this`abs, readyList, pool
      ensures Walking(s, d, how, i + 1, next)
    {
      WalkAt(s, d, how, i, iter);
      W.WalkPosition(s.blocked, i, d);
      W.UptoNext(s.blocked, i, d);
      W.WakeNext(s, i, W.Upto(s.blocked, i, d), how);
      W.SameWake(abs, iter.id, how, S.Answer(code));
      next := iter.next;
      WakeNode(iter, code);
    }

    /** scheduler_unblock_all */
    method UnblockAll(reason: Reason, obj: nat, code: Code) returns (count: nat)
      requires Valid()
      modifies this`bitmap, this`blockedHead, this`net, this`abs, this`switchPending, readyList, pool
      ensures Valid() && abs == S.UnblockAll(old(abs), reason, obj, code)
      ensures count == |Keep(old(abs).blocked, S.Waiters(old(abs), reason, obj))|
    {
      I.UnblockAllInv(abs, reason, obj, code);
      W.WakeNobody(abs, S.Answer(code));
      Members(abs.blocked, S.Waiters(abs, reason, obj));
      ghost var k := Keep(abs.blocked, S.Waiters(abs, reason, obj));
      assert k != [] ==> k[0] in k;
      count := WakeWaiters(reason, obj, code);
      if count > 0 {
        SetPending();
      }
    }

    method WakeWaiters(reason: Reason, obj: nat, code: Code) returns (count: nat)
      requires Ok()
      modifies this`bitmap, this`blockedHead, this`net, this`abs, readyList, pool
      ensures Ok() && abs == S.Wake(old(abs), S.Waiters(old(abs), reason, obj), S.Answer(code))
      ensures count == |Keep(old(abs).blocked, S.Waiters(old(abs), reason, obj))|
    {
      ghost var s := abs;
      ghost var d := S.Waiters(abs, reason, obj);
      WalkStart(d, S.Answer(code));
      count := 0;
      var iter := blockedHead;
      ghost var i := 0;
      while iter != null
        invariant Walking(s, d, S.Answer(code), i, iter)
        invariant count == W.CountUpto(s.blocked, i, d)
        decreases |s.blocked| - i
      {
        var woken;
        iter, woken := WakeWaiter(iter, reason, obj, code, s, i);
        count := if woken then count + 1 else count;
        i := i + 1;
      }
      W.UptoAll(s.blocked, d);
    }

    /** One step of the walk of scheduler_unblock_all. */
    method WakeWaiter(iter: Tcb, reason: Reason, obj: nat, code: Code, ghost s: S.State, ghost i: nat)
        returns (next: Tcb?, woken: bool)
      requires Walking(s, S.Waiters(s, reason, obj), S.Answer(code), i, iter)
      modifies this`bitmap, this`blockedHead, this`net, this`abs, readyList, pool
      ensures Walking(s, S.Waiters(s, reason, obj), S.Answer(code), i + 1, next)
      ensures var d := S.Waiters(s, reason, obj);
              W.CountUpto(s.blocked, i + 1, d) == W.CountUpto(s.blocked, i, d) + if woken then 1 else 0
    {
      ghost var d := S.Waiters(s, reason, obj);
      WalkAt(s, d, S.Answer(code), i, iter);
      W.CountNext(s.blocked, i, d);
      woken := iter.blockReason == reason && iter.blockObject == obj;
      assert woken <==> s.blocked[i] in d;
      if woken {
        next := WalkWake(iter, code, s, d, S.Answer(code), i);
      } else {
        WalkSkip(s, d, S.Answer(code), i, iter);
        next := iter.next;
      }
    }

    // ---- The tick ----

    /** scheduler_tick's walk over the blocked list. */
    method ExpireDue()
      requires Ok()
      modifies this`bitmap, this`blockedHead, this`net, this`abs, readyList, pool
      ensures Ok() && abs == S.Wake(old(abs), S.DueSet(old(abs)), S.Expired)
    {
      ghost var s := abs;
      ghost var d := S.DueSet(abs);
      WalkStart(d, S.Expired);
      var iter := blockedHead;
      ghost var i := 0;
      while iter != null
        invariant Walking(s, d, S.Expired, i, iter)
        decreases |s.blocked| - i
      {
        iter := ExpireNode(iter, s, i);
        i := i + 1;
      }
      W.UptoAll(s.blocked, d);
    }

    /** One step of the walk of scheduler_tick. */
    method ExpireNode(iter: Tcb, ghost s: S.State, ghost i: nat) returns (next: Tcb?)
      requires Walking(s, S.DueSet(s), S.Expired, i, iter) && tickCount == s.tick
      modifies this`bitmap, this`blockedHead, this`net, this`abs, readyList, pool
      ensures Walking(s, S.DueSet(s), S.Expired, i + 1, next)
    {
      ghost var d := S.DueSet(s);
      WalkAt(s, d, S.Expired, i, iter);
      var wake := false;
      var code := iter.blockResult;
      if iter.blockReason == Delay {
        if tickCount >= iter.wakeTick {
          wake := true;
        }
      } else if iter.blockTimeout != 0 && iter.blockTimeout != TIMEOUT_FOREVER {
        if tickCount >= iter.wakeTick {
          code := ErrTimeout;
          wake := true;
        }
      }
      assert wake <==> iter.id in d;
      if wake {
        next := WalkWake(iter, code, s, d, S.Expired, i);
      } else {
        WalkSkip(s, d, S.Expired, i, iter);
        next := iter.next;
      }
    }

    method SetSlice(tcb: Tcb, slice: U32)
      requires Valid() && Has(tcb)
      modifies this`abs, tcb`timeSlice
      ensures Valid() && tcb.timeSlice == slice
      ensures abs == old(abs).(info := old(abs).info[tcb.id := old(abs).info[tcb.id].(slice := slice)])
    {
      hide Links, Wired, Typed, I.Inv;
      assert RecordOk(tcb);
      ghost var s := abs;
      tcb.timeSlice := slice;
      Others(tcb);
      Record(tcb);
      I.SamePlaces(s, abs);
    }

    method ChargeSlice()
      requires Valid()
      modifies this`bitmap, this`net, this`abs, this`switchPending, this`reschedulePending, readyList, pool
      ensures Valid() && abs == S.ChargeSlice(old(abs))
    {
      if current == null {
        return;
      }
      assert RecordOk(current);
      ghost var s := abs;
      if current.timeSlice > 0 {
        SetSlice(current, current.timeSlice - 1);
      }
      if current.timeSlice == 0 {
        SetSlice(current, TIME_SLICE);
        assert abs.info == s.info[current.id := s.info[current.id].(slice := TIME_SLICE)];
        Yield();
      }
    }

    /** The bitmap marks exactly the priorities whose ready list has a head. */
    lemma BitmapExact(p: Prio)
      requires Valid()
      ensures p in BitSet(bitmap) <==> readyList[p] != null
      ensures p in BitSet(bitmap) <==> exists t :: t in abs.info && abs.info[t].Runnable() && abs.info[t].priority == p
    {
      C.HeadAt(net, p);
      assert HeadOk(net.links, p);
      assert I.ListOk(abs, p);
      assert abs.ready[p] == C.Lists(net)[p];
      assert abs.ready[p] != [] ==> abs.ready[p][0] in abs.ready[p];
    }

    /** bitmap_find_highest reads off the highest non-empty ready list. */
    lemma HighestMarked()
      requires Ok()
      ensures FindHighest(bitmap) == S.Highest(abs)
    {
      var p, h := FindHighest(bitmap), S.Highest(abs);
      assert p < MAX_PRIORITY ==> p in C.Occupied(net) && abs.ready[p] != [];
      assert h < MAX_PRIORITY ==> h in C.Occupied(net);
    }

    /** The first part of scheduler_tick: count the tick and wake what is due. */
    method Expire()
      requires Valid()
      modifies this`tickCount, this`bitmap, this`blockedHead, this`net, this`abs, readyList, pool
      ensures Valid() && abs == S.Expire(old(abs))
    {
      I.ExpireInv(abs);
      tickCount := (tickCount + 1) % TWO32;
      abs := abs.(tick := tickCount);
      Kept();
      ExpireDue();
    }

    method PreemptByHighest()
      requires Valid()
      modifies this`switchPending, this`abs
      ensures Valid() && abs == S.PreemptByHighest(old(abs))
    {
      HighestMarked();
      I.PendingInv(abs, abs.(pending := true));
      assert current != null ==> RecordOk(current);
      var highest := FindHighest(bitmap);
      if current != null && highest < current.priority {
        SetPending();
      }
    }

    /** scheduler_tick */
    method Tick()
      requires Valid()
      modifies this`tickCount, this`bitmap, this`blockedHead, this`net, this`abs
      modifies this`switchPending, this`reschedulePending, readyList, pool
      ensures Valid() && abs == S.Tick(old(abs))
    {
      Expire();
      ChargeSlice();
      PreemptByHighest();
    }

    // ---- Selection ----

    /** scheduler_get_next */
    method GetNext() returns (next: Tcb?)
      requires Valid()
      ensures Ptr(next) == S.GetNext(abs) && (next != null ==> Has(next))
    {
      hide I.Inv;
      HighestMarked();
      var highest := FindHighest(bitmap);
      if highest >= MAX_PRIORITY {
        return null;
      }
      C.HeadAt(net, highest);
      assert HeadOk(net.links, highest);
      next := readyList[highest];
      assert RecordOk(next);
    }

    /** The switch performed by PendSV: scheduler_select_next_task, then current_task := next_task. */
    method PendSV() returns (next: Tcb?)
      requires Valid()
      modifies this`current, this`switchPending, this`abs
      ensures Valid() && abs == S.PendSV(old(abs)) && current == next
    {
      hide I.Inv;
      I.PendSVInv(abs);
      next := GetNext();
      current := next;
      switchPending := false;
      abs := S.PendSV(abs);
      Kept();
    }

    // ---- Scheduler lock ----

    method SetLocks(n: U32)
      requires Ok()
      modifies this`lockCount, this`abs
      ensures Ok() && abs == old(abs).(locks := n)
    {
      lockCount := n;
      abs := abs.(locks := n);
      Kept();
    }

    /** scheduler_lock */
    method Lock()
      requires Valid()
      modifies this`lockCount, this`abs
      ensures Valid() && abs == S.Lock(old(abs))
    {
      I.LockInv(abs);
      SetLocks((lockCount + 1) % TWO32);
    }

    /** scheduler_unlock */
    method Unlock()
      requires Valid()
      modifies this`lockCount, this`reschedulePending, this`switchPending, this`abs
      ensures Valid() && abs == S.Unlock(old(abs))
    {
      I.LockInv(abs);
      if lockCount > 0 {
        SetLocks(lockCount - 1);
      }
      if lockCount == 0 && reschedulePending {
        SetResched(false);
        SetPending();
      }
    }

    // ---- Task life cycle ----

    /** scheduler_init */
    constructor ()
      ensures Valid() && abs == S.Initial() && pool == {} && fresh(readyList)
      ensures current == null && tickCount == lockCount == 0 && !reschedulePending && !switchPending
      ensures bitmap == 0 && blockedHead == null && forall p: nat :: p < MAX_PRIORITY ==> readyList[p] == null
      ensures net == C.EmptyNet
    {
      bitmap, blockedHead, tickCount, current := 0, null, 0, null;
      lockCount, reschedulePending, switchPending := 0, false, false;
      pool, node, abs := {}, map[], S.Initial();
      net := C.EmptyNet;
      readyList := new Tcb?[MAX_PRIORITY](_ => null);
      new;
      NoBits();
      I.InitialInv();
      forall l | 0 <= l < C.LISTS
        ensures HeadOk(net.links, l)
      {
      }
    }

    /** A control block the kernel has not seen yet. */
    ghost predicate Unseen(tcb: Tcb)
      reads this`pool, this`net, this`abs
    {
      tcb !in pool && tcb.id !in abs.info && tcb.id !in net.layout.place
    }

    /** Take a control block with cleared links into the pool of nodes. */
    ghost method JoinPool(tcb: Tcb)
      requires Links() && Unseen(tcb) && tcb.next == null && tcb.prev == null
      modifies this`pool, this`node, this`net
      ensures Links() && C.Free(net, tcb.id) && pool == old(pool) + {tcb}
      ensures C.Lists(net) == C.Lists(old(net))
      ensures forall o :: o in old(pool) ==> o.id != tcb.id
    {
      C.HeadAt(net, 0);
      pool, node, net := pool + {tcb}, node[tcb.id := tcb], C.Joined(net, tcb.id);
      forall o | o in old(pool)
        ensures o.id != tcb.id
      {
        assert old(NodeOk(net.links, o));
      }
      forall o | o in pool
        ensures NodeOk(net.links, o)
      {
        assert o != tcb ==> old(NodeOk(net.links, o));
      }
      forall l | 0 <= l < C.LISTS
        ensures HeadOk(net.links, l)
      {
        assert old(HeadOk(net.links, l));
      }
    }

    /** Besides, open its record. */
    ghost method Join(tcb: Tcb)
      requires Ok() && Unseen(tcb) && tcb.next == null && tcb.prev == null
      modifies this`pool, this`node, this`net, this`abs
      ensures Ok() && Has(tcb) && C.Free(net, tcb.id) && pool == old(pool) + {tcb}
      ensures abs == old(abs).(info := old(abs).info[tcb.id := tcb.View()])
    {
      hide Links, Wired, Typed;
      JoinPool(tcb);
      abs := abs.(info := abs.info[tcb.id := tcb.View()]);
      forall o | o in pool
        ensures RecordOk(o)
      {
        assert o != tcb ==> old(RecordOk(o));
      }
    }

    method FillSchedule(tcb: Tcb, priority: Prio)
      requires Ok() && Has(tcb)
      modifies this`abs, tcb`priority, tcb`basePriority, tcb`state, tcb`timeSlice, tcb`wakeTick
      ensures Ok()
      ensures abs == old(abs).(info := old(abs).info[tcb.id := old(abs).info[tcb.id].(
                priority := priority, base := priority, state := Ready, slice := TIME_SLICE, wakeTick := 0)])
    {
      hide Links, Wired, Typed, Synced;
      assert RecordOk(tcb);
      tcb.priority, tcb.basePriority, tcb.state := priority, priority, Ready;
      tcb.timeSlice, tcb.wakeTick := TIME_SLICE, 0;
      Others(tcb);
      Record(tcb);
    }

    method FillWait(tcb: Tcb)
      requires Ok() && Has(tcb)
      modifies this`abs, tcb`blockReason, tcb`blockObject, tcb`blockTimeout, tcb`blockResult
      modifies tcb`eventWaitBits, tcb`eventWaitAll
      ensures Ok()
      ensures abs == old(abs).(info := old(abs).info[tcb.id := old(abs).info[tcb.id].(
                reason := NoReason, obj := NO_OBJECT, timeout := 0, result := Code.Ok,
                waitBits := 0, waitAll := false)])
    {
      hide Links, Wired, Typed, Synced;
      assert RecordOk(tcb);
      tcb.blockReason, tcb.blockObject, tcb.blockTimeout, tcb.blockResult := NoReason, NO_OBJECT, 0, Code.Ok;
      tcb.eventWaitBits, tcb.eventWaitAll := 0, false;
      Others(tcb);
      Record(tcb);
    }

    /**
     * task_create on a control block in no list: one the kernel has not seen, or one of a
     * task that was deleted or suspended.
     */
    method TaskCreate(tcb: Tcb, priority: nat) returns (code: Code)
      requires Valid()
      requires Unseen(tcb) || (Has(tcb) && S.Idle(abs.info[tcb.id]))
      modifies this`bitmap, this`net, this`abs, this`switchPending, this`pool, this`node, readyList, pool, tcb
      ensures Valid() && pool == old(pool) + if code == Code.Ok then {tcb} else {}
      ensures code == if priority < MAX_PRIORITY then Code.Ok else ErrParam
      ensures abs == if code == Code.Ok then S.Create(old(abs), tcb.id, priority) else old(abs)
      ensures code == Code.Ok ==>
                && tcb.id in abs.info
                && abs.info[tcb.id] ==
                     Task(priority, priority, Ready, TIME_SLICE, 0, NoReason, NO_OBJECT, 0, Code.Ok, 0, false)
    {
      if priority >= MAX_PRIORITY {
        return ErrParam;
      }
      I.CreateInv(abs, tcb.id, priority);
      Created(abs, tcb.id, priority);
      hide NewTask;
      Prepare(tcb, priority);
      AddTask(tcb);
      code := Code.Ok;
    }

    lemma Created(s: S.State, t: Id, p: Prio)
      requires S.Sane(s) && (t in s.info ==> S.Idle(s.info[t]))
      ensures var r := S.Create(s, t, p);
              && t in r.info
              && r.info[t] == Task(p, p, Ready, TIME_SLICE, 0, NoReason, NO_OBJECT, 0, Code.Ok, 0, false)
    {
    }

    /** Fill in a control block: everything task_create writes before it adds the task. */
    method Prepare(tcb: Tcb, priority: Prio)
      requires Valid()
      requires Unseen(tcb) || (Has(tcb) && S.Idle(abs.info[tcb.id]))
      modifies this`net, this`abs, this`pool, this`node, pool, tcb
      ensures Ok() && Has(tcb) && C.Free(net, tcb.id) && pool == old(pool) + {tcb}
      ensures abs == old(abs).(info := old(abs).info[tcb.id := NewTask(priority)])
    {
      hide Links, Wired, Typed, I.Inv, S.Idle;
      ClearLinks(tcb);
      if tcb !in pool {
        Join(tcb);
      }
      Fill(tcb, priority);
    }

    method Fill(tcb: Tcb, priority: Prio)
      requires Ok() && Has(tcb)
      modifies this`abs, tcb
      ensures Ok() && tcb.next == old(tcb.next) && tcb.prev == old(tcb.prev)
      ensures abs == old(abs).(info := old(abs).info[tcb.id := NewTask(priority)])
    {
      hide Links, Wired, Typed, Recorded, Synced;
      FillSchedule(tcb, priority);
      FillWait(tcb);
    }

    /** The links of a known node in no list are null already; those of an unseen one are nobody's. */
    method ClearLinks(tcb: Tcb)
      requires Valid()
      requires Unseen(tcb) || (Has(tcb) && S.Idle(abs.info[tcb.id]))
      modifies tcb`next, tcb`prev
      ensures Ok() && tcb.next == null && tcb.prev == null && (tcb in pool ==> C.Free(net, tcb.id))
    {
      hide Links, Wired, Typed, I.Inv;
      if tcb in pool {
        IdleLinks(tcb);
      }
      tcb.next, tcb.prev := null, null;
      Untouched();
    }

    lemma IdleLinks(tcb: Tcb)
      requires Valid() && Has(tcb) && S.Idle(abs.info[tcb.id])
      ensures C.Free(net, tcb.id) && tcb.next == null && tcb.prev == null
    {
      PlaceOf(tcb);
      C.FreeLinks(net, tcb.id);
      assert NodeOk(net.links, tcb);
    }

    /** Writes outside the pool, and writes of the value a field has, disturb nothing. */
    twostate lemma Untouched()
      requires old(Ok()) && unchanged(this) && unchanged(readyList)
      requires forall o :: o in pool ==> o.View() == old(o.View()) && o.next == old(o.next) && o.prev == old(o.prev)
      ensures Ok()
    {
      Kept();
      forall o | o in pool
        ensures NodeOk(net.links, o)
      {
        assert old(NodeOk(net.links, o));
      }
      forall l | 0 <= l < C.LISTS
        ensures HeadOk(net.links, l)
      {
        assert old(HeadOk(net.links, l));
      }
    }

    method SetState(tcb: Tcb, state: TaskState)
      requires Ok() && Has(tcb)
      modifies this`abs, tcb`state
      ensures Ok()
      ensures abs == old(abs).(info := old(abs).info[tcb.id := old(abs).info[tcb.id].(state := state)])
    {
      hide Links, Wired, Typed;
      assert RecordOk(tcb);
      tcb.state := state;
      Others(tcb);
      Record(tcb);
    }

    /** The critical section of task_suspend and task_delete. */
    method Retire(tcb: Tcb, state: TaskState)
      requires Valid() && Has(tcb) && tcb.state != Blocked
      requires state == Suspended || state == Deleted
      modifies this`bitmap, this`net, this`abs, readyList, pool
      ensures Valid() && abs == S.Retire(old(abs), tcb.id, state)
    {
      PlaceOf(tcb);
      I.RetireInv(abs, tcb.id, state);
      RemoveTask(tcb);
      SetState(tcb, state);
    }

    /** task_suspend and task_delete: a null argument means the current task, which then yields. */
    method TaskRetire(tcb: Tcb?, state: TaskState) returns (code: Code)
      requires Valid() && (tcb != null ==> Has(tcb))
      requires var t := if tcb == null then current else tcb; t != null ==> t.state != Blocked
      requires state == Suspended || state == Deleted
      modifies this`bitmap, this`net, this`abs, this`switchPending, this`reschedulePending, readyList, pool
      ensures Valid()
      ensures var t := if tcb == null then current else tcb;
              if t == null then code == ErrParam && abs == old(abs)
              else code == Code.Ok && abs == S.TaskRetire(old(abs), t.id, state)
    {
      var t := if tcb == null then current else tcb;
      if t == null {
        return ErrParam;
      }
      assert NodeOk(net.links, t);
      assert current != null ==> NodeOk(net.links, current);
      Retire(t, state);
      if t == current {
        Yield();
      }
      code := Code.Ok;
    }

    /** task_resume */
    method TaskResume(tcb: Tcb?) returns (code: Code)
      requires Valid() && (tcb != null ==> Has(tcb))
      modifies this`bitmap, this`net, this`abs, this`switchPending, readyList, pool
      ensures Valid()
      ensures code == if tcb != null && old(abs).info[tcb.id].state == Suspended then Code.Ok else ErrParam
      ensures abs == if code == Code.Ok then S.AddTask(old(abs), tcb.id) else old(abs)
    {
      assert tcb != null ==> RecordOk(tcb);
      if tcb == null || tcb.state != Suspended {
        return ErrParam;
      }
      PlaceOf(tcb);
      I.ResumeInv(abs, tcb.id);
      I.ResumeSplit(abs, tcb.id);
      SetState(tcb, Ready);
      AddTask(tcb);
      code := Code.Ok;
    }

    /** task_set_priority: a null argument means the current task. */
    method TaskSetPriority(tcb: Tcb?, priority: nat) returns (code: Code)
      requires Valid() && (tcb != null ==> Has(tcb))
      modifies this`bitmap, this`net, this`abs, this`switchPending, readyList, pool
      ensures Valid()
      ensures var t := if tcb == null then current else tcb;
              if priority >= MAX_PRIORITY || t == null then code == ErrParam && abs == old(abs)
              else code == Code.Ok && abs == S.SetPriority(old(abs), t.id, priority)
    {
      if priority >= MAX_PRIORITY {
        return ErrParam;
      }
      var t := if tcb == null then current else tcb;
      if t == null {
        return ErrParam;
      }
      SetPriority(t, priority);
      code := Code.Ok;
    }

    /** task_delay: no ticks to wait is a yield. */
    method TaskDelay(ticks: U32)
      requires Valid() && (current != null ==> current.state != Blocked)
      modifies this`bitmap, this`blockedHead, this`net, this`abs, this`switchPending, this`reschedulePending,
               readyList, pool
      ensures Valid()
      ensures abs == if ticks == 0 then S.Yield(old(abs)) else S.Block(old(abs), Delay, NO_OBJECT, ticks)
    {
      if ticks == 0 {
        Yield();
      } else {
        var _ := Block(Delay, NO_OBJECT, ticks);
      }
    }

    /** scheduler_start up to the first task's entry; with nothing ready the source waits for ever. */
    method Start() returns (first: Tcb?)
      requires Valid()
      modifies this`current, this`abs, pool`state, pool`timeSlice
      ensures Valid() && Ptr(first) == S.GetNext(old(abs))
      ensures S.GetNext(old(abs)).Some? ==> S.GetNext(old(abs)).value in old(abs).info
      ensures abs == S.Start(old(abs))
    {
      hide I.Inv;
      I.StartInv(abs);
      first := GetNext();
      if first == null {
        return;
      }
      assert RecordOk(first);
      current := first;
      abs := abs.(current := Some(first.id));
      Kept();
      SetRunning(first);
    }

    method SetRunning(tcb: Tcb)
      requires Ok() && Has(tcb)
      modifies this`abs, tcb`state, tcb`timeSlice
      ensures Ok()
      ensures abs == old(abs).(info := old(abs).info[
                tcb.id := old(abs).info[tcb.id].(state := Running, slice := TIME_SLICE)])
    {
      hide Links, Wired, Typed;
      assert RecordOk(tcb);
      tcb.state := Running;
      tcb.timeSlice := TIME_SLICE;
      Others(tcb);
      Record(tcb);
    }

    /** event_wait's note of the current task's condition. */
    method Expect(bits: U32, all: bool)
      requires Valid()
      modifies this`abs, pool`eventWaitBits, pool`eventWaitAll
      ensures Valid() && abs == S.Expect(old(abs), bits, all)
    {
      I.ExpectInv(abs, bits, all);
      if current != null {
        assert RecordOk(current);
        current.eventWaitBits, current.eventWaitAll := bits, all;
        Others(current);
        Record(current);
      }
    }
  }
}
