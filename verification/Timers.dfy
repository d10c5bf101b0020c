/** kernel/timer.c: a singly linked list of timers, edited in place. */
module Timers {
  import opened Types
  import opened Seqs
  import T = TimerRuns

  class Node {
    const id: Id
    var next: Node?
    var period: U32
    var remaining: U32
    var periodic: bool
    var active: bool
    var callback: bool

    /** A timer's memory before timer_create: all zero. */
    constructor (id: Id)
      ensures this.id == id && !active && !callback
    {
      this.id := id;
      next, period, remaining, periodic, active, callback := null, 0, 0, false, false, false;
    }

    ghost function View(): T.Timer
      reads this`period, this`remaining, this`periodic, this`active
    {
      T.Timer(period, remaining, periodic, active)
    }
  }

  class TimerList {
    var head: Node?

    // The timers that exist, the list's nodes in order, and the abstract state
    ghost var pool: set<Node>
    ghost var chain: seq<Node>
    ghost var abs: T.State

    ghost function At(i: int): Node?
      reads this`chain
    {
      if 0 <= i < |chain| then chain[i] else null
    }

    ghost predicate LinkOk(i: nat)
      requires i < |chain|
      reads this`chain, this`pool, this`abs, chain`next
    {
      && chain[i] in pool && chain[i].next == At(i + 1)
      && i < |abs.list| && abs.list[i] == chain[i].id
    }

    ghost predicate RecordOk(n: Node)
      reads this`abs, n`period, n`remaining, n`periodic, n`active
    {
      n.id in abs.timers && abs.timers[n.id] == n.View()
    }

    ghost predicate Linked()
      reads this`head, this`chain, this`pool, this`abs, chain`next
    {
      && head == At(0) && |chain| == |abs.list| && NoDup(abs.list)
      && (forall i {:trigger LinkOk(i)} :: 0 <= i < |chain| ==> LinkOk(i))
    }

    ghost predicate Distinct()
      reads this`pool
    {
      forall m, n :: m in pool && n in pool && m.id == n.id ==> m == n
    }

    /** The heap holds the abstract state. */
    ghost predicate Ok()
      reads this, pool, chain
    {
      Linked() && Distinct() && forall n {:trigger RecordOk(n)} :: n in pool ==> RecordOk(n)
    }

    /** Besides, a timer is active iff it is listed. */
    ghost predicate Valid()
      reads this, pool, chain
    {
      Ok() && T.Inv(abs)
    }

    constructor ()
      ensures Valid() && abs == T.Empty() && pool == {}
    {
      head, pool, chain, abs := null, {}, [], T.Empty();
    }

    /** Nodes of the list are where their identities are. */
    lemma Spot(n: Node, i: nat)
      requires Ok() && n in pool && i < |chain|
      ensures chain[i] in pool && i < |abs.list| && (chain[i] == n <==> abs.list[i] == n.id)
    {
      assert LinkOk(i);
    }

    lemma Listed(n: Node)
      requires Ok() && n in pool
      ensures n in chain <==> n.id in abs.list
    {
      forall i | 0 <= i < |chain|
        ensures chain[i] == n <==> abs.list[i] == n.id
      {
        Spot(n, i);
      }
    }

    /** timer_create, for a timer that is not active; without a callback it is refused. */
    method Create(n: Node?, callback: bool) returns (code: Code)
      requires Valid()
      requires n != null ==>
                 if n in pool then !n.active else n.id !in abs.timers && forall m :: m in pool ==> m.id != n.id
      modifies this`pool, this`abs, n
      ensures Valid() && code == if n == null || !callback then ErrParam else Code.Ok
      ensures code == Code.Ok ==> n.callback && pool == old(pool) + {n}
      ensures code == Code.Ok ==> abs == old(abs).(timers := old(abs).timers[n.id := T.Timer(0, 0, false, false)])
      ensures code != Code.Ok ==> pool == old(pool) && abs == old(abs)
    {
      if n == null || !callback {
        return ErrParam;
      }
      assert n in pool ==> RecordOk(n) && T.TimerOk(abs, n.id);
      if n in pool {
        Listed(n);
      }
      T.CreateInv(abs, n.id);
      forall i | 0 <= i < |chain|
        ensures chain[i] != n
      {
        assert LinkOk(i);
      }
      n.next, n.period, n.remaining, n.periodic, n.active := null, 0, 0, false, false;
      n.callback := true;
      forall i | 0 <= i < |chain|
        ensures LinkOk(i)
      {
        assert old(LinkOk(i));
      }
      Adopt(n);
      code := Code.Ok;
    }

    ghost method Adopt(n: Node)
      requires Linked() && n !in chain && n.View() == T.Timer(0, 0, false, false)
      requires forall m {:trigger RecordOk(m)} :: m in pool && m != n ==> RecordOk(m)
      requires forall l, m :: l in pool + {n} && m in pool + {n} && l.id == m.id ==> l == m
      modifies this`pool, this`abs
      ensures Ok() && pool == old(pool) + {n} && abs == T.Create(old(abs), n.id)
    {
      pool := pool + {n};
      abs := T.Create(abs, n.id);
      forall i | 0 <= i < |chain|
        ensures LinkOk(i)
      {
        assert old(LinkOk(i));
      }
      forall m | m in pool
        ensures RecordOk(m)
      {
        assert m != n ==> old(RecordOk(m));
      }
    }

    /** timer_list_add */
    method ListAdd(n: Node)
      requires Ok() && n in pool && n.id !in abs.list
      modifies this`head, this`chain, this`abs, n`next, n`active
      ensures Ok() && pool == old(pool) && n.id in old(abs).timers
      ensures abs == old(abs).(list := [n.id] + old(abs).list,
                               timers := old(abs).timers[n.id := old(abs).timers[n.id].(active := true)])
    {
      Listed(n);
      assert RecordOk(n);
      NoDupConcat([n.id], abs.list);
      n.next := head;
      head := n;
      n.active := true;
      chain := [n] + chain;
      abs := abs.(list := [n.id] + abs.list, timers := abs.timers[n.id := n.View()]);
      forall i | 0 <= i < |chain|
        ensures LinkOk(i)
      {
        if i > 0 {
          assert old(LinkOk(i - 1));
        }
      }
      Records(n);
    }

    /** Records of other timers survive writes to one. */
    twostate lemma Records(n: Node)
      requires n in pool && pool == old(pool) && old(Ok())
      requires abs.timers == old(abs).timers[n.id := n.View()]
      requires forall m :: m in pool && m != n ==> m.View() == old(m.View())
      ensures forall m {:trigger RecordOk(m)} :: m in pool ==> RecordOk(m)
    {
      forall m | m in pool
        ensures RecordOk(m)
      {
        assert old(RecordOk(m));
      }
    }

    /** timer_list_remove: search the list, unlink the timer where it is found. */
    method ListRemove(n: Node)
      requires Ok() && n in pool
      modifies this`head, this`chain, this`abs, pool`next, n`active
      ensures Ok() && pool == old(pool) && n.id in old(abs).timers
      ensures abs == if n.id in old(abs).list then T.Remove(old(abs), n.id) else old(abs)
      ensures forall j :: 0 <= j < |old(chain)| && old(chain)[j] == n ==> chain == Without(old(chain), j)
    {
      Listed(n);
      assert RecordOk(n);
      var iter := head;
      var prev: Node? := null;
      ghost var i := 0;
      while iter != null
        invariant 0 <= i <= |chain| && iter == At(i) && prev == At(i - 1)
        invariant forall k :: 0 <= k < i ==> chain[k] != n
        invariant Ok() && chain == old(chain) && abs == old(abs)
        invariant forall m :: m in pool ==> m.next == old(m.next)
        decreases |chain| - i
      {
        assert LinkOk(i);
        if iter == n {
          assert i > 0 ==> LinkOk(i - 1);
          Apart(i);
          Cut(iter, prev, i);
          return;
        }
        prev := iter;
        iter := iter.next;
        i := i + 1;
      }
    }

    /** Take the node at position i out of the list. */
    method Cut(iter: Node, prev: Node?, ghost i: nat)
      requires Ok() && i < |chain| && iter == chain[i] && iter in pool
      requires prev == At(i - 1) && (prev != null ==> prev in pool)
      modifies this`head, this`chain, this`abs, pool`next, iter`active
      ensures Ok() && pool == old(pool) && iter.id in old(abs).timers && abs == T.Remove(old(abs), iter.id)
      ensures chain == Without(old(chain), i)
      ensures iter.id in old(abs).list
    {
      assert LinkOk(i) && RecordOk(iter);
      CutLinks(iter, prev, i);
      label Relinked:
      iter.active := false;
      abs := abs.(timers := abs.timers[iter.id := iter.View()]);
      forall k | 0 <= k < |chain|
        ensures LinkOk(k)
      {
        assert old@Relinked(LinkOk(k));
      }
      Records(iter);
    }

    /** Lead the predecessor, or the head, past a node. */
    method Bypass(iter: Node, prev: Node?, ghost i: nat)
      requires Ok() && i < |chain| && iter == chain[i] && iter in pool
      requires prev == At(i - 1) && (prev != null ==> prev in pool)
      modifies this`head, pool`next
      ensures head == if i == 0 then At(1) else At(0)
      ensures forall k :: 0 <= k < |chain| && k != i ==> chain[k].next == if k + 1 == i then At(i + 1) else At(k + 1)
    {
      assert LinkOk(i);
      Apart(i);
      if i > 0 {
        Apart(i - 1);
      }
      forall k | 0 <= k < |chain|
        ensures chain[k].next == At(k + 1)
      {
        assert LinkOk(k);
      }
      if prev == null {
        head := iter.next;
      } else {
        prev.next := iter.next;
      }
      iter.next := null;
    }

    method CutLinks(iter: Node, prev: Node?, ghost i: nat)
      requires Ok() && i < |chain| && iter == chain[i] && iter in pool
      requires prev == At(i - 1) && (prev != null ==> prev in pool)
      modifies this`head, this`chain, this`abs, pool`next
      ensures Linked() && pool == old(pool)
      ensures abs == old(abs).(list := Drop(old(abs).list, {iter.id}))
      ensures chain == Without(old(chain), i)
    {
      hide Keep, Drop, NoDup, Without, Distinct;
      assert LinkOk(i);
      DropWithout(abs.list, i);
      Bypass(iter, prev, i);
      chain := Without(chain, i);
      abs := abs.(list := Drop(abs.list, {iter.id}));
      forall k | 0 <= k < |chain|
        ensures LinkOk(k)
      {
        assert old(LinkOk(if k < i then k else k + 1));
      }
    }

    /** The list has no node twice. */
    lemma Apart(i: nat)
      requires Ok() && i < |chain|
      ensures forall k :: 0 <= k < |chain| && k != i ==> chain[k] != chain[i]
    {
      forall k | 0 <= k < |chain| && k != i
        ensures chain[k] != chain[i]
      {
        assert LinkOk(k) && LinkOk(i);
      }
    }

    method SetTimes(n: Node, period: U32, remaining: U32, periodic: bool)
      requires Ok() && n in pool
      modifies this`abs, n`period, n`remaining, n`periodic
      ensures Ok() && pool == old(pool) && chain == old(chain)
      ensures abs == old(abs).(timers := old(abs).timers[n.id := T.Timer(period, remaining, periodic, n.active)])
    {
      assert RecordOk(n);
      n.period, n.remaining, n.periodic := period, remaining, periodic;
      abs := abs.(timers := abs.timers[n.id := n.View()]);
      forall i | 0 <= i < |chain|
        ensures LinkOk(i)
      {
        assert old(LinkOk(i));
      }
      Records(n);
    }

    /** timer_stop, also of a timer that has not been created */
    method Stop(n: Node?) returns (code: Code)
      requires Valid() && (n != null && n !in pool ==> !n.active)
      modifies this`head, this`chain, this`abs, pool
      ensures Valid() && pool == old(pool) && code == if n == null then ErrParam else Code.Ok
      ensures n in pool ==> n.id in old(abs).timers && abs == T.Stop(old(abs), n.id)
      ensures n !in pool ==> abs == old(abs)
    {
      if n == null {
        return ErrParam;
      }
      if n in pool {
        assert RecordOk(n) && T.TimerOk(abs, n.id);
        T.StopInv(abs, n.id);
      }
      if n.active {
        ListRemove(n);
      }
      code := Code.Ok;
    }

    /** timer_start: refused for a timer that has no callback, as before its creation. */
    method Start(n: Node?, period: U32, periodic: bool) returns (code: Code)
      requires Valid() && (n != null && n.callback ==> n in pool)
      modifies this`head, this`chain, this`abs, pool
      ensures Valid() && pool == old(pool)
      ensures code == if n == null || !old(n.callback) || period == 0 then ErrParam else Code.Ok
      ensures code == Code.Ok ==> n.id in old(abs).timers && abs == T.Start(old(abs), n.id, period, periodic)
      ensures code != Code.Ok ==> abs == old(abs)
    {
      if n == null || !n.callback || period == 0 {
        return ErrParam;
      }
      assert RecordOk(n) && T.TimerOk(abs, n.id);
      T.StartInv(abs, n.id, period, periodic);
      T.StopInv(abs, n.id);
      if n.active {
        ListRemove(n);
      }
      ghost var s := T.Stop(abs, n.id);
      SetTimes(n, period, period, periodic);
      ListAdd(n);
      assert abs.timers == s.timers[n.id := T.Timer(period, period, periodic, true)];
      code := Code.Ok;
    }

    /** timer_tick_isr at one timer; the result says whether its callback runs. */
    method TickNode(n: Node) returns (fires: bool)
      requires Ok() && n in pool && n in chain
      modifies this`head, this`chain, this`abs, pool
      ensures Ok() && pool == old(pool) && n.id in old(abs).timers && abs == T.TickOne(old(abs), n.id)
      ensures abs.fired == if fires then old(abs).fired + [n.id] else old(abs).fired
      ensures forall j :: 0 <= j < |old(chain)| && old(chain)[j] == n ==>
                chain == if n in chain then old(chain) else Without(old(chain), j)
    {
      assert RecordOk(n);
      Listed(n);
      var left := if n.remaining > 0 then n.remaining - 1 else 0;
      fires := left == 0;
      if !fires {
        SetTimes(n, n.period, left, n.periodic);
      } else if n.periodic {
        SetTimes(n, n.period, n.period, n.periodic);
        LogFired(n);
      } else {
        SetTimes(n, n.period, left, n.periodic);
        LogFired(n);
        Members(abs.list, {n.id});
        ListRemove(n);
        Listed(n);
      }
    }

    ghost method LogFired(n: Node)
      requires Ok()
      modifies this`abs
      ensures Ok() && abs == old(abs).(fired := old(abs).fired + [n.id])
    {
      abs := abs.(fired := abs.fired + [n.id]);
      forall i | 0 <= i < |chain|
        ensures LinkOk(i)
      {
        assert old(LinkOk(i));
      }
      forall m | m in pool
        ensures RecordOk(m)
      {
        assert old(RecordOk(m));
      }
    }

    /** The walk stands at iter, with the nodes rest before it, and whole to be reached. */
    ghost predicate Walking(whole: T.State, rest: seq<Node>, ids: seq<Id>, iter: Node?)
      reads this, pool, chain
    {
      && Ok() && |rest| <= |chain| && (forall k :: 0 <= k < |rest| ==> rest[k] == chain[|chain| - |rest| + k])
      && iter == (if rest == [] then null else rest[0])
      && |ids| == |rest| && (forall k :: 0 <= k < |rest| ==> rest[k].id == ids[k])
      && (forall t :: t in ids ==> t in abs.timers) && T.TickAll(abs, ids) == whole
    }

    /** One stop of the walk: take the successor, then tick the timer, which may unlink itself. */
    method TickNext(iter: Node, ghost whole: T.State, ghost rest: seq<Node>, ghost ids: seq<Id>)
        returns (next: Node?, fires: bool)
      requires Walking(whole, rest, ids, iter)
      modifies this`head, this`chain, this`abs, pool
      ensures |rest| > 0 && |ids| > 0 && Walking(whole, rest[1..], ids[1..], next) && pool == old(pool)
      ensures abs.fired == if fires then old(abs).fired + [iter.id] else old(abs).fired
    {
      hide NoDup, Distinct, Without, T.TickOne, T.TickAll;
      ghost var j := |chain| - |rest|;
      assert LinkOk(j) && chain[j] == iter == rest[0];
      next := iter.next;
      assert next == if |rest| == 1 then null else rest[1];
      T.TickAllStep(abs, ids);
      ghost var was := chain;
      fires := TickNode(iter);
      RestAfter(was, chain, rest);
    }

    /** What is left of the walk lies at the end of the list, whether or not the timer has unlinked itself. */
    lemma RestAfter(was: seq<Node>, now: seq<Node>, rest: seq<Node>)
      requires 0 < |rest| <= |was| && forall k :: 0 <= k < |rest| ==> rest[k] == was[|was| - |rest| + k]
      requires now == was || now == Without(was, |was| - |rest|)
      ensures |rest[1..]| <= |now|
      ensures forall k :: 0 <= k < |rest[1..]| ==> rest[1..][k] == now[|now| - |rest[1..]| + k]
    {
      forall k | 0 <= k < |rest[1..]|
        ensures rest[1..][k] == now[|now| - |rest[1..]| + k]
      {
        assert rest[k + 1] == was[|was| - |rest| + k + 1];
      }
    }

    /** timer_tick_isr */
    method TickIsr() returns (fired: seq<Id>)
      requires Valid()
      modifies this`head, this`chain, this`abs, pool
      ensures Valid() && pool == old(pool)
      ensures (forall t :: t in old(abs).list ==> t in old(abs).timers) && abs == T.Tick(old(abs))
      ensures abs.fired == old(abs).fired + fired
    {
      T.TickInv(abs);
      fired := [];
      ghost var whole := T.Tick(abs);
      ghost var rest, ids := chain, abs.list;
      forall k | 0 <= k < |chain|
        ensures chain[k].id == ids[k]
      {
        assert LinkOk(k);
      }
      var iter := head;
      while iter != null
        invariant Walking(whole, rest, ids, iter) && pool == old(pool)
        invariant abs.fired == old(abs).fired + fired
        decreases |rest|
      {
        var fires;
        var id := iter.id;
        iter, fires := TickNext(iter, whole, rest, ids);
        fired := if fires then fired + [id] else fired;
        rest, ids := rest[1..], ids[1..];
      }
    }
  }
}
