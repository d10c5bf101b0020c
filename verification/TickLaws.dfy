/** What one tick does to the lists: the walk that unlinks nodes, then the slice rotation. */
module TickLaws {
  import opened Types
  import opened Seqs
  import opened SchedSpec
  import opened SchedInv
  import opened SchedRuns
  import opened TaskLaws

  /** The blocked tasks that the next tick finds due. */
  ghost function DueNext(s: State): set<Id> {
    set t | t in s.blocked && t in s.info && Due(s.info[t], (s.tick + 1) % TWO32)
  }

  /** The task whose slice this tick ends, when it heads a list with peers and switching is allowed. */
  ghost predicate Rotates(s: State, q: seq<Id>) {
    && s.current.Some? && s.current.value in s.info && s.info[s.current.value].slice <= 1
    && s.locks == 0 && |q| > 1 && q[0] == s.current.value
  }

  /** Ready list p just before the rotation: its due tasks joined at the tail, in blocked-list order. */
  ghost function Joined(s: State, p: nat): seq<Id>
    requires p < MAX_PRIORITY
  {
    s.ready[p] + Keep(s.blocked, WithPriority(s.info, DueNext(s), p))
  }

  /** The slice charge rotates the list of a current task that heads it with its last tick spent. */
  lemma ChargeLists(e: State, p: nat)
    requires Sane(e) && p < MAX_PRIORITY
    ensures var r, q := PreemptByHighest(ChargeSlice(e)), e.ready[p];
            && r.blocked == e.blocked
            && r.ready[p] == if Rotates(e, q) && e.info[e.current.value].priority == p then q[1..] + [q[0]] else q
  {
    hide Highest;
  }

  /**
   * The tick takes exactly the due tasks off the blocked list and appends each to its own
   * ready list, keeping both orders; then at most the current task moves, from the front
   * of its list to the back.
   */
  lemma TickLists(s: State, p: nat)
    requires Inv(s) && p < MAX_PRIORITY
    ensures Tick(s).blocked == Drop(s.blocked, DueNext(s))
    ensures var q := Joined(s, p);
            Tick(s).ready[p] ==
            if Rotates(s, q) && s.info[s.current.value].priority == p then q[1..] + [q[0]] else q
  {
    var e := Expire(s);
    assert DueNext(s) == DueSet(s.(tick := (s.tick + 1) % TWO32));
    assert e.ready[p] == Joined(s, p);
    assert s.current.Some? ==> e.info[s.current.value].slice == s.info[s.current.value].slice
                               && e.info[s.current.value].priority == s.info[s.current.value].priority;
    assert e.current == s.current && e.locks == s.locks && e.blocked == Drop(s.blocked, DueNext(s));
    ChargeLists(e, p);
    hide Inv, Expire, Keep, Drop, Highest, ChargeSlice, Joined;
  }

  /** No task is lost or doubled: its occurrences over all 33 lists stay what they were. */
  lemma TickConserves(s: State, t: Id)
    requires Inv(s)
    ensures Inv(Tick(s))
    ensures ReadyCount(Tick(s), t, 0) + multiset(Tick(s).blocked)[t] == ReadyCount(s, t, 0) + multiset(s.blocked)[t]
    ensures t in DueNext(s) ==> ReadyCount(Tick(s), t, 0) == 1
    ensures t !in DueNext(s) ==> ReadyCount(Tick(s), t, 0) == ReadyCount(s, t, 0)
  {
    hide Tick, Keep, Drop, Highest, ReadyCount, NoDup, ListOk;
    TickInv(s);
    var r := Tick(s);
    ReadyCountIs(s, t, 0);
    ReadyCountIs(r, t, 0);
    OnceEach(s.blocked, t);
    OnceEach(r.blocked, t);
    TickKeys(s);
    if t in s.info {
      TickRecord(s, t);
      assert t in s.blocked <==> s.info[t].state == Blocked;
      assert t in r.blocked <==> r.info[t].state == Blocked;
    }
  }
}
