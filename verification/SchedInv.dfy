/** The partition invariant, and its preservation by every critical section. */
module SchedInv {
  import opened Types
  import opened Seqs
  import opened SchedSpec

  /** Ready list p holds, once each, exactly the runnable tasks of priority p. */
  ghost predicate ListOk(s: State, p: nat)
    requires p < MAX_PRIORITY
  {
    && NoDup(s.ready[p])
    && forall t :: t in s.ready[p] <==> t in s.info && s.info[t].Runnable() && s.info[t].priority == p
  }

  /** The blocked list holds, once each, exactly the blocked tasks. */
  ghost predicate BlockedOk(s: State) {
    && NoDup(s.blocked)
    && forall t :: t in s.blocked <==> t in s.info && s.info[t].state == Blocked
  }

  ghost predicate Inv(s: State) {
    Sane(s) && BlockedOk(s) && forall p {:trigger ListOk(s, p)} :: 0 <= p < MAX_PRIORITY ==> ListOk(s, p)
  }

  lemma Runs(s: State, t: Id)
    requires Inv(s) && t in s.info
    ensures s.info[t].Runnable() <==> t in s.ready[s.info[t].priority]
    ensures forall p :: 0 <= p < MAX_PRIORITY && t in s.ready[p] ==> s.info[t].Runnable() && s.info[t].priority == p
  {
    assert ListOk(s, s.info[t].priority);
    forall p | 0 <= p < MAX_PRIORITY && t in s.ready[p]
      ensures s.info[t].Runnable() && s.info[t].priority == p
    {
      assert ListOk(s, p);
    }
  }

  predicate SamePlace(a: Task, b: Task) {
    a.Runnable() == b.Runnable() && (a.state == Blocked <==> b.state == Blocked) && a.priority == b.priority
  }

  /** Only the lists and the tasks' places matter to the invariant. */
  lemma SamePlaces(s: State, r: State)
    requires Inv(s) && Sane(r)
    requires r.ready == s.ready && r.blocked == s.blocked && r.info.Keys == s.info.Keys
    requires forall t :: t in s.info ==> SamePlace(r.info[t], s.info[t])
    ensures Inv(r)
  {
    forall p | 0 <= p < MAX_PRIORITY
      ensures ListOk(r, p)
    {
      assert ListOk(s, p);
    }
  }

  lemma AddTaskInv(s: State, t: Id)
    requires Inv(s) && t in s.info && !s.info[t].Runnable() && s.info[t].state != Blocked
    ensures Inv(AddTask(s, t))
  {
    var r := AddTask(s, t);
    forall p | 0 <= p < MAX_PRIORITY
      ensures ListOk(r, p)
    {
      assert ListOk(s, p);
      if p == s.info[t].priority {
        NoDupConcat(s.ready[p], [t]);
      }
    }
  }

  /**
   * Adding a task keeps the partition exactly when the task is in no list. Otherwise it is
   * then listed twice: in its ready list, or there and in the blocked list.
   */
  lemma AddTaskIff(s: State, t: Id)
    requires Inv(s) && t in s.info
    ensures Inv(AddTask(s, t)) <==> Idle(s.info[t])
    ensures s.info[t].Runnable() ==> multiset(AddTask(s, t).ready[s.info[t].priority])[t] >= 2
    ensures s.info[t].state == Blocked ==> t in AddTask(s, t).blocked && t in AddTask(s, t).ready[s.info[t].priority]
  {
    var p, r := s.info[t].priority, AddTask(s, t);
    assert ListOk(s, p);
    if Idle(s.info[t]) {
      AddTaskInv(s, t);
    } else if s.info[t].Runnable() {
      var i :| 0 <= i < |s.ready[p]| && s.ready[p][i] == t;
      var q := r.ready[p];
      assert q == s.ready[p] + [t] && q[i] == q[|q| - 1];
      assert multiset(s.ready[p])[t] >= 1;
      if Inv(r) {
        NotTwice(r, p, i, |q| - 1);
      }
    } else {
      assert r.info[t].state == Ready && t in r.blocked;
    }
  }

  lemma NotTwice(s: State, p: nat, i: nat, j: nat)
    requires Inv(s) && p < MAX_PRIORITY && i < j < |s.ready[p]|
    ensures s.ready[p][i] != s.ready[p][j]
  {
    assert ListOk(s, p);
  }

  lemma CreateInv(s: State, t: Id, p: Prio)
    requires Inv(s) && (t in s.info ==> Idle(s.info[t]))
    ensures Inv(Create(s, t, p))
  {
    var idle := s.(info := s.info[t := NewTask(p).(state := Deleted)]);
    forall q | 0 <= q < MAX_PRIORITY
      ensures ListOk(idle, q)
    {
      assert ListOk(s, q);
    }
    AddTaskInv(idle, t);
    CreateSplit(s, t, p);
    hide AddTask, ListOk;
  }

  /** Creation writes a record of a task in no list and adds the task. */
  lemma CreateSplit(s: State, t: Id, p: Prio)
    requires Sane(s) && (t in s.info ==> Idle(s.info[t]))
    ensures Create(s, t, p) == AddTask(s.(info := s.info[t := NewTask(p).(state := Deleted)]), t)
  {
    var idle := s.(info := s.info[t := NewTask(p).(state := Deleted)]);
    assert Create(s, t, p).info == AddTask(idle, t).info;
  }

  /** Taking a task that is not blocked off its list. */
  lemma RetireInv(s: State, t: Id, state: TaskState)
    requires Inv(s) && t in s.info && s.info[t].state != Blocked
    requires state == Suspended || state == Deleted
    ensures Inv(Retire(s, t, state))
  {
    var r := Retire(s, t, state);
    forall p | 0 <= p < MAX_PRIORITY
      ensures ListOk(r, p)
    {
      assert ListOk(s, p);
      SelectNoDup(s.ready[p], {t});
    }
  }

  /** Changing a listed task's priority is retiring it, re-ranking it and adding it back. */
  lemma SetPrioritySplit(s: State, t: Id, p: Prio)
    requires Sane(s) && t in s.info && s.info[t].Runnable()
    ensures var r := Retire(s, t, Deleted);
            SetPriority(s, t, p) == AddTask(r.(info := r.info[t := r.info[t].(priority := p)]), t)
  {
    var r := Retire(s, t, Deleted);
    var a := AddTask(r.(info := r.info[t := r.info[t].(priority := p)]), t);
    assert SetPriority(s, t, p).info == a.info;
  }

  lemma RerankInv(s: State, t: Id, p: Prio)
    requires Inv(s) && t in s.info && !s.info[t].Runnable()
    ensures Inv(s.(info := s.info[t := s.info[t].(priority := p)]))
  {
    var r := s.(info := s.info[t := s.info[t].(priority := p)]);
    forall q | 0 <= q < MAX_PRIORITY
      ensures ListOk(r, q)
    {
      assert ListOk(s, q);
    }
  }

  lemma SetPriorityInv(s: State, t: Id, p: Prio)
    requires Inv(s) && t in s.info
    ensures Inv(SetPriority(s, t, p))
  {
    if s.info[t].Runnable() {
      var r := Retire(s, t, Deleted);
      RetireInv(s, t, Deleted);
      RerankInv(r, t, p);
      AddTaskInv(r.(info := r.info[t := r.info[t].(priority := p)]), t);
      SetPrioritySplit(s, t, p);
    } else {
      RerankInv(s, t, p);
    }
  }

  lemma RotateNoDup(q: seq<Id>)
    requires NoDup(q) && |q| > 0
    ensures NoDup(q[1..] + [q[0]])
    ensures forall x :: x in q[1..] + [q[0]] <==> x in q
  {
    assert q == [q[0]] + q[1..];
    NoDupConcat(q[1..], [q[0]]);
  }

  lemma YieldInv(s: State)
    requires Inv(s)
    ensures Inv(Yield(s))
  {
    var r := Yield(s);
    forall p | 0 <= p < MAX_PRIORITY
      ensures ListOk(r, p)
    {
      assert ListOk(s, p);
      if |s.ready[p]| > 0 {
        RotateNoDup(s.ready[p]);
      }
    }
  }

  lemma BlockInv(s: State, reason: Reason, obj: nat, timeout: U32)
    requires Inv(s)
    requires s.current.Some? ==> s.info[s.current.value].state != Blocked
    ensures Inv(Block(s, reason, obj, timeout))
  {
    if s.current.Some? {
      var c, r := s.current.value, Block(s, reason, obj, timeout);
      NoDupConcat([c], s.blocked);
      forall p | 0 <= p < MAX_PRIORITY
        ensures ListOk(r, p)
      {
        assert ListOk(s, p);
        SelectNoDup(s.ready[p], {c});
      }
    }
  }

  lemma WakeInv(s: State, w: set<Id>, how: Wakeup)
    requires Inv(s) && forall t :: t in w ==> t in s.blocked
    ensures Inv(Wake(s, w, how))
  {
    var r := Wake(s, w, how);
    SelectNoDup(s.blocked, w);
    forall p | 0 <= p < MAX_PRIORITY
      ensures ListOk(r, p)
    {
      assert ListOk(s, p);
      var k := Keep(s.blocked, WithPriority(s.info, w, p));
      SelectNoDup(s.blocked, WithPriority(s.info, w, p));
      NoDupConcat(s.ready[p], k);
      assert r.ready[p] == s.ready[p] + k;
    }
  }

  lemma PendingInv(s: State, r: State)
    requires Inv(s) && r == s.(pending := true)
    ensures Inv(r)
  {
    SamePlaces(s, r);
  }

  lemma UnblockTaskInv(s: State, t: Id, code: Code)
    requires Inv(s) && t in s.info
    ensures Inv(UnblockTask(s, t, code))
  {
    if s.info[t].state == Blocked {
      var r := Wake(s, {t}, Answer(code));
      WakeInv(s, {t}, Answer(code));
      PendingInv(r, r.(pending := true));
    }
  }

  lemma UnblockOneInv(s: State, reason: Reason, obj: nat, code: Code)
    requires Inv(s)
    ensures Inv(UnblockOne(s, reason, obj, code))
  {
    var b := Best(s.info, s.blocked, reason, obj);
    if b.Some? {
      UnblockTaskInv(s, b.value, code);
    }
  }

  lemma UnblockAllInv(s: State, reason: Reason, obj: nat, code: Code)
    requires Inv(s)
    ensures Inv(UnblockAll(s, reason, obj, code))
  {
    var w := Waiters(s, reason, obj);
    var r := Wake(s, w, Answer(code));
    WakeInv(s, w, Answer(code));
    PendingInv(r, r.(pending := true));
  }

  lemma ExpireInv(s: State)
    requires Inv(s)
    ensures Inv(Expire(s))
  {
    var s1 := s.(tick := (s.tick + 1) % TWO32);
    SamePlaces(s, s1);
    WakeInv(s1, DueSet(s1), Expired);
    assert Expire(s) == Wake(s1, DueSet(s1), Expired);
  }

  lemma ChargeSliceInv(s: State)
    requires Inv(s)
    ensures Inv(ChargeSlice(s))
  {
    if s.current.Some? {
      var c := s.current.value;
      var s1 := s.(info := s.info[c := s.info[c].(slice := TIME_SLICE)]);
      SamePlaces(s, s1);
      YieldInv(s1);
      var left := if s.info[c].slice > 0 then s.info[c].slice - 1 else 0;
      SamePlaces(s, s.(info := s.info[c := s.info[c].(slice := left)]));
    }
  }

  lemma TickInv(s: State)
    requires Inv(s)
    ensures Inv(Tick(s))
  {
    ExpireInv(s);
    ChargeSliceInv(Expire(s));
    var r := ChargeSlice(Expire(s));
    PendingInv(r, r.(pending := true));
  }

  /** The head of the highest list, when there is one, is a known runnable task. */
  lemma NextKnown(s: State)
    requires Inv(s) && GetNext(s).Some?
    ensures GetNext(s).value in s.info && s.info[GetNext(s).value].Runnable()
    ensures s.info[GetNext(s).value].priority == Highest(s)
  {
    assert ListOk(s, Highest(s));
    assert s.ready[Highest(s)][0] in s.ready[Highest(s)];
  }

  lemma PendSVInv(s: State)
    requires Inv(s)
    ensures Inv(PendSV(s))
  {
    if GetNext(s).Some? {
      NextKnown(s);
    }
    SamePlaces(s, PendSV(s));
  }

  lemma LockInv(s: State)
    requires Inv(s)
    ensures Inv(Lock(s)) && Inv(Unlock(s))
  {
    SamePlaces(s, Lock(s));
    SamePlaces(s, Unlock(s));
  }

  lemma ResumeSplit(s: State, t: Id)
    requires Sane(s) && t in s.info && s.info[t].state == Suspended
    ensures Resume(s, t) == AddTask(s.(info := s.info[t := s.info[t].(state := Ready)]), t)
  {
    assert Resume(s, t).info == AddTask(s.(info := s.info[t := s.info[t].(state := Ready)]), t).info;
  }

  lemma ResumeInv(s: State, t: Id)
    requires Inv(s) && t in s.info
    ensures Inv(Resume(s, t))
  {
    if s.info[t].state == Suspended {
      AddTaskInv(s, t);
    }
  }

  lemma StartInv(s: State)
    requires Inv(s)
    ensures GetNext(s).Some? ==> GetNext(s).value in s.info
    ensures Inv(Start(s))
  {
    if GetNext(s).Some? {
      NextKnown(s);
      SamePlaces(s, Start(s));
    }
  }

  lemma ExpectInv(s: State, bits: U32, all: bool)
    requires Inv(s)
    ensures Inv(Expect(s, bits, all))
  {
    SamePlaces(s, Expect(s, bits, all));
  }

  lemma InitialInv()
    ensures Inv(Initial())
  {
  }
}
