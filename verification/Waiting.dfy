/** The set of tasks blocked on one object for one reason, and what each step does to it. */
module Waiting {
  import opened Types
  import opened Seqs
  import opened SchedSpec
  import opened SchedInv
  import opened SchedRuns
  import opened TaskLaws
  import WakeLaws

  lemma WaitersAre(s: State, reason: Reason, obj: nat)
    requires Inv(s)
    ensures forall t :: t in Waiters(s, reason, obj) <==>
              t in s.info && s.info[t].state == Blocked && s.info[t].reason == reason && s.info[t].obj == obj
  {
  }

  /** A waiter was waiting before, or has just blocked. */
  lemma WaiterSource(s: State, step: Step, reason: Reason, obj: nat, t: Id)
    requires Inv(s) && Enabled(s, step) && t in Waiters(Next(s, step), reason, obj)
    ensures t in Waiters(s, reason, obj) ||
            (step.DoBlock? && step.reason == reason && step.obj == obj && s.current == Some(t))
  {
    hide Inv, Next, Waiters, CoreAfter, Fate, Enabled, WakeTick;
    WaitersAre(s, reason, obj);
    WaitersAre(Next(s, step), reason, obj);
    if t in s.info {
      StepCore(s, step, t);
      BlockedAfter(s, step, t);
    } else {
      Newcomer(s, step, t);
    }
  }

  /** Steps other than a block on this very object add no waiter. */
  lemma StepWaiters(s: State, step: Step, reason: Reason, obj: nat)
    requires Inv(s) && Enabled(s, step)
    ensures Waiters(Next(s, step), reason, obj) <=
            Waiters(s, reason, obj) +
            (if step.DoBlock? && step.reason == reason && step.obj == obj && s.current.Some? then
               {s.current.value} else {})
  {
    forall t | t in Waiters(Next(s, step), reason, obj)
      ensures t in Waiters(s, reason, obj) ||
              (step.DoBlock? && step.reason == reason && step.obj == obj && s.current == Some(t))
    {
      WaiterSource(s, step, reason, obj, t);
    }
  }

  /** A runnable task stays runnable unless it blocks, is retired or re-created. */
  lemma StepRunnable(s: State, step: Step, t: Id)
    requires Inv(s) && Enabled(s, step) && t in s.info && s.info[t].Runnable()
    requires !(step.DoBlock? && s.current == Some(t)) && !(step.DoRetire? && step.task == t)
    ensures t in Next(s, step).info && Next(s, step).info[t].Runnable()
  {
    StepCore(s, step, t);
    hide Inv, Enabled, Next;
  }

  /** Who unblock_one would pick, if anyone. */
  function Chosen(s: State, reason: Reason, obj: nat): Option<Id> {
    Best(s.info, s.blocked, reason, obj)
  }

  /** Somebody waits iff unblock_one has somebody to pick. */
  lemma ChosenIff(s: State, reason: Reason, obj: nat)
    requires Inv(s)
    ensures Chosen(s, reason, obj).None? <==> Waiters(s, reason, obj) == {}
    ensures Chosen(s, reason, obj).Some? ==> Chosen(s, reason, obj).value in Waiters(s, reason, obj)
  {
    var i := WakeLaws.BestIsFirstMinimal(s.info, s.blocked, reason, obj);
    hide Best, Inv;
    var b := Chosen(s, reason, obj);
    if b.Some? {
      assert b.value in Waiters(s, reason, obj);
    } else {
      assert forall t :: t in Waiters(s, reason, obj) ==> t in s.blocked && Waits(s.info, t, reason, obj);
    }
  }

  /**
   * unblock_one wakes the first of the highest-priority waiters, and leaves every other
   * waiter of this and of any other object waiting.
   */
  lemma UnblockOneWaiters(s: State, reason: Reason, obj: nat, code: Code)
    requires Inv(s)
    ensures Inv(UnblockOne(s, reason, obj, code))
    ensures var b, r := Chosen(s, reason, obj), UnblockOne(s, reason, obj, code);
            && (b.None? ==> r == s)
            && (b.Some? ==>
                  && Waiters(r, reason, obj) == Waiters(s, reason, obj) - {b.value}
                  && b.value in r.info && r.info[b.value].Runnable() && r.info[b.value].result == code
                  && (forall t :: t in Waiters(s, reason, obj) ==> s.info[b.value].priority <= s.info[t].priority))
            && (forall r2: Reason, o2: nat :: (r2 != reason || o2 != obj) ==> Waiters(r, r2, o2) == Waiters(s, r2, o2))
  {
    UnblockOneInv(s, reason, obj, code);
    ChosenIff(s, reason, obj);
    var b := Chosen(s, reason, obj);
    if b.Some? {
      var r := UnblockOne(s, reason, obj, code);
      OneWoken(s, reason, obj, code, b.value);
      var i := WakeLaws.BestIsFirstMinimal(s.info, s.blocked, reason, obj);
      forall t, r2: Reason, o2: nat
        ensures t in Waiters(r, r2, o2) <==> t in Waiters(s, r2, o2) && t != b.value
      {
        WaitersAre(s, r2, o2);
        WaitersAre(r, r2, o2);
        hide Inv, UnblockOne, Waiters;
      }
    }
  }

  lemma OneWoken(s: State, reason: Reason, obj: nat, code: Code, b: Id)
    requires Inv(s) && Chosen(s, reason, obj) == Some(b)
    ensures var r := UnblockOne(s, reason, obj, code);
            && r.info.Keys == s.info.Keys && b in s.info && s.info[b].state == Blocked
            && r.info[b] == Woken(s.info[b], Answer(code))
            && (forall t :: t in s.info && t != b ==> r.info[t] == s.info[t])
            && r.current == s.current && r.tick == s.tick
  {
    assert b in s.blocked;
    hide Keep, Drop, Highest;
  }

  /** unblock_all wakes every waiter of the object and nobody else. */
  lemma UnblockAllWaiters(s: State, reason: Reason, obj: nat, code: Code)
    requires Inv(s)
    ensures Inv(UnblockAll(s, reason, obj, code))
    ensures var r := UnblockAll(s, reason, obj, code);
            && Waiters(r, reason, obj) == {}
            && (forall r2: Reason, o2: nat :: (r2 != reason || o2 != obj) ==> Waiters(r, r2, o2) == Waiters(s, r2, o2))
  {
    UnblockAllInv(s, reason, obj, code);
    var r := UnblockAll(s, reason, obj, code);
    AllWoken(s, reason, obj, code);
    forall t, r2: Reason, o2: nat
      ensures t in Waiters(r, r2, o2) <==> t in Waiters(s, r2, o2) && (r2 != reason || o2 != obj)
    {
      WaitersAre(s, r2, o2);
      WaitersAre(r, r2, o2);
      WaitersAre(s, reason, obj);
      hide Inv, UnblockAll, Waiters;
    }
  }

  lemma AllWoken(s: State, reason: Reason, obj: nat, code: Code)
    requires Inv(s)
    ensures var r := UnblockAll(s, reason, obj, code);
            && r.info.Keys == s.info.Keys
            && (forall t :: t in s.info ==>
                  r.info[t] == if t in Waiters(s, reason, obj) then Woken(s.info[t], Answer(code)) else s.info[t])
            && r.current == s.current && r.tick == s.tick
  {
    hide Keep, Drop, Highest;
  }

  // ---- Tasks on their way back ----

  /** The task that a wake-up of one waiter sends on its way. */
  function Woke(s: State, reason: Reason, obj: nat): set<Id> {
    match Chosen(s, reason, obj)
    case None => {}
    case Some(b) => {b}
  }

  ghost predicate CanRun(s: State, due: set<Id>) {
    forall t :: t in due ==> t in s.info && s.info[t].Runnable()
  }

  lemma WokenRuns(s: State, reason: Reason, obj: nat, due: set<Id>)
    requires Inv(s) && CanRun(s, due)
    ensures Woke(s, reason, obj) !! due
    ensures CanRun(UnblockOne(s, reason, obj, Ok), due + Woke(s, reason, obj))
    ensures |Woke(s, reason, obj)| == if Waiters(s, reason, obj) == {} then 0 else 1
  {
    ChosenIff(s, reason, obj);
    if Chosen(s, reason, obj).Some? {
      OneWoken(s, reason, obj, Ok, Chosen(s, reason, obj).value);
    }
    hide Inv, UnblockOne;
  }

  lemma WokenOthers(s: State, reason: Reason, obj: nat, due: set<Id>)
    requires Inv(s) && CanRun(s, due)
    ensures CanRun(UnblockOne(s, reason, obj, Ok), due)
  {
    WokenRuns(s, reason, obj, due);
    hide UnblockOne, Inv;
  }

  lemma FewerCanRun(s: State, due: set<Id>, gone: set<Id>)
    requires CanRun(s, due)
    ensures CanRun(s, due - gone)
  {
  }

  // ---- Last come, first served ----

  /**
   * Among waiters of the same priority the one that blocked last is woken first: a task that
   * has just blocked is the next to be picked exactly when no other waiter outranks it.
   */
  lemma LatestFirst(s: State, reason: Reason, obj: nat, timeout: U32)
    requires Inv(s) && Enabled(s, DoBlock(reason, obj, timeout)) && s.current.Some?
    ensures var c := s.current.value;
            Chosen(Next(s, DoBlock(reason, obj, timeout)), reason, obj) == Some(c) <==>
            forall t :: t in Waiters(s, reason, obj) ==> s.info[c].priority <= s.info[t].priority
  {
    var c, step := s.current.value, DoBlock(reason, obj, timeout);
    var r := Next(s, step);
    hide Inv, Next;
    BlockedFront(s, reason, obj, timeout);
    ChosenIff(s, reason, obj);
    var i := WakeLaws.BestIsFirstMinimal(s.info, s.blocked, reason, obj);
    WakeLaws.BestAgree(s.info, r.info, s.blocked, reason, obj);
    assert r.blocked[1..] == s.blocked;
  }

  lemma BlockedFront(s: State, reason: Reason, obj: nat, timeout: U32)
    requires Inv(s) && Enabled(s, DoBlock(reason, obj, timeout)) && s.current.Some?
    ensures var c, r := s.current.value, Next(s, DoBlock(reason, obj, timeout));
            && r.blocked == [c] + s.blocked && c !in s.blocked
            && c in r.info && Waits(r.info, c, reason, obj) && r.info[c].priority == s.info[c].priority
            && forall t :: t in s.blocked ==> t in s.info && t in r.info && r.info[t] == s.info[t]
  {
    hide Drop;
  }
}
