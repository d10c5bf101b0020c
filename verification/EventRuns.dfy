/** An event group together with the scheduler, over whole interleaved runs. */
module EventRuns {
  import opened Types
  import opened Words
  import opened SchedSpec
  import opened SchedInv
  import opened SchedRuns
  import opened TaskLaws
  import opened Waiting

  const CLEAR_ON_EXIT: U32 := 0x8000_0000

  /** event_match */
  predicate Match(flags: U32, bits: U32, all: bool) {
    if all then AndWord(flags, bits) == bits else AndWord(flags, bits) != 0
  }

  /** The bits a caller really waits for: the top bit of the argument is an option. */
  function Wanted(raw: U32): U32 {
    AndNotWord(raw, CLEAR_ON_EXIT)
  }

  predicate Clears(raw: U32) {
    AndWord(raw, CLEAR_ON_EXIT) != 0
  }

  // ---- The test, bit by bit ----

  /** event_match asks for every wanted bit, or for one of them. */
  lemma MatchIs(flags: U32, bits: U32, all: bool)
    ensures Match(flags, bits, all) <==>
            if all then BitSet(bits) <= BitSet(flags) else BitSet(bits) * BitSet(flags) != {}
  {
    AndSet(flags, bits);
    ZeroSet(AndWord(flags, bits));
    if BitSet(bits) <= BitSet(flags) {
      assert BitSet(flags) * BitSet(bits) == BitSet(bits);
      SameSet(AndWord(flags, bits), bits);
    }
  }

  /** Taking flags away satisfies nobody. */
  lemma MatchShrinks(less: U32, flags: U32, bits: U32, all: bool)
    requires BitSet(less) <= BitSet(flags) && Match(less, bits, all)
    ensures Match(flags, bits, all)
  {
    MatchIs(less, bits, all);
    MatchIs(flags, bits, all);
    hide Match, BitSet;
  }

  lemma TopBit()
    ensures BitSet(CLEAR_ON_EXIT) == {31}
  {
    Width();
    assert Mask(32) == 2 * Mask(31);
    forall i: nat
      ensures Bit(CLEAR_ON_EXIT, i) <==> i == 31
    {
      MaskBit(31, i);
    }
  }

  /** The option bit is never waited for, and asks for consumption. */
  lemma RawSplits(raw: U32)
    ensures BitSet(Wanted(raw)) == BitSet(raw) - {31}
    ensures Clears(raw) <==> 31 in BitSet(raw)
  {
    TopBit();
    AndNotSet(raw, CLEAR_ON_EXIT);
    AndSet(raw, CLEAR_ON_EXIT);
    ZeroSet(AndWord(raw, CLEAR_ON_EXIT));
    hide BitSet;
    assert 31 in BitSet(raw) ==> 31 in BitSet(raw) * BitSet(CLEAR_ON_EXIT);
    assert forall i: nat :: i in BitSet(raw) * {31} ==> i == 31 && i in BitSet(raw);
  }

  /** What event_wait returns when a pass ends it: the matched bits, or 0 when its test fails. */
  function Value(flags: U32, raw: U32, all: bool): U32 {
    if Match(flags, Wanted(raw), all) then AndWord(flags, Wanted(raw)) else 0
  }

  /**
   * A wait for all bits returns the whole mask or 0; and 0 also for a success when nothing
   * but the option bit was asked for. A wait for any bit returns 0 only when it fails.
   */
  lemma ValueIs(flags: U32, raw: U32, all: bool)
    ensures BitSet(Value(flags, raw, all)) ==
            if all then (if BitSet(raw) - {31} <= BitSet(flags) then BitSet(raw) - {31} else {})
            else BitSet(raw) * BitSet(flags) - {31}
    ensures Value(flags, raw, all) == 0 <==> !Match(flags, Wanted(raw), all) || BitSet(raw) <= {31}
  {
    RawSplits(raw);
    MatchIs(flags, Wanted(raw), all);
    AndSet(flags, Wanted(raw));
    ZeroSet(Value(flags, raw, all));
    NoBits();
    hide BitSet, Wanted, Match;
    if all && Match(flags, Wanted(raw), all) {
      assert BitSet(flags) * BitSet(Wanted(raw)) == BitSet(raw) - {31};
    }
    if !all {
      assert BitSet(flags) * BitSet(Wanted(raw)) == BitSet(raw) * BitSet(flags) - {31};
    }
  }

  // ---- Runs ----

  /**
   * Kernel state and flags, with the masks of all sets and of all clear-on-exit consumptions
   * so far, and what each event_clear under way has read of the flags.
   */
  datatype Sys = Sys(s: State, flags: U32, sets: seq<U32>, used: seq<U32>, loads: map<nat, U32>)

  /**
   * Set, and the test part of a wait for the bits raw, are critical sections. event_clear has
   * none: it reads the flags, and writes them back without the bits in a step of its own.
   */
  datatype EStep =
    | Kernel(step: Step)
    | Set(bits: U32)
    | ClearLoad(caller: nat)
    | ClearStore(caller: nat, bits: U32)
    | Test(raw: U32, all: bool)

  ghost predicate EEnabled(q: Sys, step: EStep)
    requires Inv(q.s)
  {
    match step
    case Kernel(st) => Enabled(q.s, st)
    case ClearStore(caller, _) => caller in q.loads
    case _ => true
  }

  ghost function ENext(obj: nat, q: Sys, step: EStep): (r: Sys)
    requires Inv(q.s) && EEnabled(q, step)
    ensures Inv(r.s)
  {
    UnblockAllInv(q.s, Event, obj, Ok);
    match step
    case Kernel(st) => q.(s := Next(q.s, st))
    case Set(bits) =>
      q.(s := UnblockAll(q.s, Event, obj, Ok), flags := OrWord(q.flags, bits), sets := q.sets + [bits])
    case ClearLoad(caller) => q.(loads := q.loads[caller := q.flags])
    case ClearStore(caller, bits) => q.(flags := AndNotWord(q.loads[caller], bits), loads := q.loads - {caller})
    case Test(raw, all) =>
      var matched := AndWord(q.flags, Wanted(raw));
      if Match(q.flags, Wanted(raw), all) && Clears(raw) then
        q.(flags := AndNotWord(q.flags, matched), used := q.used + [matched])
      else q
  }

  ghost predicate ERun(obj: nat, q: Sys, steps: seq<EStep>)
    requires Inv(q.s)
    decreases |steps|
  {
    steps == [] || (EEnabled(q, steps[0]) && ERun(obj, ENext(obj, q, steps[0]), steps[1..]))
  }

  ghost function EAfter(obj: nat, q: Sys, steps: seq<EStep>): (r: Sys)
    requires Inv(q.s) && ERun(obj, q, steps)
    ensures Inv(r.s)
    decreases |steps|
  {
    if steps == [] then q else EAfter(obj, ENext(obj, q, steps[0]), steps[1..])
  }

  /** x is enabled in q and leads to r. */
  ghost predicate Leads(obj: nat, q: Sys, x: EStep, r: Sys) {
    Inv(q.s) && EEnabled(q, x) && r == ENext(obj, q, x)
  }

  /** The states that a run goes through. */
  lemma {:induction false} Trace(obj: nat, steps: seq<EStep>, qs: seq<Sys>)
    requires |qs| == |steps| + 1 && Inv(qs[0].s)
    requires forall i :: 0 <= i < |steps| ==> Leads(obj, qs[i], steps[i], qs[i + 1])
    ensures ERun(obj, qs[0], steps) && EAfter(obj, qs[0], steps) == qs[|steps|]
    decreases |steps|
  {
    if steps != [] {
      assert Leads(obj, qs[0], steps[0], qs[1]);
      forall i | 0 <= i < |steps| - 1
        ensures Leads(obj, qs[1..][i], steps[1..][i], qs[1..][i + 1])
      {
        assert Leads(obj, qs[i + 1], steps[i + 1], qs[i + 2]);
      }
      hide Inv, ENext, EEnabled;
      Trace(obj, steps[1..], qs[1..]);
    }
  }

  // ---- The ledger of one flag bit ----

  /** How many of the masks hold bit i. */
  ghost function Holding(log: seq<U32>, i: nat): nat {
    if log == [] then 0 else Holding(log[..|log| - 1], i) + Low(i in BitSet(log[|log| - 1]))
  }

  lemma HoldingNext(log: seq<U32>, w: U32, i: nat)
    ensures Holding(log + [w], i) == Holding(log, i) + Low(i in BitSet(w))
  {
    assert (log + [w])[..|log|] == log;
  }

  /** Each consumption of the bit, and its being set now, is paid for by a set that held it. */
  ghost predicate Paid(q: Sys, i: nat) {
    Holding(q.used, i) + Low(i in BitSet(q.flags)) <= Holding(q.sets, i)
  }

  /**
   * The bits that the step raises without a set: those that event_clear read and keeps, but
   * that somebody has taken out of the flags in the meantime.
   */
  ghost function Revived(q: Sys, step: EStep): set<nat>
    requires Inv(q.s) && EEnabled(q, step)
  {
    match step
    case ClearStore(caller, bits) => BitSet(AndNotWord(q.loads[caller], bits)) - BitSet(q.flags)
    case _ => {}
  }

  /** Nothing is revived when the flags have not changed between the read and the write. */
  lemma SteadyStore(q: Sys, caller: nat, bits: U32)
    requires Inv(q.s) && caller in q.loads && q.loads[caller] == q.flags
    ensures Revived(q, ClearStore(caller, bits)) == {}
  {
    AndNotSet(q.flags, bits);
  }

  lemma StepPaid(obj: nat, q: Sys, step: EStep, i: nat)
    requires Inv(q.s) && EEnabled(q, step) && Paid(q, i) && i !in Revived(q, step)
    ensures Paid(ENext(obj, q, step), i)
  {
    hide Inv, Next, UnblockAll, BitSet, Match, Wanted, Clears, Holding;
    match step
    case Kernel(st) =>
    case Set(bits) =>
      OrSet(q.flags, bits);
      HoldingNext(q.sets, bits, i);
    case ClearLoad(_) =>
    case ClearStore(_, _) =>
    case Test(raw, all) =>
      var matched := AndWord(q.flags, Wanted(raw));
      AndSet(q.flags, Wanted(raw));
      AndNotSet(q.flags, matched);
      HoldingNext(q.used, matched, i);
  }

  /** The write of event_clear keeps the ledger of a bit it revives exactly when a set of it is still unspent. */
  lemma StorePaid(obj: nat, q: Sys, caller: nat, bits: U32, i: nat)
    requires Inv(q.s) && caller in q.loads && Paid(q, i)
    ensures Paid(ENext(obj, q, ClearStore(caller, bits)), i) <==>
            i !in Revived(q, ClearStore(caller, bits)) || Holding(q.used, i) < Holding(q.sets, i)
  {
    hide Inv, BitSet, Holding;
  }

  /** No step of the run revives bit i. */
  ghost predicate Steady(obj: nat, q: Sys, steps: seq<EStep>, i: nat)
    requires Inv(q.s) && ERun(obj, q, steps)
    decreases |steps|
  {
    steps == [] || (i !in Revived(q, steps[0]) && Steady(obj, ENext(obj, q, steps[0]), steps[1..], i))
  }

  /** Over any run that does not revive the bit, clear-on-exit consumptions never exceed the sets that held it. */
  lemma {:induction false} RunPaid(obj: nat, q: Sys, steps: seq<EStep>, i: nat)
    requires Inv(q.s) && ERun(obj, q, steps) && Steady(obj, q, steps, i) && Paid(q, i)
    ensures Paid(EAfter(obj, q, steps), i)
    decreases |steps|
  {
    hide Inv, ENext, EEnabled, Paid, Revived;
    if steps != [] {
      StepPaid(obj, q, steps[0], i);
      RunPaid(obj, ENext(obj, q, steps[0]), steps[1..], i);
    }
  }

  // ---- No waiter whose condition holds ----

  ghost predicate Unmet(q: Sys, t: Id) {
    t in q.s.info && !Match(q.flags, q.s.info[t].waitBits, q.s.info[t].waitAll)
  }

  /** Every task blocked on the group waits for a condition that the flags do not meet. */
  ghost predicate NoneMet(obj: nat, q: Sys)
    requires Inv(q.s)
  {
    forall t {:trigger Unmet(q, t)} :: t in Waiters(q.s, Event, obj) ==> Unmet(q, t)
  }

  /**
   * The step brings t a bit that t waits for and, if t waits for several, all the others are
   * there with it.
   */
  ghost predicate Brings(q: Sys, step: EStep, t: Id)
    requires Inv(q.s) && EEnabled(q, step)
  {
    match step
    case ClearStore(caller, bits) =>
      && t in q.s.info && BitSet(q.s.info[t].waitBits) * Revived(q, step) != {}
      && (q.s.info[t].waitAll ==> BitSet(q.s.info[t].waitBits) <= BitSet(q.loads[caller]) - BitSet(bits))
    case _ => false
  }

  /**
   * A task blocks on the group only while the condition it noted still fails, and no
   * event_clear writes back what a blocked task waits for.
   */
  ghost predicate Disciplined(obj: nat, q: Sys, step: EStep)
    requires Inv(q.s) && EEnabled(q, step)
  {
    match step
    case Kernel(DoBlock(reason, o, _)) =>
      reason == Event && o == obj && q.s.current.Some? ==> Unmet(q, q.s.current.value)
    case ClearStore(_, _) =>
      forall t {:trigger Brings(q, step, t)} :: t in Waiters(q.s, Event, obj) ==> !Brings(q, step, t)
    case _ => true
  }

  /** A blocked task's condition does not change. */
  lemma ConditionKept(s: State, step: Step, t: Id, obj: nat)
    requires Inv(s) && Enabled(s, step) && t in Waiters(Next(s, step), Event, obj)
    ensures t in s.info && t in Next(s, step).info
    ensures var a, b := s.info[t], Next(s, step).info[t]; a.waitBits == b.waitBits && a.waitAll == b.waitAll
  {
    WaiterSource(s, step, Event, obj, t);
    WaitersAre(s, Event, obj);
    WaitersAre(Next(s, step), Event, obj);
    assert t in s.info;
    StepCore(s, step, t);
    hide Inv, Next, Enabled, Waiters;
  }

  lemma KernelNoneMet(obj: nat, q: Sys, step: Step)
    requires Inv(q.s) && Enabled(q.s, step) && NoneMet(obj, q) && Disciplined(obj, q, Kernel(step))
    ensures NoneMet(obj, ENext(obj, q, Kernel(step)))
  {
    hide Inv, Next, Enabled, Match, Waiters;
    var r := ENext(obj, q, Kernel(step));
    forall t | t in Waiters(r.s, Event, obj)
      ensures Unmet(r, t)
    {
      WaiterSource(q.s, step, Event, obj, t);
      ConditionKept(q.s, step, t, obj);
      assert Unmet(q, t);
    }
  }

  lemma FlagsShrink(obj: nat, q: Sys, step: EStep)
    requires Inv(q.s) && EEnabled(q, step) && NoneMet(obj, q)
    requires step.ClearLoad? || step.Test?
    ensures NoneMet(obj, ENext(obj, q, step))
  {
    hide Inv, Waiters, Match, Wanted, Clears, BitSet;
    var r := ENext(obj, q, step);
    assert BitSet(r.flags) <= BitSet(q.flags) by {
      if step.Test? {
        AndNotSet(q.flags, AndWord(q.flags, Wanted(step.raw)));
      }
    }
    forall t | t in Waiters(r.s, Event, obj)
      ensures Unmet(r, t)
    {
      assert Unmet(q, t);
      if Match(r.flags, q.s.info[t].waitBits, q.s.info[t].waitAll) {
        MatchShrinks(r.flags, q.flags, q.s.info[t].waitBits, q.s.info[t].waitAll);
      }
    }
  }

  /** What event_clear writes meets a condition that was not met exactly when it brings the task what it waits for. */
  lemma StoreMeets(obj: nat, q: Sys, caller: nat, bits: U32, t: Id)
    requires Inv(q.s) && EEnabled(q, ClearStore(caller, bits)) && Unmet(q, t)
    ensures Unmet(ENext(obj, q, ClearStore(caller, bits)), t) <==> !Brings(q, ClearStore(caller, bits), t)
  {
    var a, r := q.s.info[t], ENext(obj, q, ClearStore(caller, bits));
    AndNotSet(q.loads[caller], bits);
    MatchIs(q.flags, a.waitBits, a.waitAll);
    MatchIs(r.flags, a.waitBits, a.waitAll);
    hide Inv, Match, BitSet;
    var wanted, had, has := BitSet(a.waitBits), BitSet(q.flags), BitSet(r.flags);
    assert has - had == Revived(q, ClearStore(caller, bits));
    if a.waitAll {
      assert wanted <= has && !(wanted <= had) ==> wanted * (has - had) != {} by {
        if wanted <= has && !(wanted <= had) {
          var i :| i in wanted && i !in had;
          assert i in wanted * (has - had);
        }
      }
    } else {
      SetsMeet(wanted, had, has);
    }
  }

  lemma SetsMeet(wanted: set<nat>, had: set<nat>, has: set<nat>)
    requires wanted * had == {}
    ensures wanted * has == {} <==> wanted * (has - had) == {}
  {
    if wanted * has != {} {
      var i :| i in wanted * has;
      assert i !in wanted * had;
      assert i in wanted * (has - had);
    }
    if wanted * (has - had) != {} {
      var i :| i in wanted * (has - had);
      assert i in wanted * has;
    }
  }

  /** The write of event_clear keeps the property exactly when it brings no blocked task what it waits for. */
  lemma StoreNoneMet(obj: nat, q: Sys, caller: nat, bits: U32)
    requires Inv(q.s) && EEnabled(q, ClearStore(caller, bits)) && NoneMet(obj, q)
    ensures NoneMet(obj, ENext(obj, q, ClearStore(caller, bits))) <==> Disciplined(obj, q, ClearStore(caller, bits))
  {
    var step := ClearStore(caller, bits);
    var r := ENext(obj, q, step);
    assert r.s == q.s;
    hide Inv, ENext, Waiters, Unmet, Brings;
    forall t | t in Waiters(q.s, Event, obj)
      ensures Unmet(r, t) <==> !Brings(q, step, t)
    {
      assert Unmet(q, t);
      StoreMeets(obj, q, caller, bits, t);
    }
  }

  lemma StepNoneMet(obj: nat, q: Sys, step: EStep)
    requires Inv(q.s) && EEnabled(q, step) && NoneMet(obj, q) && Disciplined(obj, q, step)
    ensures NoneMet(obj, ENext(obj, q, step))
  {
    match step
    case Kernel(st) => KernelNoneMet(obj, q, st);
    case Set(bits) => UnblockAllWaiters(q.s, Event, obj, Ok);
    case ClearLoad(_) => FlagsShrink(obj, q, step);
    case ClearStore(caller, bits) => StoreNoneMet(obj, q, caller, bits);
    case Test(_, _) => FlagsShrink(obj, q, step);
  }

  ghost predicate DisciplinedRun(obj: nat, q: Sys, steps: seq<EStep>)
    requires Inv(q.s) && ERun(obj, q, steps)
    decreases |steps|
  {
    steps == [] || (Disciplined(obj, q, steps[0]) && DisciplinedRun(obj, ENext(obj, q, steps[0]), steps[1..]))
  }

  lemma {:induction false} RunNoneMet(obj: nat, q: Sys, steps: seq<EStep>)
    requires Inv(q.s) && ERun(obj, q, steps) && DisciplinedRun(obj, q, steps) && NoneMet(obj, q)
    ensures NoneMet(obj, EAfter(obj, q, steps))
    decreases |steps|
  {
    hide Inv, ENext, EEnabled, NoneMet, Disciplined;
    if steps != [] {
      StepNoneMet(obj, q, steps[0]);
      RunNoneMet(obj, ENext(obj, q, steps[0]), steps[1..]);
    }
  }

  /** A group just initialised. */
  ghost function Fresh(s: State): Sys {
    Sys(s, 0, [], [], map[])
  }

  /** From event_init on, both results together. */
  lemma EventsSound(obj: nat, s: State, steps: seq<EStep>, i: nat)
    requires Inv(s) && Waiters(s, Event, obj) == {} && ERun(obj, Fresh(s), steps)
    ensures DisciplinedRun(obj, Fresh(s), steps) ==> NoneMet(obj, EAfter(obj, Fresh(s), steps))
    ensures Steady(obj, Fresh(s), steps, i) ==>
              Holding(EAfter(obj, Fresh(s), steps).used, i) <= Holding(EAfter(obj, Fresh(s), steps).sets, i)
  {
    NoBits();
    hide Inv, ENext, EEnabled, Disciplined, Waiters, BitSet;
    if DisciplinedRun(obj, Fresh(s), steps) {
      RunNoneMet(obj, Fresh(s), steps);
    }
    if Steady(obj, Fresh(s), steps, i) {
      RunPaid(obj, Fresh(s), steps, i);
    }
  }

  /** The block that follows a failed test keeps the property exactly when the test would still fail. */
  lemma WaiterBlocks(obj: nat, q: Sys, timeout: U32)
    requires Inv(q.s) && NoneMet(obj, q) && q.s.current.Some?
    requires Enabled(q.s, DoBlock(Event, obj, timeout))
    ensures NoneMet(obj, ENext(obj, q, Kernel(DoBlock(Event, obj, timeout)))) <==> Unmet(q, q.s.current.value)
  {
    var step := DoBlock(Event, obj, timeout);
    var c, r := q.s.current.value, ENext(obj, q, Kernel(step));
    StepCore(q.s, step, c);
    WaitersAre(r.s, Event, obj);
    hide Inv, Next, Enabled, Match, Waiters;
    assert c in Waiters(r.s, Event, obj);
    ConditionKept(q.s, step, c, obj);
    assert Unmet(r, c) <==> Unmet(q, c);
    if Unmet(q, c) {
      KernelNoneMet(obj, q, step);
    }
  }
}
