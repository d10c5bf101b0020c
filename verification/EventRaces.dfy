/** Runs of an event group that go wrong: what the conditions of EventRuns are there to exclude. */
module EventRaces {
  import opened Types
  import opened Words
  import opened SchedSpec
  import opened SchedInv
  import opened SchedRuns
  import opened TaskLaws
  import opened Waiting
  import opened EventRuns

  /** The argument that asks for the bits keep and for their consumption. */
  function Consuming(keep: U32): U32 {
    OrWord(keep, CLEAR_ON_EXIT)
  }

  lemma ConsumingIs(keep: U32, flags: U32)
    requires 31 !in BitSet(keep) && BitSet(keep) != {} && BitSet(keep) <= BitSet(flags)
    ensures Clears(Consuming(keep)) && Wanted(Consuming(keep)) == keep
    ensures AndWord(flags, keep) == keep && Match(flags, keep, false)
  {
    TopBit();
    OrSet(keep, CLEAR_ON_EXIT);
    RawSplits(Consuming(keep));
    MatchIs(flags, keep, false);
    AndSet(flags, keep);
    hide BitSet, Match;
    assert BitSet(Wanted(Consuming(keep))) == BitSet(keep);
    SameSet(Wanted(Consuming(keep)), keep);
    assert BitSet(flags) * BitSet(keep) == BitSet(keep);
    SameSet(AndWord(flags, keep), keep);
    assert BitSet(keep) * BitSet(flags) == BitSet(keep);
  }

  /** A consuming test of bits that are all set takes exactly them out. */
  lemma Consume(obj: nat, q: Sys, keep: U32)
    requires Inv(q.s) && 31 !in BitSet(keep) && BitSet(keep) != {} && BitSet(keep) <= BitSet(q.flags)
    ensures EEnabled(q, Test(Consuming(keep), false))
    ensures ENext(obj, q, Test(Consuming(keep), false)) ==
            q.(flags := AndNotWord(q.flags, keep), used := q.used + [keep])
  {
    ConsumingIs(keep, q.flags);
    hide Inv, Wanted, Match, Clears;
  }

  /** Both masks set, a clear of gone under way, keep consumed, the clear done, keep consumed again. */
  function StaleClear(who: nat, keep: U32, gone: U32): seq<EStep> {
    [Set(OrWord(keep, gone)), ClearLoad(who), Test(Consuming(keep), false), ClearStore(who, gone),
     Test(Consuming(keep), false)]
  }

  /** One set pays for two consumptions: event_clear brings back the bits consumed while it was under way. */
  lemma StaleClearSpendsTwice(obj: nat, s: State, who: nat, keep: U32, gone: U32, i: nat)
    requires Inv(s) && 31 !in BitSet(keep) && BitSet(keep) !! BitSet(gone) && i in BitSet(keep)
    ensures ERun(obj, Fresh(s), StaleClear(who, keep, gone))
    ensures var r := EAfter(obj, Fresh(s), StaleClear(who, keep, gone));
            Holding(r.used, i) == 2 && Holding(r.sets, i) == 1 && !Paid(r, i)
  {
    var both, steps := OrWord(keep, gone), StaleClear(who, keep, gone);
    OrSet(keep, gone);
    OrZero(both);
    AndNotSet(both, gone);
    AndNotSet(both, keep);
    var q0 := Fresh(s);
    var q1 := ENext(obj, q0, steps[0]);
    var q2 := ENext(obj, q1, steps[1]);
    assert q2.flags == both && q2.loads == map[who := both] && q2.sets == [both] && q2.used == [];
    Consume(obj, q2, keep);
    var q3 := ENext(obj, q2, steps[2]);
    var q4 := ENext(obj, q3, steps[3]);
    assert q4.flags == AndNotWord(both, gone) && q4.sets == [both] && q4.used == [keep];
    hide Inv, BitSet, ENext;
    Consume(obj, q4, keep);
    var q5 := ENext(obj, q4, steps[4]);
    Trace(obj, steps, [q0, q1, q2, q3, q4, q5]);
    assert q5.used == [keep] + [keep] && q5.sets == [] + [both] && [] + [keep] == [keep];
    HoldingNext([keep], keep, i);
    HoldingNext([], keep, i);
    HoldingNext([], both, i);
  }

  /** An unsuccessful test, and one that asks for no consumption, changes nothing. */
  lemma IdleTest(obj: nat, q: Sys, bits: U32)
    requires Inv(q.s) && 31 !in BitSet(bits)
    ensures EEnabled(q, Test(bits, false)) && ENext(obj, q, Test(bits, false)) == q
  {
    RawSplits(bits);
  }

  /** The current task notes a condition and blocks for it. */
  lemma Sleeps(obj: nat, s: State, bits: U32) returns (e: State, b: State)
    requires Inv(s) && s.current.Some? && s.info[s.current.value].state != Blocked
    ensures Enabled(s, DoExpect(bits, false)) && e == Next(s, DoExpect(bits, false))
    ensures e.current == s.current && s.current.value in e.info && e.info[s.current.value].waitBits == bits
    ensures !e.info[s.current.value].waitAll
    ensures Enabled(e, DoBlock(Event, obj, TIMEOUT_FOREVER)) && b == Next(e, DoBlock(Event, obj, TIMEOUT_FOREVER))
    ensures s.current.value in Waiters(b, Event, obj) && s.current.value in b.info
    ensures b.info[s.current.value].waitBits == bits && !b.info[s.current.value].waitAll
  {
    var c := s.current.value;
    e := Next(s, DoExpect(bits, false));
    StepCore(s, DoExpect(bits, false), c);
    b := Next(e, DoBlock(Event, obj, TIMEOUT_FOREVER));
    StepCore(e, DoBlock(Event, obj, TIMEOUT_FOREVER), c);
    WaitersAre(b, Event, obj);
    hide Inv, Next, Waiters;
  }

  /** As StaleClear, but instead of consuming keep again a task blocks for it before the clear is done. */
  function StaleClearBlock(obj: nat, who: nat, keep: U32, gone: U32): seq<EStep> {
    [Set(OrWord(keep, gone)), ClearLoad(who), Test(Consuming(keep), false), Test(keep, false),
     Kernel(DoExpect(keep, false)), Kernel(DoBlock(Event, obj, TIMEOUT_FOREVER)), ClearStore(who, gone)]
  }

  /** Then the task sleeps although its condition is met, and no set will come to tell it. */
  lemma StaleClearStrands(obj: nat, s: State, who: nat, keep: U32, gone: U32)
    requires Inv(s) && s.current.Some? && s.info[s.current.value].state != Blocked
    requires 31 !in BitSet(keep) && BitSet(keep) != {} && BitSet(keep) !! BitSet(gone)
    requires Waiters(s, Event, obj) == {}
    ensures ERun(obj, Fresh(s), StaleClearBlock(obj, who, keep, gone))
    ensures !NoneMet(obj, EAfter(obj, Fresh(s), StaleClearBlock(obj, who, keep, gone)))
  {
    var both, steps := OrWord(keep, gone), StaleClearBlock(obj, who, keep, gone);
    OrSet(keep, gone);
    OrZero(both);
    AndNotSet(both, gone);
    var e, b := Sleeps(obj, s, keep);
    var q0 := Fresh(s);
    var q1 := ENext(obj, q0, steps[0]);
    assert q1 == Sys(s, both, [both], [], map[]);
    var q2 := ENext(obj, q1, steps[1]);
    hide Inv, BitSet;
    Consume(obj, q2, keep);
    var q3 := ENext(obj, q2, steps[2]);
    IdleTest(obj, q3, keep);
    var q5 := ENext(obj, q3, steps[4]);
    var q6 := ENext(obj, q5, steps[5]);
    var q7 := ENext(obj, q6, steps[6]);
    assert q7.s == b && q7.flags == AndNotWord(both, gone);
    ConsumingIs(keep, q7.flags);
    hide ENext;
    Trace(obj, steps, [q0, q1, q2, q3, q3, q5, q6, q7]);
    assert !Unmet(q7, s.current.value);
  }

  /** A lost wake-up: a wait finds its bits clear, they are set, and only then it blocks. */
  lemma LostSet(obj: nat, s: State, bits: U32)
    requires Inv(s) && s.current.Some? && s.info[s.current.value].state != Blocked
    requires 31 !in BitSet(bits) && BitSet(bits) != {} && Waiters(s, Event, obj) == {}
    ensures var steps := [Kernel(DoExpect(bits, false)), Test(bits, false), Set(bits),
                          Kernel(DoBlock(Event, obj, TIMEOUT_FOREVER))];
            ERun(obj, Fresh(s), steps) && !NoneMet(obj, EAfter(obj, Fresh(s), steps))
  {
    var steps := [Kernel(DoExpect(bits, false)), Test(bits, false), Set(bits),
                  Kernel(DoBlock(Event, obj, TIMEOUT_FOREVER))];
    var e, b := Sleeps(obj, s, bits);
    StepWaiters(s, DoExpect(bits, false), Event, obj);
    OrZero(bits);
    var q0 := Fresh(s);
    var q1 := ENext(obj, q0, steps[0]);
    IdleTest(obj, q1, bits);
    var q3 := ENext(obj, q1, steps[2]);
    assert q3.s == e && q3.flags == bits;
    hide Inv, BitSet;
    var q4 := ENext(obj, q3, steps[3]);
    assert q4.s == b && q4.flags == bits;
    ConsumingIs(bits, bits);
    hide ENext;
    Trace(obj, steps, [q0, q1, q1, q3, q4]);
    assert !Unmet(q4, s.current.value);
  }

  lemma OrZero(w: U32)
    ensures OrWord(0, w) == w
  {
    NoBits();
    OrSet(0, w);
    assert BitSet(0) + BitSet(w) == BitSet(w);
    SameSet(OrWord(0, w), w);
  }
}
