/** kernel/sync/event.c, joined to the scheduler. */
module Events {
  import opened Types
  import opened Words
  import opened SchedSpec
  import K = Scheduler
  import ER = EventRuns

  /** A wait returns the bits it matched, or 0; or its task sleeps and passes again when woken with OK. */
  datatype Pass = Returned(bits: U32) | Sleeps

  class EventGroup {
    const obj: nat
    var flags: U32

    /** event_init */
    constructor (obj: nat)
      ensures this.obj == obj && flags == 0
    {
      this.obj, flags := obj, 0;
    }

    /** event_set: raise flags, and wake every waiter to test for itself. */
    method Set(k: K.Sched, bits: U32)
      requires k.Valid()
      modifies this`flags, k, k.readyList, k.pool
      ensures k.Valid() && BitSet(flags) == BitSet(old(flags)) + BitSet(bits)
      ensures flags == OrWord(old(flags), bits) && k.abs == UnblockAll(old(k.abs), Event, obj, Code.Ok)
    {
      OrSet(flags, bits);
      flags := OrWord(flags, bits);
      var _ := k.UnblockAll(Event, obj, Code.Ok);
    }

    /** The read of event_clear. */
    method ClearLoad() returns (seen: U32)
      ensures seen == flags
    {
      seen := flags;
    }

    /** Its write, of what the read saw: bits that came or went in between are overwritten. */
    method ClearStore(seen: U32, bits: U32)
      modifies this`flags
      ensures flags == AndNotWord(seen, bits) && BitSet(flags) == BitSet(seen) - BitSet(bits)
    {
      AndNotSet(seen, bits);
      flags := AndNotWord(seen, bits);
    }

    /** event_clear with nothing between its read and its write. */
    method Clear(bits: U32)
      modifies this`flags
      ensures flags == AndNotWord(old(flags), bits) && BitSet(flags) == BitSet(old(flags)) - BitSet(bits)
    {
      var seen := ClearLoad();
      ClearStore(seen, bits);
    }

    /** The test part of event_wait: the matched bits, taken out when the caller asks for it. */
    method Test(raw: U32, all: bool) returns (ok: bool, matched: U32)
      modifies this`flags
      ensures ok == ER.Match(old(flags), ER.Wanted(raw), all) && matched == AndWord(old(flags), ER.Wanted(raw))
      ensures flags == if ok && ER.Clears(raw) then AndNotWord(old(flags), matched) else old(flags)
      ensures ok && all ==> matched == ER.Wanted(raw)
      ensures ok && !all ==> matched != 0
      ensures ok && ER.Clears(raw) ==> BitSet(flags) !! BitSet(matched)
    {
      var bits := ER.Wanted(raw);
      matched := AndWord(flags, bits);
      ok := ER.Match(flags, bits, all);
      if ok && ER.Clears(raw) {
        AndNotSet(flags, matched);
        flags := AndNotWord(flags, matched);
      }
    }

    /** One pass through the loop of event_wait. */
    method RetryPass(k: K.Sched, raw: U32, all: bool, timeout: U32) returns (pass: Pass)
      requires k.Valid() && k.current != null && k.current.state != Blocked
      modifies this`flags, k, k.readyList, k.pool
      ensures k.Valid()
      ensures var ok, matched := ER.Match(old(flags), ER.Wanted(raw), all), AndWord(old(flags), ER.Wanted(raw));
              && pass == (if ok || timeout == TIMEOUT_NONE then Returned(ER.Value(old(flags), raw, all)) else Sleeps)
              && flags == if ok && ER.Clears(raw) then AndNotWord(old(flags), matched) else old(flags)
      ensures k.abs == if pass == Sleeps then Block(old(k.abs), Event, obj, timeout) else old(k.abs)
    {
      var ok, matched := Test(raw, all);
      if ok {
        return Returned(matched);
      }
      if timeout == TIMEOUT_NONE {
        return Returned(0);
      }
      var _ := k.Block(Event, obj, timeout);
      pass := Sleeps;
    }

    /** event_wait up to its first sleep: check the arguments, note the condition, make one pass. */
    method WaitPass(k: K.Sched, raw: U32, all: bool, timeout: U32, isr: bool) returns (pass: Pass)
      requires k.Valid() && (k.current != null ==> k.current.state != Blocked)
      modifies this`flags, k, k.readyList, k.pool
      ensures k.Valid()
      ensures raw == 0 || isr || old(k.current) == null ==>
                pass == Returned(0) && flags == old(flags) && k.abs == old(k.abs)
      ensures raw != 0 && !isr && old(k.current) != null ==>
                var ok, matched := ER.Match(old(flags), ER.Wanted(raw), all), AndWord(old(flags), ER.Wanted(raw));
                var noted := Expect(old(k.abs), ER.Wanted(raw), all);
                && pass == (if ok || timeout == TIMEOUT_NONE then Returned(ER.Value(old(flags), raw, all)) else Sleeps)
                && flags == (if ok && ER.Clears(raw) then AndNotWord(old(flags), matched) else old(flags))
                && k.abs == if pass == Sleeps then Block(noted, Event, obj, timeout) else noted
    {
      if raw == 0 || isr || k.current == null {
        return Returned(0);
      }
      k.Expect(ER.Wanted(raw), all);
      pass := RetryPass(k, raw, all, timeout);
    }
  }
}
