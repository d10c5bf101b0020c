/**
 * The message queue together with the scheduler, over whole interleaved runs. A step is one
 * critical section: the test-and-copy part of a send or a receive, or any critical section
 * of the kernel, among them the block that follows a failed test.
 */
module QueueRuns {
  import opened Types
  import opened SchedSpec
  import opened SchedInv
  import opened SchedRuns
  import opened Waiting
  import R = Ring

  /** A queue's handle and capacity. */
  datatype Config = Config(obj: nat, cap: nat)

  /**
   * Kernel state, stored messages, accepted and delivered messages so far, and the tasks
   * that were woken from the queue with OK and have not retried yet. The last field says
   * that a queue_reset has emptied the queue and has still to wake the senders.
   */
  datatype Sys = Sys(
    s: State, msgs: seq<R.Msg>, sent: seq<R.Msg>, got: seq<R.Msg>,
    recvDue: set<Id>, sendDue: set<Id>, resetting: bool)

  /**
   * Put, Take and Peek are the test parts of the calls. Reset is what queue_reset writes to
   * the queue; its two wake-ups are kernel steps.
   */
  datatype QStep =
    | Kernel(step: Step)
    | Put(msg: R.Msg, front: bool, isr: bool)
    | Take(isr: bool)
    | Peek(isr: bool)
    | Reset

  /** The task that makes a call, when a task makes it. */
  function Caller(s: State, isr: bool): (t: set<Id>)
    ensures |t| <= 1
  {
    if s.current.Some? && !isr then {s.current.value} else {}
  }

  function Stored(msgs: seq<R.Msg>, msg: R.Msg, front: bool): seq<R.Msg> {
    if front then [msg] + msgs else msgs + [msg]
  }

  predicate WakesSenders(c: Config, step: Step) {
    step.DoUnblockAll? && step.reason == QueueSend && step.obj == c.obj
  }

  ghost predicate QEnabled(q: Sys, step: QStep)
    requires Inv(q.s)
  {
    step.Kernel? ==> Enabled(q.s, step.step)
  }

  ghost function QNext(c: Config, q: Sys, step: QStep): (r: Sys)
    requires Inv(q.s) && QEnabled(q, step)
    ensures Inv(r.s)
  {
    UnblockOneInv(q.s, QueueRecv, c.obj, Ok);
    UnblockOneInv(q.s, QueueSend, c.obj, Ok);
    match step
    case Kernel(st) => q.(s := Next(q.s, st), resetting := q.resetting && !WakesSenders(c, st))
    case Put(msg, front, isr) =>
      if |q.msgs| < c.cap then
        q.(s := UnblockOne(q.s, QueueRecv, c.obj, Ok), msgs := Stored(q.msgs, msg, front), sent := q.sent + [msg],
           recvDue := q.recvDue + Woke(q.s, QueueRecv, c.obj), sendDue := q.sendDue - Caller(q.s, isr))
      else q.(sendDue := q.sendDue - Caller(q.s, isr))
    case Take(isr) =>
      if |q.msgs| > 0 then
        q.(s := UnblockOne(q.s, QueueSend, c.obj, Ok), msgs := q.msgs[1..], got := q.got + [q.msgs[0]],
           sendDue := q.sendDue + Woke(q.s, QueueSend, c.obj), recvDue := q.recvDue - Caller(q.s, isr))
      else q.(recvDue := q.recvDue - Caller(q.s, isr))
    case Peek(isr) => q.(recvDue := q.recvDue - Caller(q.s, isr))
    case Reset => q.(msgs := [], resetting := true)
  }

  ghost predicate QRun(c: Config, q: Sys, steps: seq<QStep>)
    requires Inv(q.s)
    decreases |steps|
  {
    steps == [] || (QEnabled(q, steps[0]) && QRun(c, QNext(c, q, steps[0]), steps[1..]))
  }

  ghost function QAfter(c: Config, q: Sys, steps: seq<QStep>): (r: Sys)
    requires Inv(q.s) && QRun(c, q, steps)
    ensures Inv(r.s)
    decreases |steps|
  {
    if steps == [] then q else QAfter(c, QNext(c, q, steps[0]), steps[1..])
  }

  // ---- Conservation: at critical-section granularity, for every interleaving ----

  /** Without resets, what was delivered and what is stored is, as a bag, what was accepted. */
  lemma {:induction false} BagConserved(c: Config, q: Sys, steps: seq<QStep>)
    requires Inv(q.s) && QRun(c, q, steps) && Reset !in steps
    requires multiset(q.got) + multiset(q.msgs) == multiset(q.sent) && |q.msgs| <= c.cap
    ensures var r := QAfter(c, q, steps);
            multiset(r.got) + multiset(r.msgs) == multiset(r.sent) && |r.msgs| <= c.cap
    decreases |steps|
  {
    if steps != [] {
      var r := QNext(c, q, steps[0]);
      assert steps[0] in steps && forall x :: x in steps[1..] ==> x in steps;
      BagStep(c, q, steps[0]);
      hide Inv, QNext, QEnabled;
      BagConserved(c, r, steps[1..]);
    }
  }

  lemma StoredBag(got: seq<R.Msg>, msgs: seq<R.Msg>, sent: seq<R.Msg>, msg: R.Msg, front: bool)
    requires multiset(got) + multiset(msgs) == multiset(sent)
    ensures |Stored(msgs, msg, front)| == |msgs| + 1
    ensures multiset(got) + multiset(Stored(msgs, msg, front)) == multiset(sent + [msg])
  {
  }

  lemma TakenBag(got: seq<R.Msg>, msgs: seq<R.Msg>)
    ensures msgs != [] ==> multiset(got + [msgs[0]]) + multiset(msgs[1..]) == multiset(got) + multiset(msgs)
  {
    if msgs != [] {
      assert msgs == [msgs[0]] + msgs[1..];
    }
  }

  lemma BagStep(c: Config, q: Sys, step: QStep)
    requires Inv(q.s) && QEnabled(q, step) && step != Reset
    requires multiset(q.got) + multiset(q.msgs) == multiset(q.sent) && |q.msgs| <= c.cap
    ensures var r := QNext(c, q, step);
            multiset(r.got) + multiset(r.msgs) == multiset(r.sent) && |r.msgs| <= c.cap
  {
    hide Inv, UnblockOne, Next, Woke, Caller, Stored;
    match step
    case Put(msg, front, _) => StoredBag(q.got, q.msgs, q.sent, msg, front);
    case Take(_) => TakenBag(q.got, q.msgs);
    case _ =>
  }

  predicate BackOnly(steps: seq<QStep>) {
    forall x :: x in steps ==> x != Reset && (x.Put? ==> !x.front)
  }

  /** With back sends only, delivered messages followed by stored ones are the accepted ones, in order. */
  lemma {:induction false} FifoConserved(c: Config, q: Sys, steps: seq<QStep>)
    requires Inv(q.s) && QRun(c, q, steps) && BackOnly(steps)
    requires q.got + q.msgs == q.sent
    ensures var r := QAfter(c, q, steps); r.got + r.msgs == r.sent
    decreases |steps|
  {
    if steps != [] {
      var r := QNext(c, q, steps[0]);
      assert steps[0] in steps && forall x :: x in steps[1..] ==> x in steps;
      FifoStep(c, q, steps[0]);
      hide Inv, QNext, QEnabled;
      FifoConserved(c, r, steps[1..]);
    }
  }

  lemma FifoStep(c: Config, q: Sys, step: QStep)
    requires Inv(q.s) && QEnabled(q, step) && step != Reset && (step.Put? ==> !step.front)
    requires q.got + q.msgs == q.sent
    ensures var r := QNext(c, q, step); r.got + r.msgs == r.sent
  {
    if step.Take? && |q.msgs| > 0 {
      assert q.got + [q.msgs[0]] + q.msgs[1..] == q.got + q.msgs;
    }
    if step.Put? {
      assert q.got + (q.msgs + [step.msg]) == q.got + q.msgs + [step.msg];
    }
  }

  // ---- The queue is a deque ----

  /** A bounded deque of capacity cap, and what has left it at the front. */
  datatype Deque = Deque(stored: seq<R.Msg>, left: seq<R.Msg>)

  /** What the calls of the run make of a deque: who calls, and all that the kernel does, is nothing to it. */
  function Played(cap: nat, d: Deque, steps: seq<QStep>): Deque
    decreases |steps|
  {
    if steps == [] then d
    else
      var e := match steps[0]
        case Put(m, front, _) =>
          if |d.stored| == cap then d
          else if front then d.(stored := [m] + d.stored)
          else d.(stored := d.stored + [m])
        case Take(_) =>
          if d.stored == [] then d else Deque(d.stored[1..], d.left + [d.stored[0]])
        case Reset => d.(stored := [])
        case _ => d;
      Played(cap, e, steps[1..])
  }

  /** Over every interleaved run, with sends at both ends, resets included: what is stored and the order of delivery. */
  lemma {:induction false} DequeOrder(c: Config, q: Sys, steps: seq<QStep>)
    requires Inv(q.s) && QRun(c, q, steps) && |q.msgs| <= c.cap
    ensures var r, d := QAfter(c, q, steps), Played(c.cap, Deque(q.msgs, q.got), steps);
            r.msgs == d.stored && r.got == d.left && |r.msgs| <= c.cap
    decreases |steps|
  {
    if steps != [] {
      EndsOf(c, q, steps[0]);
      hide Inv, QNext, QEnabled;
      DequeOrder(c, QNext(c, q, steps[0]), steps[1..]);
    }
  }

  /** An accepted front send puts its message before all others, a back send behind them; a receive takes the first. */
  lemma EndsOf(c: Config, q: Sys, step: QStep)
    requires Inv(q.s) && QEnabled(q, step)
    ensures var r := QNext(c, q, step);
            match step
            case Put(m, front, _) =>
              && r.got == q.got
              && r.msgs == if |q.msgs| >= c.cap then q.msgs else if front then [m] + q.msgs else q.msgs + [m]
            case Take(_) =>
              if q.msgs == [] then r.msgs == q.msgs && r.got == q.got
              else r.msgs == q.msgs[1..] && r.got == q.got + [q.msgs[0]]
            case Reset => r.msgs == [] && r.got == q.got
            case _ => r.msgs == q.msgs && r.got == q.got
  {
    hide Inv, Next, UnblockOne, Woke, Caller;
  }

  /** m is the next message to be delivered, or was the first one delivered since. */
  ghost predicate NextIs(q: Sys, before: seq<R.Msg>, m: R.Msg) {
    if q.got == before then q.msgs != [] && q.msgs[0] == m
    else |before| < |q.got| && q.got[..|before|] == before && q.got[|before|] == m
  }

  lemma {:induction false} StaysNext(c: Config, q: Sys, steps: seq<QStep>, before: seq<R.Msg>, m: R.Msg)
    requires Inv(q.s) && QRun(c, q, steps) && BackOnly(steps) && NextIs(q, before, m)
    ensures NextIs(QAfter(c, q, steps), before, m)
    decreases |steps|
  {
    if steps != [] {
      assert steps[0] in steps && forall x :: x in steps[1..] ==> x in steps;
      EndsOf(c, q, steps[0]);
      var r := QNext(c, q, steps[0]);
      assert NextIs(r, before, m) by {
        hide Inv, QNext;
        assert (q.got + [m])[..|q.got|] == q.got;
      }
      hide Inv, QNext, QEnabled, NextIs;
      StaysNext(c, r, steps[1..], before, m);
    }
  }

  /** An accepted front send overtakes: until another one or a reset, the next message delivered is its own. */
  lemma FrontOvertakes(c: Config, q: Sys, m: R.Msg, isr: bool, steps: seq<QStep>)
    requires Inv(q.s) && |q.msgs| < c.cap
    requires QRun(c, QNext(c, q, Put(m, true, isr)), steps) && BackOnly(steps)
    ensures var r := QAfter(c, QNext(c, q, Put(m, true, isr)), steps);
            if |r.got| > |q.got| then r.got[|q.got|] == m else r.got == q.got && r.msgs != [] && r.msgs[0] == m
  {
    EndsOf(c, q, Put(m, true, isr));
    StaysNext(c, QNext(c, q, Put(m, true, isr)), steps, q.got, m);
    hide Inv, QNext, QRun, QAfter;
  }

  /** A queue just initialised, with nobody blocked on it. */
  ghost function Fresh(s: State): Sys {
    Sys(s, [], [], [], {}, {}, false)
  }
}
