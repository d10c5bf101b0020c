/**
 * No task is left blocked on a queue that has something for it, unless somebody woken is on
 * the way; and when a run can leave one behind.
 */
module QueueWaiters {
  import opened Types
  import opened SchedSpec
  import opened SchedInv
  import opened SchedRuns
  import opened TaskLaws
  import opened Waiting
  import opened QueueRuns
  import R = Ring

  /**
   * Blocked receivers mean that every stored message has a woken receiver on its way to it,
   * and blocked senders that every free slot has a woken sender, except while a queue_reset
   * that has emptied the queue has still to wake the senders; and the woken can run.
   */
  ghost predicate NobodyStranded(c: Config, q: Sys)
    requires Inv(q.s)
  {
    && |q.msgs| <= c.cap
    && (Waiters(q.s, QueueRecv, c.obj) != {} ==> |q.msgs| <= |q.recvDue|)
    && (Waiters(q.s, QueueSend, c.obj) != {} && !q.resetting ==> c.cap - |q.msgs| <= |q.sendDue|)
    && CanRun(q.s, q.recvDue) && CanRun(q.s, q.sendDue)
  }

  /** The task that runs is woken and has not retried yet. */
  predicate Owes(q: Sys) {
    q.s.current.Some? && q.s.current.value in q.recvDue + q.sendDue
  }

  /**
   * What the property rests on. A task blocks on the queue only while the test it failed
   * still fails; a woken task retries before it blocks anywhere, is not suspended or
   * deleted meanwhile, and does not merely peek.
   */
  predicate Disciplined(c: Config, q: Sys, step: QStep) {
    match step
    case Kernel(DoBlock(reason, obj, _)) =>
      && !Owes(q)
      && (obj == c.obj && reason == QueueRecv ==> q.msgs == [])
      && (obj == c.obj && reason == QueueSend ==> |q.msgs| == c.cap)
    case Kernel(DoRetire(t, _)) => t !in q.recvDue + q.sendDue
    case Peek(isr) => Caller(q.s, isr) !! q.recvDue
    case _ => true
  }

  lemma KernelStranded(c: Config, q: Sys, step: Step)
    requires Inv(q.s) && Enabled(q.s, step) && NobodyStranded(c, q) && Disciplined(c, q, Kernel(step))
    ensures NobodyStranded(c, QNext(c, q, Kernel(step)))
  {
    if WakesSenders(c, step) {
      UnblockAllWaiters(q.s, QueueSend, c.obj, step.code);
      assert Next(q.s, step) == UnblockAll(q.s, QueueSend, c.obj, step.code);
    }
    hide Inv, Enabled, Next, Waiters, UnblockAll;
    StepWaiters(q.s, step, QueueRecv, c.obj);
    StepWaiters(q.s, step, QueueSend, c.obj);
    DueRunnable(c, q, step);
  }

  lemma DueRunnable(c: Config, q: Sys, step: Step)
    requires Inv(q.s) && Enabled(q.s, step) && Disciplined(c, q, Kernel(step))
    requires CanRun(q.s, q.recvDue) && CanRun(q.s, q.sendDue)
    ensures CanRun(Next(q.s, step), q.recvDue) && CanRun(Next(q.s, step), q.sendDue)
  {
    hide Inv, Enabled, Next;
    var r := Next(q.s, step);
    forall t | t in q.recvDue + q.sendDue
      ensures t in r.info && r.info[t].Runnable()
    {
      StepRunnable(q.s, step, t);
    }
  }

  lemma PutStranded(c: Config, q: Sys, step: QStep)
    requires Inv(q.s) && NobodyStranded(c, q) && step.Put?
    ensures NobodyStranded(c, QNext(c, q, step))
  {
    hide Inv, UnblockOne, UnblockAll, Waiters, Woke, Caller, Chosen, CanRun;
    var r := QNext(c, q, step);
    LessOne(q.sendDue, Caller(q.s, step.isr));
    FewerCanRun(q.s, q.sendDue, Caller(q.s, step.isr));
    if |q.msgs| < c.cap {
      WokenRuns(q.s, QueueRecv, c.obj, q.recvDue);
      WokenOthers(q.s, QueueRecv, c.obj, q.sendDue);
      FewerCanRun(r.s, q.sendDue, Caller(q.s, step.isr));
      UnblockOneWaiters(q.s, QueueRecv, c.obj, Ok);
      assert |r.recvDue| == |q.recvDue| + |Woke(q.s, QueueRecv, c.obj)|;
      assert |r.msgs| == |q.msgs| + 1;
    }
  }

  lemma TakeStranded(c: Config, q: Sys, step: QStep)
    requires Inv(q.s) && NobodyStranded(c, q) && step.Take?
    ensures NobodyStranded(c, QNext(c, q, step))
  {
    hide Inv, UnblockOne, UnblockAll, Waiters, Woke, Caller, Chosen, CanRun;
    var r := QNext(c, q, step);
    LessOne(q.recvDue, Caller(q.s, step.isr));
    FewerCanRun(q.s, q.recvDue, Caller(q.s, step.isr));
    if |q.msgs| > 0 {
      WokenRuns(q.s, QueueSend, c.obj, q.sendDue);
      WokenOthers(q.s, QueueSend, c.obj, q.recvDue);
      FewerCanRun(r.s, q.recvDue, Caller(q.s, step.isr));
      UnblockOneWaiters(q.s, QueueSend, c.obj, Ok);
      assert |r.sendDue| == |q.sendDue| + |Woke(q.s, QueueSend, c.obj)|;
      assert |r.msgs| == |q.msgs| - 1;
    }
  }

  lemma LessOne(s: set<Id>, t: set<Id>)
    requires |t| <= 1
    ensures |s| - 1 <= |s - t|
  {
    assert s == (s - t) + (s * t);
    assert |s| == |s - t| + |s * t|;
    assert s * t <= t;
    SubsetSize(s * t, t);
  }

  lemma SubsetSize(s: set<Id>, t: set<Id>)
    requires s <= t
    ensures |s| <= |t|
  {
    assert t == s + (t - s);
  }

  /**
   * Emptying the queue leaves senders stranded until they are woken, exactly when somebody is
   * blocked to send and not enough woken senders are on the way.
   */
  lemma ResetLeaves(c: Config, q: Sys)
    requires Inv(q.s) && NobodyStranded(c, q)
    ensures NobodyStranded(c, QNext(c, q, Reset))
    ensures NobodyStranded(c, QNext(c, q, Reset).(resetting := false)) <==>
            Waiters(q.s, QueueSend, c.obj) == {} || c.cap <= |q.sendDue|
  {
    hide Inv, Waiters;
  }

  lemma StepStranded(c: Config, q: Sys, step: QStep)
    requires Inv(q.s) && QEnabled(q, step) && NobodyStranded(c, q) && Disciplined(c, q, step)
    ensures NobodyStranded(c, QNext(c, q, step))
  {
    match step
    case Kernel(st) => KernelStranded(c, q, st);
    case Put(_, _, _) => PutStranded(c, q, step);
    case Take(_) => TakeStranded(c, q, step);
    case Peek(isr) => assert q.recvDue - Caller(q.s, isr) == q.recvDue;
    case Reset => ResetLeaves(c, q);
  }

  ghost predicate DisciplinedRun(c: Config, q: Sys, steps: seq<QStep>)
    requires Inv(q.s) && QRun(c, q, steps)
    decreases |steps|
  {
    steps == [] || (Disciplined(c, q, steps[0]) && DisciplinedRun(c, QNext(c, q, steps[0]), steps[1..]))
  }

  lemma {:induction false} RunStranded(c: Config, q: Sys, steps: seq<QStep>)
    requires Inv(q.s) && QRun(c, q, steps) && DisciplinedRun(c, q, steps) && NobodyStranded(c, q)
    ensures NobodyStranded(c, QAfter(c, q, steps))
    decreases |steps|
  {
    hide Inv, QNext, QEnabled, Disciplined, NobodyStranded;
    if steps != [] {
      StepStranded(c, q, steps[0]);
      RunStranded(c, QNext(c, q, steps[0]), steps[1..]);
    }
  }

  /** The main result: from initialisation on, over every disciplined run, nobody is stranded and nothing is lost. */
  lemma QueueDelivers(c: Config, s: State, steps: seq<QStep>)
    requires Inv(s) && Waiters(s, QueueRecv, c.obj) == {} && Waiters(s, QueueSend, c.obj) == {}
    requires QRun(c, Fresh(s), steps) && DisciplinedRun(c, Fresh(s), steps)
    ensures NobodyStranded(c, QAfter(c, Fresh(s), steps))
    ensures var r := QAfter(c, Fresh(s), steps);
            && (Reset !in steps ==> multiset(r.got) + multiset(r.msgs) == multiset(r.sent))
            && (BackOnly(steps) ==> r.got + r.msgs == r.sent)
  {
    RunStranded(c, Fresh(s), steps);
    if Reset !in steps {
      BagConserved(c, Fresh(s), steps);
    }
    if BackOnly(steps) {
      FifoConserved(c, Fresh(s), steps);
    }
  }

  // ---- Where the property fails ----

  /**
   * The block that follows a failed receive keeps the property exactly when the messages
   * that have arrived since the test are all spoken for; so, with nobody on the way, exactly
   * when the queue is still empty.
   */
  lemma ReceiverBlocks(c: Config, q: Sys, timeout: U32)
    requires Inv(q.s) && NobodyStranded(c, q) && !Owes(q) && q.s.current.Some?
    requires Enabled(q.s, DoBlock(QueueRecv, c.obj, timeout))
    ensures NobodyStranded(c, QNext(c, q, Kernel(DoBlock(QueueRecv, c.obj, timeout)))) <==> |q.msgs| <= |q.recvDue|
    ensures q.recvDue == {} ==>
              (NobodyStranded(c, QNext(c, q, Kernel(DoBlock(QueueRecv, c.obj, timeout)))) <==> q.msgs == [])
  {
    var step := DoBlock(QueueRecv, c.obj, timeout);
    var r := Next(q.s, step);
    StepWaiters(q.s, step, QueueRecv, c.obj);
    StepWaiters(q.s, step, QueueSend, c.obj);
    StepCore(q.s, step, q.s.current.value);
    WaitersAre(r, QueueRecv, c.obj);
    forall t | t in q.recvDue + q.sendDue
      ensures t in r.info && r.info[t].Runnable()
    {
      StepRunnable(q.s, step, t);
    }
    hide Inv, Enabled, Next, Waiters;
    assert q.s.current.value in Waiters(r, QueueRecv, c.obj);
  }

  /**
   * Likewise for a failed send: the slots freed since the test must all be spoken for; so,
   * with nobody on the way, the queue must still be full.
   */
  lemma SenderBlocks(c: Config, q: Sys, timeout: U32)
    requires Inv(q.s) && NobodyStranded(c, q) && !q.resetting && !Owes(q) && q.s.current.Some?
    requires Enabled(q.s, DoBlock(QueueSend, c.obj, timeout))
    ensures NobodyStranded(c, QNext(c, q, Kernel(DoBlock(QueueSend, c.obj, timeout)))) <==>
            c.cap - |q.msgs| <= |q.sendDue|
    ensures q.sendDue == {} ==>
              (NobodyStranded(c, QNext(c, q, Kernel(DoBlock(QueueSend, c.obj, timeout)))) <==> |q.msgs| == c.cap)
  {
    var step := DoBlock(QueueSend, c.obj, timeout);
    var r := Next(q.s, step);
    StepWaiters(q.s, step, QueueRecv, c.obj);
    StepWaiters(q.s, step, QueueSend, c.obj);
    StepCore(q.s, step, q.s.current.value);
    WaitersAre(r, QueueSend, c.obj);
    forall t | t in q.recvDue + q.sendDue
      ensures t in r.info && r.info[t].Runnable()
    {
      StepRunnable(q.s, step, t);
    }
    hide Inv, Enabled, Next, Waiters;
    assert q.s.current.value in Waiters(r, QueueSend, c.obj);
  }

  /** A lost wake-up: a receive finds the queue empty, a message arrives, and only then it blocks. */
  lemma LostWakeup(c: Config, q: Sys, m: R.Msg)
    requires Inv(q.s) && NobodyStranded(c, q) && c.cap > 0 && q.msgs == [] && q.recvDue == {} && q.sendDue == {}
    requires Waiters(q.s, QueueRecv, c.obj) == {}
    requires q.s.current.Some? && q.s.info[q.s.current.value].Runnable()
    ensures var steps := [Take(false), Put(m, false, true), Kernel(DoBlock(QueueRecv, c.obj, TIMEOUT_FOREVER))];
            QRun(c, q, steps) && !NobodyStranded(c, QAfter(c, q, steps))
  {
    var block := Kernel(DoBlock(QueueRecv, c.obj, TIMEOUT_FOREVER));
    var q1 := QNext(c, q, Take(false));
    var q2 := QNext(c, q1, Put(m, false, true));
    ChosenIff(q.s, QueueRecv, c.obj);
    assert q1.s == q.s && q2.s == q.s;
    assert q2.recvDue == {} && q2.sendDue == {} && |q2.msgs| == 1;
    ReceiverBlocks(c, q2, TIMEOUT_FOREVER);
    QRun3(c, q, Take(false), Put(m, false, true), block);
  }

  /** The same for a sender: it finds the queue full, a message is taken, and only then it blocks. */
  lemma LostSpace(c: Config, q: Sys, m: R.Msg)
    requires Inv(q.s) && NobodyStranded(c, q) && !q.resetting
    requires c.cap > 0 && |q.msgs| == c.cap && q.recvDue == {} && q.sendDue == {}
    requires Waiters(q.s, QueueSend, c.obj) == {}
    requires q.s.current.Some? && q.s.info[q.s.current.value].Runnable()
    ensures var steps := [Put(m, false, false), Take(true), Kernel(DoBlock(QueueSend, c.obj, TIMEOUT_FOREVER))];
            QRun(c, q, steps) && !NobodyStranded(c, QAfter(c, q, steps))
  {
    var q1 := QNext(c, q, Put(m, false, false));
    var q2 := QNext(c, q1, Take(true));
    ChosenIff(q.s, QueueSend, c.obj);
    assert q1.s == q.s && q2.s == q.s;
    assert q2.recvDue == {} && q2.sendDue == {} && |q2.msgs| == c.cap - 1;
    SenderBlocks(c, q2, TIMEOUT_FOREVER);
    QRun3(c, q, Put(m, false, false), Take(true), Kernel(DoBlock(QueueSend, c.obj, TIMEOUT_FOREVER)));
  }

  lemma QRun3(c: Config, q: Sys, a: QStep, b: QStep, d: QStep)
    requires Inv(q.s) && QEnabled(q, a) && QEnabled(QNext(c, q, a), b) && QEnabled(QNext(c, QNext(c, q, a), b), d)
    ensures QRun(c, q, [a, b, d]) && QAfter(c, q, [a, b, d]) == QNext(c, QNext(c, QNext(c, q, a), b), d)
  {
    hide Inv, QNext, QEnabled;
    var q1 := QNext(c, q, a);
    var q2 := QNext(c, q1, b);
    assert [a, b, d][1..] == [b, d] && [b, d][1..] == [d] && [d][1..] == [];
    var q3 := QNext(c, q2, d);
    assert QRun(c, q3, []) && QAfter(c, q3, []) == q3;
    assert QRun(c, q2, [d]) && QAfter(c, q2, [d]) == QNext(c, q2, d);
    assert QRun(c, q1, [b, d]) && QAfter(c, q1, [b, d]) == QNext(c, q2, d);
  }

  /** A woken task that peeks consumes nothing and wakes nobody: the other receivers stay behind. */
  lemma PeekStrands(c: Config, q: Sys)
    requires Inv(q.s) && NobodyStranded(c, q) && Caller(q.s, false) <= q.recvDue
    requires q.s.current.Some? && Waiters(q.s, QueueRecv, c.obj) != {}
    ensures NobodyStranded(c, QNext(c, q, Peek(false))) <==> |q.msgs| < |q.recvDue|
  {
    var t := q.s.current.value;
    assert t in q.recvDue && q.recvDue == (q.recvDue - {t}) + {t};
    hide Inv;
  }
}
