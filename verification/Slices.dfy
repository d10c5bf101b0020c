/** Time slices of tasks in lists stay within their bounds. */
module Slices {
  import opened Types
  import opened SchedSpec
  import opened SchedInv
  import opened SchedRuns
  import opened TaskLaws

  predicate SliceOk(s: State, t: Id)
    requires t in s.info
  {
    1 <= s.info[t].slice <= TIME_SLICE
  }

  ghost predicate SlicesOk(s: State) {
    forall t {:trigger SliceOk(s, t)} :: t in s.info ==> SliceOk(s, t)
  }

  /** No step moves a task's slice out of 1..CONFIG_TIME_SLICE. */
  lemma StepSlice(s: State, step: Step, t: Id)
    requires Inv(s) && Enabled(s, step) && SlicesOk(s) && t in Next(s, step).info
    ensures SliceOk(Next(s, step), t)
  {
    assert Sane(s);
    assert t in s.info ==> SliceOk(s, t);
    if step.DoTick? {
      TickKeys(s);
      TickSlice(s, t);
    } else if Simple(step) {
      SimpleInfo(s, step);
    } else {
      WakersKeys(s, step);
      WakersRecord(s, step, t);
    }
    hide Inv, Apply, SlicesOk;
  }

  lemma StepSlices(s: State, step: Step)
    requires Inv(s) && Enabled(s, step) && SlicesOk(s)
    ensures SlicesOk(Next(s, step))
  {
    forall t | t in Next(s, step).info
      ensures SliceOk(Next(s, step), t)
    {
      StepSlice(s, step, t);
    }
  }

  lemma {:induction false} RunSlices(s: State, steps: seq<Step>)
    requires Inv(s) && Run(s, steps) && SlicesOk(s)
    ensures SlicesOk(After(s, steps))
    decreases |steps|
  {
    hide Inv, Next, Enabled, SlicesOk;
    if steps != [] {
      StepSlices(s, steps[0]);
      RunSlices(Next(s, steps[0]), steps[1..]);
    }
  }

  /** From scheduler_init on, every task's slice stays within 1..CONFIG_TIME_SLICE. */
  lemma SlicesStayOk(steps: seq<Step>)
    requires KernelRun(steps)
    ensures SlicesOk(Reached(steps))
  {
    RunSlices(Initial(), steps);
  }
}
