/** What the Go queue gets on with: what close waits for, when batches leave, and
    that the drain comes to an end. */
module GoProgress {
  import opened Common
  import opened Shipping
  import opened GoQueue

  // -------------------------------------------------------------- what is offered

  // The events of the Enqueue steps, in order.
  function Offered(steps: seq<Step>): seq<Event> {
    if steps == [] then []
    else
      var n := |steps| - 1;
      Offered(steps[..n]) + if steps[n].Enqueue? then [steps[n].e] else []
  }

  /** Every event offered is accepted or counted as dropped, and if none was turned
      away the accepted events are those offered, in order. */
  lemma {:induction false} OfferedIsAnswered(cfg: Config, steps: seq<Step>)
    requires IsRun(cfg, steps)
    ensures var s := RunOf(cfg, steps);
            && |Offered(steps)| == |s.accepted| + s.refused
            && (s.refused == 0 ==> s.accepted == Offered(steps))
  {
    if steps != [] {
      var n := |steps| - 1;
      OfferedIsAnswered(cfg, steps[..n]);
      StepAnswers(cfg, RunOf(cfg, steps[..n]), steps[n]);
    }
  }

  lemma StepAnswers(cfg: Config, s: State, step: Step)
    requires Enabled(s, step)
    ensures var s' := Do(cfg, s, step);
            && (!step.Enqueue? ==> s'.accepted == s.accepted && s'.refused == s.refused)
            && (step.Enqueue? && |s.events| < cfg.capacity ==>
                  s'.accepted == s.accepted + [step.e] && s'.refused == s.refused)
            && (step.Enqueue? && |s.events| >= cfg.capacity ==>
                  s'.accepted == s.accepted && s'.refused == s.refused + 1)
  {
  }

  // ------------------------------------------------------------------------ close

  ghost predicate Closed(steps: seq<Step>) {
    exists i :: 0 <= i < |steps| && steps[i].Close?
  }

  // The first call of close is step k.
  ghost predicate FirstClose(steps: seq<Step>, k: nat) {
    k < |steps| && steps[k].Close? && !Closed(steps[..k])
  }

  lemma StepKeepsAccepted(cfg: Config, s: State, step: Step)
    requires Enabled(s, step)
    ensures s.accepted <= Do(cfg, s, step).accepted
    ensures Do(cfg, s, step).stopped <==> s.stopped || step.Close?
    ensures s.stopped ==> Do(cfg, s, step).beforeStop == s.beforeStop
    ensures step.Close? && !s.stopped ==> Do(cfg, s, step).beforeStop == |s.accepted|
  {
  }

  /** In every run the queue is stopped exactly if close was called. */
  lemma {:induction false} StoppedIsClosed(cfg: Config, steps: seq<Step>)
    requires IsRun(cfg, steps)
    ensures RunOf(cfg, steps).stopped <==> Closed(steps)
  {
    if steps != [] {
      var n := |steps| - 1;
      StoppedIsClosed(cfg, steps[..n]);
      StepKeepsAccepted(cfg, RunOf(cfg, steps[..n]), steps[n]);
      if Closed(steps[..n]) {
        var i :| 0 <= i < n && steps[..n][i].Close?;
        assert steps[i].Close?;
      }
      if Closed(steps) && !steps[n].Close? {
        var i :| 0 <= i < |steps| && steps[i].Close?;
        assert steps[..n][i].Close?;
      }
    }
  }

  lemma {:induction false} PrefixIsRun(cfg: Config, steps: seq<Step>, k: nat)
    requires IsRun(cfg, steps) && k <= |steps|
    ensures IsRun(cfg, steps[..k])
  {
    if k < |steps| {
      PrefixIsRun(cfg, steps[..|steps| - 1], k);
      assert steps[..|steps| - 1][..k] == steps[..k];
    } else {
      assert steps[..k] == steps;
    }
  }

  lemma {:induction false} AcceptedAtClose(cfg: Config, steps: seq<Step>, k: nat)
    requires IsRun(cfg, steps) && FirstClose(steps, k)
    ensures IsRun(cfg, steps[..k])
    ensures var before := RunOf(cfg, steps[..k]).accepted;
            && RunOf(cfg, steps).stopped && RunOf(cfg, steps).beforeStop == |before|
            && before <= RunOf(cfg, steps).accepted
  {
    var n := |steps| - 1;
    PrefixIsRun(cfg, steps, k);
    StepKeepsAccepted(cfg, RunOf(cfg, steps[..n]), steps[n]);
    if k == n {
      StoppedIsClosed(cfg, steps[..n]);
    } else {
      assert steps[..n][..k] == steps[..k];
      AcceptedAtClose(cfg, steps[..n], k);
    }
  }

  /** Once the loop has exited, every event that had been accepted when close was first
      called has been settled, in order. */
  lemma ClosedQueueIsSettled(cfg: Config, steps: seq<Step>, k: nat)
    requires cfg.batch >= 1 && IsRun(cfg, steps) && FirstClose(steps, k) && RunOf(cfg, steps).runner.Exited?
    ensures IsRun(cfg, steps[..k])
    ensures RunOf(cfg, steps[..k]).accepted <= Batches(RunOf(cfg, steps).settled)
  {
    AcceptedAtClose(cfg, steps, k);
    CloseSettles(cfg, steps);
    var before, s := RunOf(cfg, steps[..k]).accepted, RunOf(cfg, steps);
    assert before == s.accepted[..|before|] == Batches(s.settled)[..|before|];
  }

  /** And the loop exits only after close. */
  lemma ExitNeedsClose(cfg: Config, steps: seq<Step>)
    requires cfg.batch >= 1 && IsRun(cfg, steps) && RunOf(cfg, steps).runner.Exited?
    ensures Closed(steps)
  {
    RunKeepsContract(cfg, steps);
    StoppedIsClosed(cfg, steps);
  }

  // ---------------------------------------------------------------------- batches

  predicate NeverTimedNorClosed(steps: seq<Step>) {
    forall i :: 0 <= i < |steps| ==> !steps[i].TimerFires? && !steps[i].Close?
  }

  ghost predicate OnlyFull(cfg: Config, s: State) {
    && !s.stopped
    && (forall i :: 0 <= i < |s.settled| ==> |s.settled[i].batch| == cfg.batch)
    && match s.runner
       case Selecting(mode) => mode.Looping? && |s.local| < cfg.batch
       case Appended(mode) => mode.Looping? && |s.local| <= cfg.batch
       case Exited => false
       case _ => s.runner.mode.Looping? && |s.local| == cfg.batch
  }

  lemma StepOnlyFull(cfg: Config, s: State, step: Step)
    requires cfg.batch >= 1 && OnlyFull(cfg, s) && Enabled(s, step) && !step.TimerFires? && !step.Close?
    ensures OnlyFull(cfg, Do(cfg, s, step))
  {
  }

  /** Without the timer and without close, every batch that leaves is full. */
  lemma {:induction false} OnlyFullBatchesLeave(cfg: Config, steps: seq<Step>)
    requires cfg.batch >= 1 && IsRun(cfg, steps) && NeverTimedNorClosed(steps)
    ensures OnlyFull(cfg, RunOf(cfg, steps))
  {
    if steps != [] {
      var n := |steps| - 1;
      assert forall i :: 0 <= i < n ==> steps[..n][i] == steps[i];
      OnlyFullBatchesLeave(cfg, steps[..n]);
      StepOnlyFull(cfg, RunOf(cfg, steps[..n]), steps[n]);
    }
  }

  // -------------------------------------------------------------------- the drain

  predicate OfRunner(step: Step) {
    !step.Enqueue? && !step.Close? && !step.CallFlushWait? && !step.ReadInFlight? && !step.LookAtChannel?
  }

  // The steps of one flush at most, and those of the rest of one.
  function FlushSteps(cfg: Config): nat {
    2 * Times(cfg.retries) + 3
  }

  function RestOfFlush(cfg: Config, r: Runner): (n: nat)
    requires InFlush(r)
  {
    var retries := Times(cfg.retries);
    match r
    case Flushing(_) => FlushSteps(cfg)
    case Encoding(_) => FlushSteps(cfg) - 1
    case Sending(_, statuses) => if |statuses| < retries then 2 * (retries - |statuses|) + 1 else 3
    case Sleeping(_, statuses) => if |statuses| < retries then 2 * (retries - |statuses|) + 2 else 2
    case Clearing(_) => 1
  }

  predicate Drains(r: Runner) {
    r.Exited? || r.mode.Draining? || r.mode.Leaving?
  }

  // How many steps the drain has still to take at most, if nothing more arrives.
  function StepsLeft(cfg: Config, s: State): nat
    requires Drains(s.runner)
  {
    |s.events| * (FlushSteps(cfg) + 3)
    + match s.runner
      case Exited => 0
      case Selecting(_) => FlushSteps(cfg) + 1
      case Appended(_) => 2 * FlushSteps(cfg) + 2
      case _ => RestOfFlush(cfg, s.runner) + if s.runner.mode.Leaving? then 0 else FlushSteps(cfg) + 1
  }

  lemma OneEventLess(n: nat, k: nat)
    requires n > 0
    ensures n * k == (n - 1) * k + k
  {
  }

  lemma DrainStep(cfg: Config, s: State, step: Step)
    requires Enabled(s, step) && Drains(s.runner) && !step.Enqueue?
    requires s.runner.Selecting? || s.runner.Appended? ==> s.runner.mode.Draining?
    ensures var s' := Do(cfg, s, step);
            && Drains(s'.runner)
            && StepsLeft(cfg, s') + (if OfRunner(step) then 1 else 0) <= StepsLeft(cfg, s)
  {
    match step {
      case Receive => OneEventLess(|s.events|, FlushSteps(cfg) + 3);
      case Encode(_) => InFlushStep(cfg, s, step);
      case Reply(_) => InFlushStep(cfg, s, step);
      case Wake => InFlushStep(cfg, s, step);
      case _ =>
    }
  }

  lemma InFlushStep(cfg: Config, s: State, step: Step)
    requires Enabled(s, step) && Drains(s.runner) && (step.Encode? || step.Reply? || step.Wake?)
    ensures var s' := Do(cfg, s, step);
            && InFlush(s'.runner) && s'.runner.mode == s.runner.mode && s'.events == s.events
            && RestOfFlush(cfg, s'.runner) < RestOfFlush(cfg, s.runner)
  {
  }

  function RunnerSteps(steps: seq<Step>): nat {
    if steps == [] then 0 else RunnerSteps(steps[..|steps| - 1]) + if OfRunner(steps[|steps| - 1]) then 1 else 0
  }

  lemma {:induction false} RunnerStepsLater(steps: seq<Step>, k: nat)
    requires k < |steps|
    ensures RunnerSteps(steps[k..])
         == RunnerSteps(steps[k..|steps| - 1]) + if OfRunner(steps[|steps| - 1]) then 1 else 0
  {
    assert steps[k..][..|steps| - 1 - k] == steps[k..|steps| - 1];
  }

  /** Once the loop drains, and nothing more is offered, it exits: in every run after at
      most a number of its own steps that is fixed by what is queued and by the
      retries. */
  lemma {:induction false} DrainEnds(cfg: Config, steps: seq<Step>, k: nat)
    requires cfg.batch >= 1 && k <= |steps| && IsRun(cfg, steps) && IsRun(cfg, steps[..k])
    requires Drains(RunOf(cfg, steps[..k]).runner) && forall i :: k <= i < |steps| ==> !steps[i].Enqueue?
    ensures Drains(RunOf(cfg, steps).runner)
    ensures RunnerSteps(steps[k..]) + StepsLeft(cfg, RunOf(cfg, steps)) <= StepsLeft(cfg, RunOf(cfg, steps[..k]))
  {
    if k == |steps| {
      assert steps[..k] == steps && steps[k..] == [];
    } else {
      var n := |steps| - 1;
      assert steps[..n][..k] == steps[..k] && steps[..n][k..] == steps[k..n];
      DrainEnds(cfg, steps[..n], k);
      RunKeepsContract(cfg, steps[..n]);
      RunnerStepsLater(steps, k);
      DrainStep(cfg, RunOf(cfg, steps[..n]), steps[n]);
    }
  }

  /** Until it has exited, the loop always has a step to take, and after close an idle
      loop can turn to the drain. */
  lemma RunnerCanGoOn(cfg: Config, steps: seq<Step>)
    requires cfg.batch >= 1 && IsRun(cfg, steps) && !RunOf(cfg, steps).runner.Exited?
    ensures var s := RunOf(cfg, steps);
            && (exists step :: OfRunner(step) && Enabled(s, step))
            && (Closed(steps) && s.runner == Selecting(Looping) ==>
                  Enabled(s, SeeStop) && Do(cfg, s, SeeStop) == s.(runner := Selecting(Draining)))
  {
    var s := RunOf(cfg, steps);
    RunKeepsContract(cfg, steps);
    StoppedIsClosed(cfg, steps);
    match s.runner {
      case Selecting(mode) =>
        if mode.Looping? {
          assert OfRunner(TimerFires) && Enabled(s, TimerFires);
        } else if s.events == [] {
          assert OfRunner(FindEmpty) && Enabled(s, FindEmpty);
        } else {
          assert OfRunner(Receive) && Enabled(s, Receive);
        }
      case Appended(_) => assert OfRunner(AfterAppend) && Enabled(s, AfterAppend);
      case Flushing(_) => assert OfRunner(SetInFlight) && Enabled(s, SetInFlight);
      case Encoding(_) => assert OfRunner(Encode(true)) && Enabled(s, Encode(true));
      case Sending(_, _) => assert OfRunner(Reply(None)) && Enabled(s, Reply(None));
      case Sleeping(_, _) => assert OfRunner(Wake) && Enabled(s, Wake);
      case Clearing(_) => assert OfRunner(ClearInFlight) && Enabled(s, ClearInFlight);
    }
  }
}
