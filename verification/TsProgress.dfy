/** What the TypeScript queue gets on with: what it accepts, when batches leave, and
    that a tick comes to an end. */
module TsProgress {
  import opened Common
  import opened Shipping
  import opened TsQueue

  // -------------------------------------------------------------- what is offered

  function Offered(steps: seq<Step>): seq<Event> {
    if steps == [] then []
    else
      var n := |steps| - 1;
      Offered(steps[..n]) + if steps[n].Enqueue? then [steps[n].e] else []
  }

  ghost predicate Stopped(steps: seq<Step>) {
    exists i :: 0 <= i < |steps| && steps[i].Stop?
  }

  lemma StepAccepts(cfg: Config, s: State, step: Step)
    requires Enabled(s, step)
    ensures var s' := Do(cfg, s, step);
            && (s'.stopped <==> s.stopped || step.Stop?)
            && (!step.Enqueue? ==> s'.accepted == s.accepted && s'.refused == s.refused)
            && (step.Enqueue? && s.stopped ==> s' == s)
            && (step.Enqueue? && !s.stopped && |s.buffer| < cfg.maxQueue ==>
                  s'.accepted == s.accepted + [step.e] && s'.refused == s.refused)
            && (step.Enqueue? && !s.stopped && |s.buffer| >= cfg.maxQueue ==>
                  s'.accepted == s.accepted && s'.refused == s.refused + 1)
  {
  }

  lemma StoppedMore(steps: seq<Step>)
    requires steps != []
    ensures var n := |steps| - 1;
            Stopped(steps) <==> Stopped(steps[..n]) || steps[n].Stop?
  {
    var n := |steps| - 1;
    if Stopped(steps[..n]) {
      var i :| 0 <= i < n && steps[..n][i].Stop?;
      assert steps[i].Stop?;
    }
    if Stopped(steps) && !steps[n].Stop? {
      var i :| 0 <= i < |steps| && steps[i].Stop?;
      assert steps[..n][i].Stop?;
    }
  }

  /** Before shutdown, every event offered is accepted or counted as dropped, and if
      none was turned away the accepted events are those offered, in order. */
  lemma {:induction false} OfferedIsAnswered(cfg: Config, steps: seq<Step>)
    requires IsRun(cfg, steps)
    ensures var s := After(cfg, steps);
            && (s.stopped <==> Stopped(steps))
            && (!s.stopped ==>
                  && |Offered(steps)| == |s.accepted| + s.refused
                  && (s.refused == 0 ==> s.accepted == Offered(steps)))
  {
    if steps != [] {
      var n := |steps| - 1;
      OfferedIsAnswered(cfg, steps[..n]);
      StepAccepts(cfg, After(cfg, steps[..n]), steps[n]);
      StoppedMore(steps);
    }
  }

  lemma {:induction false} PrefixIsRun(cfg: Config, steps: seq<Step>, k: nat)
    requires IsRun(cfg, steps) && k <= |steps|
    ensures IsRun(cfg, steps[..k])
  {
    if k < |steps| {
      PrefixIsRun(cfg, steps[..|steps| - 1], k);
      assert steps[..|steps| - 1][..k] == steps[..k];
    } else {
      assert steps[..k] == steps;
    }
  }

  /** After shutdown nothing is accepted any more. */
  lemma {:induction false} StoppedAcceptsNothing(cfg: Config, steps: seq<Step>, k: nat)
    requires IsRun(cfg, steps) && k <= |steps| && Stopped(steps[..k])
    ensures IsRun(cfg, steps[..k])
    ensures After(cfg, steps).accepted == After(cfg, steps[..k]).accepted
  {
    PrefixIsRun(cfg, steps, k);
    if k == |steps| {
      assert steps[..k] == steps;
    } else {
      var n := |steps| - 1;
      assert steps[..n][..k] == steps[..k];
      StoppedAcceptsNothing(cfg, steps[..n], k);
      OfferedIsAnswered(cfg, steps[..n]);
      var i :| 0 <= i < k && steps[..k][i].Stop?;
      assert steps[..n][i].Stop?;
      StepAccepts(cfg, After(cfg, steps[..n]), steps[n]);
    }
  }

  // ---------------------------------------------------------------------- batches

  /** Without the timer nothing leaves before a batch is full. */
  lemma {:induction false} NothingLeavesEarly(cfg: Config, steps: seq<Step>)
    requires IsRun(cfg, steps) && forall i :: 0 <= i < |steps| ==> !steps[i].Tick?
    ensures var s := After(cfg, steps);
            |s.accepted| < cfg.batchSize ==> s.settled == [] && s.flight.Grounded? && s.buffer == s.accepted
  {
    if steps != [] {
      var n := |steps| - 1;
      assert forall i :: 0 <= i < n ==> steps[..n][i] == steps[i];
      NothingLeavesEarly(cfg, steps[..n]);
      RunKeepsContract(cfg, steps[..n]);
      StepAccepts(cfg, After(cfg, steps[..n]), steps[n]);
    }
  }

  // ----------------------------------------------------------------------- a tick

  predicate OfTick(step: Step) {
    step.Reply? || step.Wake? || step.Resume?
  }

  function BatchSteps(cfg: Config): nat {
    2 * Times(cfg.maxRetries) + 2
  }

  // How many steps the tick has still to take at most, if nothing more is offered.
  function StepsLeft(cfg: Config, s: State): nat {
    var retries := Times(cfg.maxRetries);
    |s.buffer| * BatchSteps(cfg)
    + match s.flight
      case Grounded => 0
      case Landed => 1
      case Sending(_, statuses) => if |statuses| < retries then 2 * (retries - |statuses|) + 1 else 3
      case Sleeping(_, statuses) => if |statuses| < retries then 2 * (retries - |statuses|) + 2 else 2
  }

  lemma {:induction false} FewerEvents(m: nat, n: nat, k: nat)
    requires m < n
    ensures m * k + k <= n * k
    decreases n - m
  {
    assert (m + 1) * k == m * k + k;
    if m + 1 < n {
      FewerEvents(m + 1, n, k);
    }
  }

  lemma TickStep(cfg: Config, s: State, step: Step)
    requires cfg.batchSize >= 1 && SingleFlight(s) && s.flushing && Enabled(s, step) && !step.Enqueue?
    ensures StepsLeft(cfg, Do(cfg, s, step)) + (if OfTick(step) then 1 else 0) <= StepsLeft(cfg, s)
  {
    if step.Resume? && s.buffer != [] {
      FewerEvents(|s.buffer| - SpliceCount(cfg, |s.buffer|), |s.buffer|, BatchSteps(cfg));
    }
  }

  function TickSteps(steps: seq<Step>): nat {
    if steps == [] then 0 else TickSteps(steps[..|steps| - 1]) + if OfTick(steps[|steps| - 1]) then 1 else 0
  }

  // A tick is under way after each of the steps from place k on but the last.
  ghost predicate Flying(cfg: Config, steps: seq<Step>, k: nat)
    requires IsRun(cfg, steps)
  {
    forall i :: k <= i < |steps| ==> IsRun(cfg, steps[..i]) && After(cfg, steps[..i]).flushing
  }

  lemma {:induction false} TickStepsLater(steps: seq<Step>, k: nat)
    requires k < |steps|
    ensures TickSteps(steps[k..]) == TickSteps(steps[k..|steps| - 1]) + if OfTick(steps[|steps| - 1]) then 1 else 0
  {
    assert steps[k..][..|steps| - 1 - k] == steps[k..|steps| - 1];
  }

  /** A tick ends, if nothing more is offered meanwhile: in every run after at most a
      number of its own steps that is fixed by what is buffered and by the retries. */
  lemma {:induction false} TickEnds(cfg: Config, steps: seq<Step>, k: nat)
    requires cfg.batchSize >= 1 && k <= |steps| && IsRun(cfg, steps) && IsRun(cfg, steps[..k])
    requires Flying(cfg, steps, k) && forall i :: k <= i < |steps| ==> !steps[i].Enqueue?
    ensures TickSteps(steps[k..]) + StepsLeft(cfg, After(cfg, steps)) <= StepsLeft(cfg, After(cfg, steps[..k]))
  {
    if k == |steps| {
      assert steps[..k] == steps && steps[k..] == [];
    } else {
      var n := |steps| - 1;
      assert steps[..n][..k] == steps[..k] && steps[..n][k..] == steps[k..n];
      forall i | k <= i < n
        ensures IsRun(cfg, steps[..n][..i]) && After(cfg, steps[..n][..i]).flushing
      {
        assert steps[..n][..i] == steps[..i];
      }
      TickEnds(cfg, steps[..n], k);
      RunKeepsContract(cfg, steps[..n]);
      TickStepsLater(steps, k);
      TickStep(cfg, After(cfg, steps[..n]), steps[n]);
    }
  }
}
