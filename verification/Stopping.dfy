/** How the flush loop and Shutdown come to an end: stop signals stay, flush tokens
    are spent, and a Shutdown call that nobody disturbs returns. */
module Stopping {
  import opened Common
  import opened IngestProtocol
  import Batch
  import Dedup

  lemma DrainKeepsSignals(cfg: Config, s: State, d: nat, ok: bool, cancelled: bool)
    requires Enabled(cfg, s, Drain(d, ok, cancelled))
    ensures var s' := DoDrain(cfg, s, d, ok, cancelled);
            s'.stopped == s.stopped && s'.token == s.token && |s'.drainers| == |s.drainers|
  {
  }

  // ---------------------------------------------------------------- the signals

  lemma StepKeepsStop(cfg: Config, s: State, step: Step)
    requires |s.shards| == Dedup.SHARD_COUNT && Enabled(cfg, s, step) && (s.stopped <==> s.drainers != [])
    ensures Do(cfg, s, step).stopped <==> Do(cfg, s, step).drainers != []
  {
    match step {
      case Drain(d, ok, cancelled) => DrainKeepsSignals(cfg, s, d, ok, cancelled);
      case _ =>
    }
  }

  /** In every run the stop channel is closed exactly if Shutdown has been called; an
      idle loop can then exit. */
  lemma {:induction false} StopIsSeen(cfg: Config, steps: seq<Step>)
    requires IsRun(cfg, Init(), steps)
    ensures var s := RunFrom(cfg, Init(), steps);
            && (s.stopped <==> s.drainers != [])
            && (s.drainers != [] && s.runner.Idle? ==>
                  Enabled(cfg, s, SeeStop) && Do(cfg, s, SeeStop).runner.Exited?)
  {
    if steps != [] {
      var n := |steps| - 1;
      StopIsSeen(cfg, steps[..n]);
      StepKeepsStop(cfg, RunFrom(cfg, Init(), steps[..n]), steps[n]);
    }
  }

  function Signals(steps: seq<Step>): nat {
    if steps == [] then 0 else Signals(steps[..|steps| - 1]) + if steps[|steps| - 1].Signal? then 1 else 0
  }

  function Wakings(steps: seq<Step>): nat {
    if steps == [] then 0 else Wakings(steps[..|steps| - 1]) + if steps[|steps| - 1].ReceiveToken? then 1 else 0
  }

  lemma StepSpendsToken(cfg: Config, s: State, step: Step)
    requires |s.shards| == Dedup.SHARD_COUNT && Enabled(cfg, s, step)
    ensures step.ReceiveToken? ==> s.token && !Do(cfg, s, step).token
    ensures !step.ReceiveToken? && !step.Signal? ==> Do(cfg, s, step).token == s.token
  {
    match step {
      case Drain(d, ok, cancelled) => DrainKeepsSignals(cfg, s, d, ok, cancelled);
      case _ =>
    }
  }

  /** A signal wakes the loop at most once, and signals that meet a full channel are
      merged into the one that is there. */
  lemma {:induction false} TokensAreSpent(cfg: Config, steps: seq<Step>)
    requires IsRun(cfg, Init(), steps)
    ensures Wakings(steps) + (if RunFrom(cfg, Init(), steps).token then 1 else 0) <= Signals(steps)
  {
    if steps != [] {
      var n := |steps| - 1;
      TokensAreSpent(cfg, steps[..n]);
      StepSpendsToken(cfg, RunFrom(cfg, Init(), steps[..n]), steps[n]);
    }
  }

  // ------------------------------------------------------------ the loop comes back

  // How many steps of its own the loop is at most away from its select.
  function StepsToSelect(cfg: Config, r: Runner): nat
    requires Batch.Normal(cfg.opts)
  {
    var attempts := cfg.opts.retryAttempts;
    match r
    case Woken => attempts + 1
    case Holding(_, attempt) => if attempt < attempts then attempts - attempt else 1
    case _ => 0
  }

  /** Once woken, the loop is back at its select after at most one step more of its own
      than there are insert attempts; at once if the buffer is empty. */
  lemma LoopComesBack(cfg: Config, s: State, step: Step)
    requires Batch.Normal(cfg.opts) && |s.shards| == Dedup.SHARD_COUNT && Enabled(cfg, s, step)
    requires step.Swap? || step.Attempt?
    ensures StepsToSelect(cfg, Do(cfg, s, step).runner) < StepsToSelect(cfg, s.runner)
    ensures step.Swap? && s.buf == [] ==> Do(cfg, s, step) == s.(runner := Idle)
  {
  }

  // ------------------------------------------------------------- Shutdown returns

  // The steps that Shutdown call d has taken.
  function StepsOf(steps: seq<Step>, d: nat): nat {
    if steps == [] then 0
    else
      var step := steps[|steps| - 1];
      StepsOf(steps[..|steps| - 1], d) + if step.Drain? && step.d == d then 1 else 0
  }

  // How many it has still to take at most, if nothing is appended any more.
  function StepsLeft(cfg: Config, s: State, x: Drainer): (n: nat)
    requires Batch.Normal(cfg.opts)
    ensures n <= cfg.opts.retryAttempts + 6
  {
    var attempts := cfg.opts.retryAttempts;
    match x
    case AwaitDone => attempts + 6
    case TestDepth => if s.buf == [] then 1 else attempts + 5
    case MeasureDepth => attempts + 4
    case AboutToSwap(_) => attempts + 3
    case Storing(_, _, attempt) => 2 + if attempt < attempts then attempts - attempt else 1
    case Compare(_) => 2
    case Returned => 0
  }

  lemma OwnStepCounts(cfg: Config, s: State, d: nat, ok: bool, cancelled: bool)
    requires Batch.Normal(cfg.opts) && Enabled(cfg, s, Drain(d, ok, cancelled)) && LeftEmpty(s, d)
    ensures var s' := DoDrain(cfg, s, d, ok, cancelled);
            StepsLeft(cfg, s', s'.drainers[d]) < StepsLeft(cfg, s, s.drainers[d])
  {
  }

  lemma OtherCallCounts(cfg: Config, s: State, k: nat, ok: bool, cancelled: bool, d: nat)
    requires Batch.Normal(cfg.opts) && Enabled(cfg, s, Drain(k, ok, cancelled)) && k != d < |s.drainers|
    ensures var s' := DoDrain(cfg, s, k, ok, cancelled);
            && d < |s'.drainers| && s'.drainers[d] == s.drainers[d]
            && StepsLeft(cfg, s', s'.drainers[d]) <= StepsLeft(cfg, s, s.drainers[d])
  {
  }

  lemma OtherStepCounts(cfg: Config, s: State, step: Step, d: nat)
    requires Batch.Normal(cfg.opts) && |s.shards| == Dedup.SHARD_COUNT && Enabled(cfg, s, step)
    requires d < |s.drainers| && !step.Drain? && !Appends(cfg, s, step)
    ensures var s' := Do(cfg, s, step);
            && d < |s'.drainers| && s'.drainers[d] == s.drainers[d]
            && StepsLeft(cfg, s', s'.drainers[d]) <= StepsLeft(cfg, s, s.drainers[d])
  {
    match step {
      case Enqueue(h, _) => assert DoEnqueue(cfg, s, h).buf == s.buf;
      case Examine(h, now) => assert DoExamine(cfg, s, h, now).buf == s.buf;
      case _ =>
    }
  }

  /** A Shutdown call during which nothing is appended returns, once the loop has
      exited, after at most as many steps of its own as there are insert attempts, and
      six; and then the buffer is empty. */
  lemma {:induction false} QuietShutdownReturns(cfg: Config, s: State, steps: seq<Step>, d: nat)
    requires Batch.Normal(cfg.opts) && |s.shards| == Dedup.SHARD_COUNT
    requires IsRun(cfg, s, steps) && NoAppends(cfg, s, steps)
    requires d < |s.drainers| && s.drainers[d].AwaitDone?
    ensures var s' := RunFrom(cfg, s, steps);
            && d < |s'.drainers|
            && StepsOf(steps, d) + StepsLeft(cfg, s', s'.drainers[d]) <= cfg.opts.retryAttempts + 6
            && (StepsOf(steps, d) == cfg.opts.retryAttempts + 6 ==> s'.drainers[d].Returned?)
            && (s'.drainers[d].Returned? ==> s'.buf == [])
  {
    QuietShutdownEmpties(cfg, s, steps, d);
    if steps != [] {
      var n := |steps| - 1;
      var before := RunFrom(cfg, s, steps[..n]);
      QuietShutdownReturns(cfg, s, steps[..n], d);
      QuietShutdownEmpties(cfg, s, steps[..n], d);
      match steps[n] {
        case Drain(k, ok, cancelled) =>
          if k == d {
            OwnStepCounts(cfg, before, d, ok, cancelled);
          } else {
            OtherCallCounts(cfg, before, k, ok, cancelled, d);
          }
        case _ => OtherStepCounts(cfg, before, steps[n], d);
      }
    }
  }
}
