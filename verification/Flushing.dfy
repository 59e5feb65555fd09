/** The flushes of the concurrent service against the retry loop: whatever happens
    in between, a batch is tried as often, and ends, as `RetryInsert` says. */
module Flushing {
  import opened Common
  import opened Events
  import opened IngestProtocol
  import Batch
  import Dedup
  import RetryInsert

  datatype Outcome = Outcome(ok: bool, cancelled: bool)

  // How the attempts of the flush loop in a run came out, in order.
  function LoopOutcomes(steps: seq<Step>): seq<Outcome> {
    if steps == [] then []
    else
      var n := |steps| - 1;
      LoopOutcomes(steps[..n]) + if steps[n].Attempt? then [Outcome(steps[n].ok, steps[n].cancelled)] else []
  }

  // The same for the steps of Shutdown call d.
  function CallOutcomes(steps: seq<Step>, d: nat): seq<Outcome> {
    if steps == [] then []
    else
      var n := |steps| - 1;
      CallOutcomes(steps[..n], d)
      + if steps[n].Drain? && steps[n].d == d then [Outcome(steps[n].ok, steps[n].cancelled)] else []
  }

  // The writer and the context are the oracle's.
  ghost predicate Foretold(outcomes: seq<Outcome>, o: RetryInsert.Oracle) {
    forall k :: 0 <= k < |outcomes| ==> outcomes[k] == Outcome(o.writes(k), o.cancelled(k))
  }

  lemma ForetoldBefore(outcomes: seq<Outcome>, last: Outcome, o: RetryInsert.Oracle)
    requires Foretold(outcomes + [last], o)
    ensures Foretold(outcomes, o) && last == Outcome(o.writes(|outcomes|), o.cancelled(|outcomes|))
  {
    assert forall k :: 0 <= k < |outcomes| ==> (outcomes + [last])[k] == outcomes[k];
    assert (outcomes + [last])[|outcomes|] == last;
  }

  function CallsFor(cfg: Config, o: RetryInsert.Oracle): (n: nat)
    requires Batch.Normal(cfg.opts)
    ensures n >= 1
  {
    RetryInsert.Calls(o, cfg.opts.retryAttempts, 0)
  }

  // The batch is where the retry loop leaves it, and nothing else was settled.
  ghost predicate SettledAs(cfg: Config, s: State, s': State, batch: seq<Event>, o: RetryInsert.Oracle) {
    if RetryInsert.Stored(o, cfg.opts.retryAttempts)
    then s'.ledger.inserted == s.ledger.inserted + batch && s'.ledger.dropped == s.ledger.dropped
    else s'.ledger.inserted == s.ledger.inserted && s'.ledger.dropped == s.ledger.dropped + batch
  }

  ghost predicate NothingSettled(s: State, s': State) {
    s'.ledger.inserted == s.ledger.inserted && s'.ledger.dropped == s.ledger.dropped
  }

  // ------------------------------------------------------------------ the loop

  // An attempt that the retry loop goes on after leaves the batch with the flush;
  // the one that it ends with settles the batch.
  lemma AttemptFollows(cfg: Config, s: State, n: nat, o: RetryInsert.Oracle)
    requires Batch.Normal(cfg.opts) && s.runner.Holding? && s.runner.attempt == n < CallsFor(cfg, o)
    ensures var s' := DoAttempt(cfg, s, o.writes(n), o.cancelled(n));
            if n + 1 < CallsFor(cfg, o) then s'.runner == Holding(s.runner.batch, n + 1) && NothingSettled(s, s')
            else s'.runner == Idle && SettledAs(cfg, s, s', s.runner.batch, o)
  {
    assert n + 1 < CallsFor(cfg, o) <==> RetryInsert.GoesOn(o, cfg.opts.retryAttempts, n);
  }

  // No other step touches a batch that the loop holds.
  lemma OthersLeaveLoop(cfg: Config, s: State, step: Step)
    requires |s.shards| == Dedup.SHARD_COUNT && Enabled(cfg, s, step) && s.runner.Holding? && !step.Attempt?
    ensures Do(cfg, s, step).runner == s.runner
  {
    if step.Drain? {
      DrainTakesAllOrNothing(cfg, s, step.d, step.ok, step.cancelled);
    }
  }

  lemma {:induction false} LoopHolds(cfg: Config, s: State, steps: seq<Step>, o: RetryInsert.Oracle)
    requires Batch.Normal(cfg.opts) && |s.shards| == Dedup.SHARD_COUNT && IsRun(cfg, s, steps)
    requires s.runner.Holding? && s.runner.attempt == 0
    requires Foretold(LoopOutcomes(steps), o) && |LoopOutcomes(steps)| < CallsFor(cfg, o)
    ensures RunFrom(cfg, s, steps).runner == Holding(s.runner.batch, |LoopOutcomes(steps)|)
  {
    if steps != [] {
      var n, step := |steps| - 1, steps[|steps| - 1];
      var before := RunFrom(cfg, s, steps[..n]);
      if step.Attempt? {
        ForetoldBefore(LoopOutcomes(steps[..n]), Outcome(step.ok, step.cancelled), o);
        LoopHolds(cfg, s, steps[..n], o);
        AttemptFollows(cfg, before, |LoopOutcomes(steps[..n])|, o);
      } else {
        assert LoopOutcomes(steps) == LoopOutcomes(steps[..n]);
        LoopHolds(cfg, s, steps[..n], o);
        OthersLeaveLoop(cfg, before, step);
      }
    }
  }

  /** From the swap of the flush loop on, in every run: each attempt before the last
      one that the retry loop makes for the oracle leaves the whole batch to be tried
      again, and the last one puts it with the inserted events if and only if the
      retry loop counts it as stored, and with the dropped ones if not. */
  lemma LoopFollowsRetryInsert(cfg: Config, s: State, steps: seq<Step>, ok: bool, cancelled: bool,
                               o: RetryInsert.Oracle)
    requires Batch.Normal(cfg.opts) && |s.shards| == Dedup.SHARD_COUNT && s.runner.Woken? && s.buf != []
    requires var taken := Do(cfg, s, Swap);
             && IsRun(cfg, taken, steps) && |LoopOutcomes(steps)| < CallsFor(cfg, o)
             && Enabled(cfg, RunFrom(cfg, taken, steps), Attempt(ok, cancelled))
    requires Foretold(LoopOutcomes(steps) + [Outcome(ok, cancelled)], o)
    ensures var before := RunFrom(cfg, Do(cfg, s, Swap), steps);
            var after := Do(cfg, before, Attempt(ok, cancelled));
            if |LoopOutcomes(steps)| + 1 < CallsFor(cfg, o)
            then after.runner == Holding(s.buf, |LoopOutcomes(steps)| + 1) && NothingSettled(before, after)
            else after.runner == Idle && SettledAs(cfg, before, after, s.buf, o)
  {
    ForetoldBefore(LoopOutcomes(steps), Outcome(ok, cancelled), o);
    LoopHolds(cfg, Do(cfg, s, Swap), steps, o);
    AttemptFollows(cfg, RunFrom(cfg, Do(cfg, s, Swap), steps), |LoopOutcomes(steps)|, o);
  }

  // ------------------------------------------------------------ Shutdown calls

  ghost predicate Stores(s: State, d: nat, batch: seq<Event>, n: nat) {
    d < |s.drainers| && s.drainers[d].Storing? && s.drainers[d].batch == batch && s.drainers[d].attempt == n
  }

  lemma CallFollows(cfg: Config, s: State, d: nat, batch: seq<Event>, n: nat, o: RetryInsert.Oracle)
    requires Batch.Normal(cfg.opts) && Stores(s, d, batch, n) && n < CallsFor(cfg, o)
    ensures var s' := DoDrain(cfg, s, d, o.writes(n), o.cancelled(n));
            if n + 1 < CallsFor(cfg, o) then Stores(s', d, batch, n + 1) && NothingSettled(s, s')
            else s'.drainers[d] == Compare(s.drainers[d].before) && SettledAs(cfg, s, s', batch, o)
  {
    assert n + 1 < CallsFor(cfg, o) <==> RetryInsert.GoesOn(o, cfg.opts.retryAttempts, n);
  }

  lemma OtherCallsLeaveIt(cfg: Config, s: State, k: nat, ok: bool, cancelled: bool, d: nat)
    requires Enabled(cfg, s, Drain(k, ok, cancelled)) && k != d < |s.drainers|
    ensures var s' := DoDrain(cfg, s, k, ok, cancelled);
            |s'.drainers| == |s.drainers| && s'.drainers[d] == s.drainers[d]
  {
  }

  lemma OthersLeaveCall(cfg: Config, s: State, step: Step, d: nat)
    requires |s.shards| == Dedup.SHARD_COUNT && Enabled(cfg, s, step) && d < |s.drainers|
    requires !(step.Drain? && step.d == d)
    ensures var s' := Do(cfg, s, step);
            d < |s'.drainers| && s'.drainers[d] == s.drainers[d]
  {
    match step {
      case Drain(k, ok, cancelled) => OtherCallsLeaveIt(cfg, s, k, ok, cancelled, d);
      case _ =>
    }
  }

  lemma {:induction false} CallHolds(cfg: Config, s: State, steps: seq<Step>, d: nat, batch: seq<Event>,
                                     o: RetryInsert.Oracle)
    requires Batch.Normal(cfg.opts) && |s.shards| == Dedup.SHARD_COUNT && IsRun(cfg, s, steps)
    requires Stores(s, d, batch, 0)
    requires Foretold(CallOutcomes(steps, d), o) && |CallOutcomes(steps, d)| < CallsFor(cfg, o)
    ensures Stores(RunFrom(cfg, s, steps), d, batch, |CallOutcomes(steps, d)|)
  {
    if steps != [] {
      var n, step := |steps| - 1, steps[|steps| - 1];
      var before := RunFrom(cfg, s, steps[..n]);
      if step.Drain? && step.d == d {
        ForetoldBefore(CallOutcomes(steps[..n], d), Outcome(step.ok, step.cancelled), o);
        CallHolds(cfg, s, steps[..n], d, batch, o);
        CallFollows(cfg, before, d, batch, |CallOutcomes(steps[..n], d)|, o);
      } else {
        assert CallOutcomes(steps, d) == CallOutcomes(steps[..n], d);
        CallHolds(cfg, s, steps[..n], d, batch, o);
        OthersLeaveCall(cfg, before, step, d);
      }
    }
  }

  /** The same for the flush of a Shutdown call, from its swap on. */
  lemma ShutdownFollowsRetryInsert(cfg: Config, s: State, swap: Step, steps: seq<Step>, ok: bool, cancelled: bool,
                                   d: nat, o: RetryInsert.Oracle)
    requires Batch.Normal(cfg.opts) && |s.shards| == Dedup.SHARD_COUNT && Enabled(cfg, s, swap)
    requires swap.Drain? && swap.d == d && s.drainers[d].AboutToSwap? && s.buf != []
    requires var taken := Do(cfg, s, swap);
             && IsRun(cfg, taken, steps) && |CallOutcomes(steps, d)| < CallsFor(cfg, o)
             && Enabled(cfg, RunFrom(cfg, taken, steps), Drain(d, ok, cancelled))
    requires Foretold(CallOutcomes(steps, d) + [Outcome(ok, cancelled)], o)
    ensures var before := RunFrom(cfg, Do(cfg, s, swap), steps);
            var after := Do(cfg, before, Drain(d, ok, cancelled));
            if |CallOutcomes(steps, d)| + 1 < CallsFor(cfg, o)
            then Stores(after, d, s.buf, |CallOutcomes(steps, d)| + 1) && NothingSettled(before, after)
            else after.drainers[d].Compare? && SettledAs(cfg, before, after, s.buf, o)
  {
    ForetoldBefore(CallOutcomes(steps, d), Outcome(ok, cancelled), o);
    CallHolds(cfg, Do(cfg, s, swap), steps, d, s.buf, o);
    CallFollows(cfg, RunFrom(cfg, Do(cfg, s, swap), steps), d, s.buf, |CallOutcomes(steps, d)|, o);
  }
}
