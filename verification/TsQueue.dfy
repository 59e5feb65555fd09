/** The TypeScript SDK's telemetry queue.

    JavaScript runs to completion between awaits, so each step below is one
    such stretch of code: from an entry point or a resumed await up to the next
    await.  A run is any sequence of steps. */
module TsQueue {
  import opened Common
  import opened Shipping

  datatype Config = Config(maxQueue: int, batchSize: int, maxRetries: int)

  // Where the tick that is under way is suspended, if one is.
  datatype Flight =
    | Grounded
    | Sending(batch: seq<Event>, statuses: seq<Status>)   // awaiting sender.send
    | Sleeping(batch: seq<Event>, statuses: seq<Status>)  // awaiting the backoff
    | Landed                                              // shipWithRetry returned, tick has yet to go on

  datatype State = State(
    buffer: seq<Event>,
    flushing: bool,
    stopped: bool,
    inFlight: int,
    dropped: int,
    flight: Flight,
    accepted: seq<Event>,   // every event pushed, in order
    settled: seq<Record>,   // every batch finished with, in order
    refused: nat)           // events turned away because the buffer was full

  function Init(): State {
    State([], false, false, 0, 0, Grounded, [], [], 0)
  }

  // Array.splice(0, n) takes at most what is there, and nothing for n <= 0.
  function SpliceCount(cfg: Config, length: nat): (n: nat)
    ensures n <= length
    ensures cfg.batchSize >= 1 && length >= 1 ==> 1 <= n <= cfg.batchSize
    ensures cfg.batchSize <= 0 ==> n == 0
  {
    if cfg.batchSize <= 0 then 0 else if cfg.batchSize < length then cfg.batchSize else length
  }

  function Land(s: State, r: Record): State {
    s.(flight := Landed, settled := s.settled + [r],
       dropped := if r.verdict == Exhausted then s.dropped + |r.batch| else s.dropped)
  }

  // The head of shipWithRetry's loop.
  function NextAttempt(cfg: Config, s: State, batch: seq<Event>, statuses: seq<Status>): State {
    if |statuses| < cfg.maxRetries then s.(flight := Sending(batch, statuses))
    else Land(s, Record(batch, statuses, Exhausted))
  }

  // The head of tick's loop, up to the first await.
  function Continue(cfg: Config, s: State): State {
    if s.buffer == [] then s.(flushing := false, flight := Grounded)
    else
      var n := SpliceCount(cfg, |s.buffer|);
      var batch := s.buffer[..n];
      var s' := s.(buffer := s.buffer[n..], inFlight := s.inFlight + 1);
      // An empty batch, possible only for a non-positive batchSize, is not sent.
      if batch == [] then s'.(flight := Landed) else NextAttempt(cfg, s', batch, [])
  }

  function StartTick(cfg: Config, s: State): State {
    if s.flushing then s else Continue(cfg, s.(flushing := true))
  }

  function Enqueued(cfg: Config, s: State, e: Event): State {
    if s.stopped then s
    else if |s.buffer| >= cfg.maxQueue then s.(dropped := s.dropped + 1, refused := s.refused + 1)
    else
      var s' := s.(buffer := s.buffer + [e], accepted := s.accepted + [e]);
      if |s'.buffer| >= cfg.batchSize then StartTick(cfg, s') else s'
  }

  function Replied(s: State, status: Status): State
    requires s.flight.Sending?
  {
    var Sending(batch, before) := s.flight;
    var statuses := before + [status];
    if Retryable(status) then s.(flight := Sleeping(batch, statuses))
    else Land(s, Record(batch, statuses, Final(status)))
  }

  datatype Step =
    | Enqueue(e: Event)
    | Tick                       // the timer, or flush starting a tick
    | Reply(status: Status)      // sender.send resolves
    | Wake                       // the backoff is over
    | Resume                     // tick goes on after a batch
    | Stop                       // shutdown sets the flag

  predicate Enabled(s: State, step: Step) {
    match step
    case Reply(_) => s.flight.Sending?
    case Wake => s.flight.Sleeping?
    case Resume => s.flight.Landed?
    case _ => true
  }

  function Do(cfg: Config, s: State, step: Step): State
    requires Enabled(s, step)
  {
    match step
    case Enqueue(e) => Enqueued(cfg, s, e)
    case Tick => StartTick(cfg, s)
    case Reply(status) => Replied(s, status)
    case Wake => NextAttempt(cfg, s, s.flight.batch, s.flight.statuses)
    case Resume => Continue(cfg, s.(inFlight := s.inFlight - 1))
    case Stop => s.(stopped := true)
  }

  // --------------------------------------------------------------- invariants

  function Aloft(f: Flight): seq<Event> {
    if f.Sending? || f.Sleeping? then f.batch else []
  }

  predicate ProperBatch(cfg: Config, batch: seq<Event>) {
    1 <= |batch| && (cfg.batchSize >= 1 ==> |batch| <= cfg.batchSize)
  }

  ghost predicate GoodRecord(cfg: Config, r: Record) {
    && r.verdict != Unsendable
    && Explains(r.statuses, r.verdict, cfg.maxRetries)
    && ProperBatch(cfg, r.batch)
  }

  ghost predicate GoodFlight(cfg: Config, f: Flight) {
    match f
    case Sending(batch, statuses) =>
      ProperBatch(cfg, batch) && Underway(statuses, cfg.maxRetries) && |statuses| < cfg.maxRetries
    case Sleeping(batch, statuses) =>
      ProperBatch(cfg, batch) && Underway(statuses, cfg.maxRetries) && statuses != []
    case _ => true
  }

  // Nothing accepted is lost, doubled or reordered.
  ghost predicate InOrder(s: State) {
    s.accepted == Batches(s.settled) + Aloft(s.flight) + s.buffer
  }

  // At most one batch is in flight, and only while a tick is under way.
  predicate SingleFlight(s: State) {
    && (s.flushing <==> !s.flight.Grounded?)
    && s.inFlight == if s.flight.Grounded? then 0 else 1
  }

  predicate Bounded(cfg: Config, s: State) {
    |s.buffer| <= if cfg.maxQueue < 0 then 0 else cfg.maxQueue
  }

  ghost predicate DropsCounted(s: State) {
    s.dropped == s.refused + ExhaustedEvents(s.settled)
  }

  ghost predicate GoodHistory(cfg: Config, s: State) {
    && (forall i :: 0 <= i < |s.settled| ==> GoodRecord(cfg, s.settled[i]))
    && GoodFlight(cfg, s.flight)
  }

  ghost predicate Inv(cfg: Config, s: State) {
    InOrder(s) && SingleFlight(s) && Bounded(cfg, s) && DropsCounted(s) && GoodHistory(cfg, s)
  }

  lemma LandInOrder(s: State, r: Record)
    requires s.accepted == Batches(s.settled) + r.batch + s.buffer
    ensures InOrder(Land(s, r))
  {
    LastIsLast(s.settled, r);
    assert Batches(s.settled) + r.batch + [] == Batches(s.settled) + r.batch;
  }

  lemma NextAttemptInOrder(cfg: Config, s: State, batch: seq<Event>, statuses: seq<Status>)
    requires s.accepted == Batches(s.settled) + batch + s.buffer
    ensures InOrder(NextAttempt(cfg, s, batch, statuses))
  {
    if |statuses| >= cfg.maxRetries {
      LandInOrder(s, Record(batch, statuses, Exhausted));
    }
  }

  lemma ContinueInOrder(cfg: Config, s: State)
    requires s.accepted == Batches(s.settled) + s.buffer
    ensures InOrder(Continue(cfg, s))
  {
    if s.buffer == [] {
      assert Batches(s.settled) + [] + [] == Batches(s.settled) + [];
    } else {
      var n := SpliceCount(cfg, |s.buffer|);
      var batch, rest := s.buffer[..n], s.buffer[n..];
      assert s.buffer == batch + rest;
      ConcatAssociates(Batches(s.settled), batch, rest);
      NextAttemptInOrder(cfg, s.(buffer := rest, inFlight := s.inFlight + 1), batch, []);
    }
  }

  lemma StartTickInOrder(cfg: Config, s: State)
    requires InOrder(s) && SingleFlight(s)
    ensures InOrder(StartTick(cfg, s))
  {
    if !s.flushing {
      assert Batches(s.settled) + [] == Batches(s.settled);
      ContinueInOrder(cfg, s.(flushing := true));
    }
  }

  lemma EnqueuedInOrder(cfg: Config, s: State, e: Event)
    requires InOrder(s) && SingleFlight(s)
    ensures InOrder(Enqueued(cfg, s, e))
  {
    if !s.stopped && |s.buffer| < cfg.maxQueue {
      var s' := s.(buffer := s.buffer + [e], accepted := s.accepted + [e]);
      assert s'.accepted == Batches(s.settled) + Aloft(s.flight) + s'.buffer;
      StartTickInOrder(cfg, s');
    }
  }

  lemma ResumeInOrder(cfg: Config, s: State)
    requires InOrder(s) && s.flight.Landed?
    ensures InOrder(Continue(cfg, s.(inFlight := s.inFlight - 1)))
  {
    assert Batches(s.settled) + [] == Batches(s.settled);
    ContinueInOrder(cfg, s.(inFlight := s.inFlight - 1));
  }

  lemma ContinueCountsDrops(cfg: Config, s: State)
    requires DropsCounted(s)
    ensures DropsCounted(Continue(cfg, s))
  {
  }

  lemma StepCountsDrops(cfg: Config, s: State, step: Step)
    requires DropsCounted(s) && Enabled(s, step)
    ensures DropsCounted(Do(cfg, s, step))
  {
    match step {
      case Enqueue(e) =>
        ContinueCountsDrops(cfg, s.(buffer := s.buffer + [e], accepted := s.accepted + [e], flushing := true));
      case Tick => ContinueCountsDrops(cfg, s.(flushing := true));
      case Resume => ContinueCountsDrops(cfg, s.(inFlight := s.inFlight - 1));
      case Reply(status) => RepliedCountsDrops(s, status);
      case Wake => NextAttemptCountsDrops(cfg, s, s.flight.batch, s.flight.statuses);
      case Stop =>
    }
  }

  lemma RepliedCountsDrops(s: State, status: Status)
    requires DropsCounted(s) && s.flight.Sending?
    ensures DropsCounted(Replied(s, status))
  {
  }

  lemma NextAttemptCountsDrops(cfg: Config, s: State, batch: seq<Event>, statuses: seq<Status>)
    requires DropsCounted(s)
    ensures DropsCounted(NextAttempt(cfg, s, batch, statuses))
  {
  }

  lemma StepKeepsBounds(cfg: Config, s: State, step: Step)
    requires SingleFlight(s) && Bounded(cfg, s) && Enabled(s, step)
    ensures SingleFlight(Do(cfg, s, step)) && Bounded(cfg, Do(cfg, s, step))
  {
  }

  lemma ContinueGood(cfg: Config, s: State)
    requires forall i :: 0 <= i < |s.settled| ==> GoodRecord(cfg, s.settled[i])
    ensures GoodHistory(cfg, Continue(cfg, s))
  {
  }

  lemma NextAttemptGood(cfg: Config, s: State, batch: seq<Event>, statuses: seq<Status>)
    requires forall i :: 0 <= i < |s.settled| ==> GoodRecord(cfg, s.settled[i])
    requires ProperBatch(cfg, batch) && Underway(statuses, cfg.maxRetries)
    ensures GoodHistory(cfg, NextAttempt(cfg, s, batch, statuses))
  {
  }

  lemma StepKeepsHistory(cfg: Config, s: State, step: Step)
    requires GoodHistory(cfg, s) && Enabled(s, step)
    ensures GoodHistory(cfg, Do(cfg, s, step))
  {
    match step {
      case Enqueue(e) =>
        ContinueGood(cfg, s.(buffer := s.buffer + [e], accepted := s.accepted + [e], flushing := true));
      case Tick => ContinueGood(cfg, s.(flushing := true));
      case Reply(status) => LastIsLast(s.flight.statuses, status);
      case Wake => NextAttemptGood(cfg, s, s.flight.batch, s.flight.statuses);
      case Resume => ContinueGood(cfg, s.(inFlight := s.inFlight - 1));
      case Stop =>
    }
  }

  lemma SendInOrder(cfg: Config, s: State, step: Step)
    requires InOrder(s) && Enabled(s, step) && (step.Reply? || step.Wake?)
    ensures InOrder(Do(cfg, s, step))
  {
    match step {
      case Reply(status) =>
        if !Retryable(status) {
          LandInOrder(s, Record(s.flight.batch, s.flight.statuses + [status], Final(status)));
        }
      case Wake => NextAttemptInOrder(cfg, s, s.flight.batch, s.flight.statuses);
    }
  }

  lemma StepKeepsInv(cfg: Config, s: State, step: Step)
    requires Inv(cfg, s) && Enabled(s, step)
    ensures Inv(cfg, Do(cfg, s, step))
  {
    StepCountsDrops(cfg, s, step);
    StepKeepsBounds(cfg, s, step);
    StepKeepsHistory(cfg, s, step);
    match step {
      case Enqueue(e) => EnqueuedInOrder(cfg, s, e);
      case Tick => StartTickInOrder(cfg, s);
      case Resume => ResumeInOrder(cfg, s);
      case Stop =>
      case _ => SendInOrder(cfg, s, step);
    }
  }

  // --------------------------------------------------------------------- runs

  ghost predicate IsRun(cfg: Config, steps: seq<Step>)
    decreases |steps|, 0
  {
    steps == [] || (
      var n := |steps| - 1;
      IsRun(cfg, steps[..n]) && Enabled(After(cfg, steps[..n]), steps[n]))
  }

  ghost function After(cfg: Config, steps: seq<Step>): State
    requires IsRun(cfg, steps)
    decreases |steps|, 1
  {
    if steps == [] then Init() else Do(cfg, After(cfg, steps[..|steps| - 1]), steps[|steps| - 1])
  }

  /** The whole contract of the queue, in every run: the accepted events are
      the settled batches, the batch in flight and the buffer, in that order;
      one flight at a time; the bounds; every batch explained by its answers;
      every drop counted. */
  lemma {:induction false} RunKeepsContract(cfg: Config, steps: seq<Step>)
    requires IsRun(cfg, steps)
    ensures Inv(cfg, After(cfg, steps))
  {
    if steps != [] {
      var n := |steps| - 1;
      RunKeepsContract(cfg, steps[..n]);
      StepKeepsInv(cfg, After(cfg, steps[..n]), steps[n]);
    }
  }

  /** A full batch never waits for the timer: whenever no tick is under way, less than a
      batch is buffered. */
  lemma {:induction false} FullBatchIsFlying(cfg: Config, steps: seq<Step>)
    requires IsRun(cfg, steps)
    ensures NoneWaits(cfg, After(cfg, steps))
  {
    if steps != [] {
      var n := |steps| - 1;
      FullBatchIsFlying(cfg, steps[..n]);
      RunKeepsContract(cfg, steps[..n]);
      StepLetsNoneWait(cfg, After(cfg, steps[..n]), steps[n]);
    }
  }

  predicate NoneWaits(cfg: Config, s: State) {
    !s.flushing ==> s.buffer == [] || |s.buffer| < cfg.batchSize
  }

  lemma StepLetsNoneWait(cfg: Config, s: State, step: Step)
    requires SingleFlight(s) && NoneWaits(cfg, s) && Enabled(s, step)
    ensures NoneWaits(cfg, Do(cfg, s, step))
  {
  }

  // The two tests after which flush answers true: inside its loop, and after
  // its deadline.
  predicate FlushReturnsTrue(s: State) {
    s.buffer == [] && s.inFlight == 0
  }

  /** When flush answers true, every event accepted so far belongs to a batch
      that has been settled; and the test in the loop, which also looks at
      flushing, asks for nothing more. */
  lemma FlushIsSound(cfg: Config, steps: seq<Step>)
    requires IsRun(cfg, steps)
    ensures var s := After(cfg, steps);
            && (FlushReturnsTrue(s) ==> s.accepted == Batches(s.settled) && !s.flushing)
            && (!FlushReturnsTrue(s) ==> s.flight.Landed? || |s.accepted| > |Batches(s.settled)|)
  {
    RunKeepsContract(cfg, steps);
  }

  /** A batchSize that is not positive, which nothing rejects, makes the queue
      useless: no event is ever sent.  With the first event accepted a tick starts
      that never ends, and flush never answers true again. */
  lemma {:induction false} NonPositiveBatchSizeSendsNothing(cfg: Config, steps: seq<Step>)
    requires IsRun(cfg, steps) && cfg.batchSize <= 0
    ensures After(cfg, steps).settled == []
    ensures After(cfg, steps).flight.Grounded? || After(cfg, steps).flight.Landed?
    ensures After(cfg, steps).accepted == After(cfg, steps).buffer
    ensures var s := After(cfg, steps);
            if s.accepted == [] then !s.flushing && s.flight.Grounded? && s.inFlight == 0
            else s.flushing && s.flight.Landed? && s.inFlight == 1 && !FlushReturnsTrue(s)
  {
    if steps != [] {
      NonPositiveBatchSizeSendsNothing(cfg, steps[..|steps| - 1]);
    }
  }

  // -------------------------------------------------------------------- class

  class TelemetryQueue {
    const cfg: Config
    var buffer: seq<Event>
    var flushing: bool
    var stopped: bool
    var inFlight: int
    var dropped: int
    var flight: Flight              // the suspended frame of tick
    ghost var accepted: seq<Event>
    ghost var settled: seq<Record>
    ghost var refused: nat

    ghost function Now(): State
      reads this
    {
      State(buffer, flushing, stopped, inFlight, dropped, flight, accepted, settled, refused)
    }

    constructor (cfg: Config)
      ensures this.cfg == cfg && Now() == Init()
    {
      this.cfg := cfg;
      buffer, flushing, stopped, inFlight, dropped, flight := [], false, false, 0, 0, Grounded;
      accepted, settled, refused := [], [], 0;
    }

    method Enqueue(e: Event)
      modifies this
      ensures Now() == Do(cfg, old(Now()), Step.Enqueue(e))
    {
      if stopped {
        return;
      }
      if |buffer| >= cfg.maxQueue {
        dropped := dropped + 1;
        refused := refused + 1;
        return;
      }
      buffer := buffer + [e];
      accepted := accepted + [e];
      if |buffer| >= cfg.batchSize {
        Tick();
      }
    }

    method Tick()
      modifies this
      ensures Now() == Do(cfg, old(Now()), Step.Tick)
    {
      if flushing {
        return;
      }
      flushing := true;
      TakeNext();
    }

    method TakeNext()
      modifies this
      ensures Now() == Continue(cfg, old(Now()))
    {
      if |buffer| > 0 {
        var n := SpliceCount(cfg, |buffer|);
        var batch := buffer[..n];
        buffer := buffer[n..];
        inFlight := inFlight + 1;
        if |batch| == 0 {
          flight := Landed;
        } else {
          Attempt(batch, []);
        }
      } else {
        flushing := false;
        flight := Grounded;
      }
    }

    method Attempt(batch: seq<Event>, statuses: seq<Status>)
      modifies this
      ensures Now() == NextAttempt(cfg, old(Now()), batch, statuses)
    {
      if |statuses| < cfg.maxRetries {
        flight := Sending(batch, statuses);
      } else {
        dropped := dropped + |batch|;
        flight := Landed;
        settled := settled + [Record(batch, statuses, Exhausted)];
      }
    }

    method Reply(status: Status)
      requires flight.Sending?
      modifies this
      ensures Now() == Do(cfg, old(Now()), Step.Reply(status))
    {
      var statuses := flight.statuses + [status];
      if status == Some(429) || status == None {
        flight := Sleeping(flight.batch, statuses);
        return;
      }
      settled := settled + [Record(flight.batch, statuses, Final(status))];
      flight := Landed;
    }

    method Wake()
      requires flight.Sleeping?
      modifies this
      ensures Now() == Do(cfg, old(Now()), Step.Wake)
    {
      Attempt(flight.batch, flight.statuses);
    }

    method Resume()
      requires flight.Landed?
      modifies this
      ensures Now() == Do(cfg, old(Now()), Step.Resume)
    {
      inFlight := inFlight - 1;
      TakeNext();
    }

    method Stop()
      modifies this
      ensures Now() == Do(cfg, old(Now()), Step.Stop)
    {
      stopped := true;
    }
  }
}
