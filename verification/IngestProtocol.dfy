/** The ingest service as a concurrent protocol.

    Any number of request handlers run beside one flush loop, any number of
    Shutdown calls and the eviction sweep.  Every critical section, channel
    operation and insert attempt is a step of its own; a run is any sequence of
    enabled steps. */
module IngestProtocol {
  import opened Common
  import opened Events
  import Dedup
  import Batch

  datatype Handler =
    | Checking(todo: seq<Event>, kept: seq<Event>)  // in the loop of handleEvents
    | Signalling                                    // appended, saw reachedMax, has yet to signal
    | Finished

  datatype Runner =
    | Idle                                          // at the select
    | Woken                                         // received a tick or a token, has yet to swap
    | Holding(batch: seq<Event>, attempt: nat)
    | Exited

  // One call of Shutdown, after it closed the stop channel.
  datatype Drainer =
    | AwaitDone
    | TestDepth
    | MeasureDepth
    | AboutToSwap(before: nat)
    | Storing(before: nat, batch: seq<Event>, attempt: nat)
    | Compare(before: nat)
    | Returned

  // Where every event that entered a handler's loop has got to, besides those
  // still in a handler, in the buffer or held by a flush.
  datatype Ledger = Ledger(
    received: seq<Event>,
    duplicate: seq<Event>,
    refused: seq<Event>,     // answered 429
    lost: seq<Event>,        // thrown away with a 400
    enqueued: seq<Event>,    // appended to the buffer, in order
    taken: seq<Event>,       // swapped out of the buffer, in order
    inserted: seq<Event>,
    dropped: seq<Event>)     // given up after the retries

  datatype Metrics = Metrics(received: nat, inserted: nat, dropped: nat)

  datatype Config = Config(dedup: Dedup.Params, opts: Batch.Options)

  datatype State = State(
    clock: Option<int>,      // what it showed when last looked at
    calls: seq<Dedup.Call>,
    shards: seq<Dedup.Shard>,
    handlers: seq<Handler>,
    buf: seq<Event>,
    token: bool,
    stopped: bool,
    runner: Runner,
    drainers: seq<Drainer>,
    ledger: Ledger,
    metrics: Metrics)

  function Init(): (s: State)
    ensures |s.shards| == Dedup.SHARD_COUNT
  {
    State(None, [], Dedup.EmptyShards(), [], [], false, false, Idle, [],
          Ledger([], [], [], [], [], [], [], []), Metrics(0, 0, 0))
  }

  datatype Step =
    | Begin(events: seq<Event>)
    | Examine(h: nat, now: int)
    | Enqueue(h: nat, now: int)
    | Signal(h: nat)
    | Sweep(now: int)
    | Tick
    | ReceiveToken
    | SeeStop
    | Swap
    | Attempt(ok: bool, cancelled: bool)
    | CallShutdown
    | Drain(d: nat, ok: bool, cancelled: bool)

  predicate ClockMovesOn(s: State, now: int) {
    s.clock.Some? ==> s.clock.value <= now
  }

  predicate Enabled(cfg: Config, s: State, step: Step) {
    match step
    case Begin(events) => events != []
    case Examine(h, now) =>
      h < |s.handlers| && s.handlers[h].Checking? && s.handlers[h].todo != [] && ClockMovesOn(s, now)
    case Enqueue(h, now) => AllChecked(s, h) && ClockMovesOn(s, now)
    case Signal(h) => h < |s.handlers| && s.handlers[h].Signalling?
    case Sweep(now) => ClockMovesOn(s, now)
    case Tick => s.runner.Idle?
    case ReceiveToken => s.runner.Idle? && s.token
    case SeeStop => s.runner.Idle? && s.stopped
    case Swap => s.runner.Woken?
    case Attempt(_, _) => s.runner.Holding?
    case CallShutdown => true
    case Drain(d, _, _) =>
      d < |s.drainers| && !s.drainers[d].Returned? && (s.drainers[d].AwaitDone? ==> s.runner.Exited?)
  }

  // One insert attempt of RetryInsert: stored, given up, or to be tried again.
  datatype Verdict = Stored | GivenUp | Again

  function Judge(attempt: nat, ok: bool, cancelled: bool, attempts: int): Verdict {
    if ok then Stored
    else if attempt + 1 >= attempts || cancelled then GivenUp
    else Again
  }

  function SetHandler(s: State, h: nat, x: Handler): State
    requires h < |s.handlers|
  {
    s.(handlers := s.handlers[h := x])
  }

  function SetDrainer(s: State, d: nat, x: Drainer): State
    requires d < |s.drainers|
  {
    s.(drainers := s.drainers[d := x])
  }

  function Settle(s: State, batch: seq<Event>, stored: bool): State {
    var l, m := s.ledger, s.metrics;
    if stored then
      s.(ledger := l.(inserted := l.inserted + batch), metrics := m.(inserted := m.inserted + |batch|))
    else
      s.(ledger := l.(dropped := l.dropped + batch), metrics := m.(dropped := m.dropped + |batch|))
  }

  function TakeAll(s: State): State {
    s.(buf := [], ledger := s.ledger.(taken := s.ledger.taken + s.buf))
  }

  function DoExamine(cfg: Config, s: State, h: nat, now: int): State
    requires |s.shards| == Dedup.SHARD_COUNT && Enabled(cfg, s, Examine(h, now))
  {
    var Checking(todo, kept) := s.handlers[h];
    var e := todo[0];
    var l, m := s.ledger, s.metrics;
    if !e.Validates() then
      SetHandler(s, h, Finished).(ledger := l.(lost := l.lost + kept + todo))
    else
      var (shards, dup) := Dedup.Ask(s.shards, e.requestId, now, cfg.dedup);
      var s' := s.(shards := shards, calls := s.calls + [Dedup.Asked(e.requestId, now)]);
      if dup then
        SetHandler(s', h, Checking(todo[1..], kept))
          .(ledger := l.(duplicate := l.duplicate + [e]), metrics := m.(dropped := m.dropped + 1))
      else
        SetHandler(s', h, Checking(todo[1..], kept + [e]))
  }

  predicate AllChecked(s: State, h: nat) {
    h < |s.handlers| && s.handlers[h].Checking? && s.handlers[h].todo == []
  }

  // The critical section of Add, with the answer to the client.  It does not look
  // at the clock; what that shows is noted for the runs' sake.
  function DoEnqueue(cfg: Config, s: State, h: nat): State
    requires AllChecked(s, h)
  {
    var kept := s.handlers[h].kept;
    var l, m := s.ledger, s.metrics;
    if kept == [] then
      SetHandler(s, h, Finished)
    else if !Batch.Fits(cfg.opts, s.buf, kept) then
      SetHandler(s, h, Finished)
        .(ledger := l.(refused := l.refused + kept), metrics := m.(dropped := m.dropped + |kept|))
    else
      SetHandler(s, h, if Batch.ReachesMax(cfg.opts, s.buf, kept) then Signalling else Finished)
        .(buf := Batch.Appended(cfg.opts, s.buf, kept), ledger := l.(enqueued := l.enqueued + kept))
  }

  function DoAttempt(cfg: Config, s: State, ok: bool, cancelled: bool): State
    requires s.runner.Holding?
  {
    var Holding(batch, attempt) := s.runner;
    match Judge(attempt, ok, cancelled, cfg.opts.retryAttempts)
    case Stored => Settle(s, batch, true).(runner := Idle)
    case GivenUp => Settle(s, batch, false).(runner := Idle)
    case Again => s.(runner := Holding(batch, attempt + 1))
  }

  function DoDrain(cfg: Config, s: State, d: nat, ok: bool, cancelled: bool): State
    requires Enabled(cfg, s, Drain(d, ok, cancelled))
  {
    match s.drainers[d]
    case AwaitDone => SetDrainer(s, d, TestDepth)
    case TestDepth => SetDrainer(s, d, if |s.buf| > 0 then MeasureDepth else Returned)
    case MeasureDepth => SetDrainer(s, d, AboutToSwap(|s.buf|))
    case AboutToSwap(before) =>
      if s.buf == [] then SetDrainer(s, d, Compare(before))
      else SetDrainer(TakeAll(s), d, Storing(before, s.buf, 0))
    case Storing(before, batch, attempt) =>
      (match Judge(attempt, ok, cancelled, cfg.opts.retryAttempts)
       case Stored => SetDrainer(Settle(s, batch, true), d, Compare(before))
       case GivenUp => SetDrainer(Settle(s, batch, false), d, Compare(before))
       case Again => SetDrainer(s, d, Storing(before, batch, attempt + 1)))
    case Compare(before) => SetDrainer(s, d, if |s.buf| >= before then Returned else TestDepth)
  }

  function Do(cfg: Config, s: State, step: Step): (s': State)
    requires |s.shards| == Dedup.SHARD_COUNT && Enabled(cfg, s, step)
    ensures |s'.shards| == Dedup.SHARD_COUNT
  {
    match step
    case Begin(events) =>
      s.(handlers := s.handlers + [Checking(events, [])],
         ledger := s.ledger.(received := s.ledger.received + events),
         metrics := s.metrics.(received := s.metrics.received + |events|))
    case Examine(h, now) => DoExamine(cfg, s, h, now).(clock := Some(now))
    case Enqueue(h, now) => DoEnqueue(cfg, s, h).(clock := Some(now))
    case Signal(h) => SetHandler(s, h, Finished).(token := true)
    case Sweep(now) =>
      s.(clock := Some(now), shards := Dedup.Swept(s.shards, now, cfg.dedup), calls := s.calls + [Dedup.Sweep(now)])
    case Tick => s.(runner := Woken)
    case ReceiveToken => s.(runner := Woken, token := false)
    case SeeStop => s.(runner := Exited)
    case Swap => if s.buf == [] then s.(runner := Idle) else TakeAll(s).(runner := Holding(s.buf, 0))
    case Attempt(ok, cancelled) => DoAttempt(cfg, s, ok, cancelled)
    case CallShutdown => s.(stopped := true, drainers := s.drainers + [AwaitDone])
    case Drain(d, ok, cancelled) => DoDrain(cfg, s, d, ok, cancelled)
  }

  // ------------------------------------------------------------------- totals

  function InHandler(m: Measure<Event>, h: Handler): int {
    if h.Checking? then m(h.kept) + m(h.todo) else 0
  }

  function InRunner(m: Measure<Event>, r: Runner): int {
    if r.Holding? then m(r.batch) else 0
  }

  function InDrainer(m: Measure<Event>, d: Drainer): int {
    if d.Storing? then m(d.batch) else 0
  }

  function InHandlers(m: Measure<Event>, s: seq<Handler>): int {
    if s == [] then 0 else InHandlers(m, s[..|s| - 1]) + InHandler(m, s[|s| - 1])
  }

  function InDrainers(m: Measure<Event>, s: seq<Drainer>): int {
    if s == [] then 0 else InDrainers(m, s[..|s| - 1]) + InDrainer(m, s[|s| - 1])
  }

  lemma HandlersAppend(m: Measure<Event>, s: seq<Handler>, x: Handler)
    ensures InHandlers(m, s + [x]) == InHandlers(m, s) + InHandler(m, x)
  {
  }

  lemma DrainersAppend(m: Measure<Event>, s: seq<Drainer>, x: Drainer)
    ensures InDrainers(m, s + [x]) == InDrainers(m, s) + InDrainer(m, x)
  {
  }

  lemma {:induction false} HandlersUpdate(m: Measure<Event>, s: seq<Handler>, i: nat, x: Handler)
    requires i < |s|
    ensures InHandlers(m, s[i := x]) == InHandlers(m, s) + InHandler(m, x) - InHandler(m, s[i])
  {
    var n := |s| - 1;
    if i < n {
      HandlersUpdate(m, s[..n], i, x);
      assert s[i := x][..n] == s[..n][i := x];
    } else {
      assert s[i := x][..n] == s[..n];
    }
  }

  lemma {:induction false} DrainersUpdate(m: Measure<Event>, s: seq<Drainer>, i: nat, x: Drainer)
    requires i < |s|
    ensures InDrainers(m, s[i := x]) == InDrainers(m, s) + InDrainer(m, x) - InDrainer(m, s[i])
  {
    var n := |s| - 1;
    if i < n {
      DrainersUpdate(m, s[..n], i, x);
      assert s[i := x][..n] == s[..n][i := x];
    } else {
      assert s[i := x][..n] == s[..n];
    }
  }

  // --------------------------------------------------------------- invariants

  // The buffer is bounded, and events leave it in the order they came.
  ghost predicate Bounded(cfg: Config, s: State) {
    && |s.buf| <= cfg.opts.capacity
    && s.ledger.enqueued == s.ledger.taken + s.buf
  }

  // No lost wake-up.
  ghost predicate WillFlush(cfg: Config, s: State) {
    !s.runner.Exited? && |s.buf| >= cfg.opts.maxEvents ==>
      || s.token
      || s.runner.Woken?
      || exists h :: 0 <= h < |s.handlers| && s.handlers[h].Signalling?
  }

  function Settled(m: Measure<Event>, l: Ledger): int {
    m(l.duplicate) + m(l.refused) + m(l.lost) + m(l.inserted) + m(l.dropped)
  }

  function Pending(m: Measure<Event>, s: State): int {
    m(s.buf) + InRunner(m, s.runner) + InDrainers(m, s.drainers) + InHandlers(m, s.handlers)
  }

  // Every event received is in exactly one place: by any measure, as much was
  // received as is found in all the places together.
  ghost predicate ConservedBy(m: Measure<Event>, s: State) {
    m(s.ledger.received) == Settled(m, s.ledger) + Pending(m, s)
  }

  ghost predicate Conserved(s: State) {
    forall m: Measure<Event> :: Additive(m) ==> ConservedBy(m, s)
  }

  ghost predicate Counted(s: State) {
    && s.metrics.received == |s.ledger.received|
    && s.metrics.inserted == |s.ledger.inserted|
    && s.metrics.dropped == |s.ledger.duplicate| + |s.ledger.refused| + |s.ledger.dropped|
  }

  ghost predicate Remembered(cfg: Config, s: State) {
    && s.shards == Dedup.After(s.calls, cfg.dedup)
    && Dedup.Nondecreasing(s.calls)
    && (s.calls != [] ==> s.clock.Some? && s.calls[|s.calls| - 1].now <= s.clock.value)
  }

  ghost predicate Inv(cfg: Config, s: State) {
    && |s.shards| == Dedup.SHARD_COUNT
    && Bounded(cfg, s)
    && WillFlush(cfg, s)
    && Conserved(s)
    && Counted(s)
    && Remembered(cfg, s)
  }

  lemma BoundedKept(cfg: Config, s: State, step: Step)
    requires |s.shards| == Dedup.SHARD_COUNT && Batch.Normal(cfg.opts) && Bounded(cfg, s) && Enabled(cfg, s, step)
    ensures Bounded(cfg, Do(cfg, s, step))
  {
    match step {
      case Drain(d, ok, cancelled) => DrainBounded(cfg, s, d, ok, cancelled);
      case _ =>
    }
  }

  lemma DrainBounded(cfg: Config, s: State, d: nat, ok: bool, cancelled: bool)
    requires Batch.Normal(cfg.opts) && Bounded(cfg, s) && Enabled(cfg, s, Drain(d, ok, cancelled))
    ensures Bounded(cfg, DoDrain(cfg, s, d, ok, cancelled))
  {
  }

  lemma EnqueueWillFlush(cfg: Config, s: State, h: nat)
    requires WillFlush(cfg, s) && AllChecked(s, h)
    ensures WillFlush(cfg, DoEnqueue(cfg, s, h))
  {
    var s' := DoEnqueue(cfg, s, h);
    if |s'.buf| >= cfg.opts.maxEvents && s'.buf != s.buf {
      assert s'.handlers[h].Signalling?;
    } else if k :| 0 <= k < |s.handlers| && s.handlers[k].Signalling? {
      assert s'.handlers[k] == s.handlers[k];
    }
  }

  lemma DrainWillFlush(cfg: Config, s: State, d: nat, ok: bool, cancelled: bool)
    requires WillFlush(cfg, s) && Enabled(cfg, s, Drain(d, ok, cancelled))
    ensures WillFlush(cfg, DoDrain(cfg, s, d, ok, cancelled))
  {
    var s' := DoDrain(cfg, s, d, ok, cancelled);
    assert s'.handlers == s.handlers && s'.token == s.token && s'.runner == s.runner && |s'.buf| <= |s.buf|;
  }

  lemma WillFlushKept(cfg: Config, s: State, step: Step)
    requires |s.shards| == Dedup.SHARD_COUNT && Batch.Normal(cfg.opts) && WillFlush(cfg, s) && Enabled(cfg, s, step)
    ensures WillFlush(cfg, Do(cfg, s, step))
  {
    var s' := Do(cfg, s, step);
    if step.Enqueue? {
      EnqueueWillFlush(cfg, s, step.h);
    } else if step.Drain? {
      DrainWillFlush(cfg, s, step.d, step.ok, step.cancelled);
    } else if h :| 0 <= h < |s.handlers| && s.handlers[h].Signalling? {
      assert step == Signal(h) || s'.handlers[h] == s.handlers[h];
    }
  }

  // A step of handler h that only moves events between it, the buffer and the
  // ledger.
  ghost predicate HandlerMoves(m: Measure<Event>, s: State, s': State, h: nat) {
    && h < |s.handlers| == |s'.handlers|
    && s'.handlers == s.handlers[h := s'.handlers[h]]
    && s'.runner == s.runner && s'.drainers == s.drainers
    && s'.ledger.received == s.ledger.received
    && Settled(m, s'.ledger) + m(s'.buf) + InHandler(m, s'.handlers[h])
      == Settled(m, s.ledger) + m(s.buf) + InHandler(m, s.handlers[h])
  }

  ghost predicate DrainerMoves(m: Measure<Event>, s: State, s': State, d: nat) {
    && d < |s.drainers| == |s'.drainers|
    && s'.drainers == s.drainers[d := s'.drainers[d]]
    && s'.runner == s.runner && s'.handlers == s.handlers
    && s'.ledger.received == s.ledger.received
    && Settled(m, s'.ledger) + m(s'.buf) + InDrainer(m, s'.drainers[d])
      == Settled(m, s.ledger) + m(s.buf) + InDrainer(m, s.drainers[d])
  }

  lemma HandlerConserves(m: Measure<Event>, s: State, s': State, h: nat)
    requires HandlerMoves(m, s, s', h) && ConservedBy(m, s)
    ensures ConservedBy(m, s')
  {
    HandlersUpdate(m, s.handlers, h, s'.handlers[h]);
  }

  lemma DrainerConserves(m: Measure<Event>, s: State, s': State, d: nat)
    requires DrainerMoves(m, s, s', d) && ConservedBy(m, s)
    ensures ConservedBy(m, s')
  {
    DrainersUpdate(m, s.drainers, d, s'.drainers[d]);
  }

  lemma ExamineConserves(cfg: Config, s: State, h: nat, now: int, m: Measure<Event>)
    requires |s.shards| == Dedup.SHARD_COUNT && Enabled(cfg, s, Examine(h, now)) && Additive(m)
    ensures HandlerMoves(m, s, DoExamine(cfg, s, h, now), h)
  {
    var todo := s.handlers[h].todo;
    assert todo == [todo[0]] + todo[1..];
  }

  lemma EnqueueConserves(cfg: Config, s: State, h: nat, m: Measure<Event>)
    requires AllChecked(s, h) && Additive(m)
    ensures HandlerMoves(m, s, DoEnqueue(cfg, s, h), h)
  {
  }

  lemma StoringConserves(cfg: Config, s: State, d: nat, ok: bool, cancelled: bool, m: Measure<Event>)
    requires Enabled(cfg, s, Drain(d, ok, cancelled)) && s.drainers[d].Storing? && Additive(m)
    ensures DrainerMoves(m, s, DoDrain(cfg, s, d, ok, cancelled), d)
  {
    SettleAdds(m, s, s.drainers[d].batch, ok);
  }

  lemma DrainConserves(cfg: Config, s: State, d: nat, ok: bool, cancelled: bool, m: Measure<Event>)
    requires Enabled(cfg, s, Drain(d, ok, cancelled)) && !s.drainers[d].Storing? && Additive(m)
    ensures DrainerMoves(m, s, DoDrain(cfg, s, d, ok, cancelled), d)
  {
  }

  lemma SettleAdds(m: Measure<Event>, s: State, batch: seq<Event>, stored: bool)
    requires Additive(m)
    ensures Settled(m, Settle(s, batch, stored).ledger) == Settled(m, s.ledger) + m(batch)
  {
  }

  lemma AttemptConserves(cfg: Config, s: State, ok: bool, cancelled: bool, m: Measure<Event>)
    requires s.runner.Holding? && Additive(m) && ConservedBy(m, s)
    ensures ConservedBy(m, DoAttempt(cfg, s, ok, cancelled))
  {
  }

  lemma HandlerStepConserves(cfg: Config, s: State, step: Step, m: Measure<Event>)
    requires |s.shards| == Dedup.SHARD_COUNT && Enabled(cfg, s, step) && Additive(m) && ConservedBy(m, s)
    requires step.Begin? || step.Examine? || step.Enqueue? || step.Signal?
    ensures ConservedBy(m, Do(cfg, s, step))
  {
    match step {
      case Begin(events) => HandlersAppend(m, s.handlers, Checking(events, []));
      case Examine(h, now) =>
        ExamineConserves(cfg, s, h, now, m);
        HandlerConserves(m, s, DoExamine(cfg, s, h, now), h);
      case Enqueue(h, _) =>
        EnqueueConserves(cfg, s, h, m);
        HandlerConserves(m, s, DoEnqueue(cfg, s, h), h);
      case Signal(h) => HandlersUpdate(m, s.handlers, h, Finished);
    }
  }

  lemma StepConserves(cfg: Config, s: State, step: Step, m: Measure<Event>)
    requires |s.shards| == Dedup.SHARD_COUNT && Enabled(cfg, s, step) && Additive(m) && ConservedBy(m, s)
    ensures ConservedBy(m, Do(cfg, s, step))
  {
    match step {
      case Begin(_) => HandlerStepConserves(cfg, s, step, m);
      case Examine(_, _) => HandlerStepConserves(cfg, s, step, m);
      case Enqueue(_, _) => HandlerStepConserves(cfg, s, step, m);
      case Signal(_) => HandlerStepConserves(cfg, s, step, m);
      case CallShutdown => DrainersAppend(m, s.drainers, AwaitDone);
      case Drain(d, ok, cancelled) =>
        if s.drainers[d].Storing? {
          StoringConserves(cfg, s, d, ok, cancelled, m);
        } else {
          DrainConserves(cfg, s, d, ok, cancelled, m);
        }
        DrainerConserves(m, s, DoDrain(cfg, s, d, ok, cancelled), d);
      case Attempt(ok, cancelled) => AttemptConserves(cfg, s, ok, cancelled, m);
      case _ =>
    }
  }

  lemma StepConservesAll(cfg: Config, s: State, step: Step)
    requires |s.shards| == Dedup.SHARD_COUNT && Enabled(cfg, s, step) && Conserved(s)
    ensures Conserved(Do(cfg, s, step))
  {
    forall m: Measure<Event> | Additive(m)
      ensures ConservedBy(m, Do(cfg, s, step))
    {
      StepConserves(cfg, s, step, m);
    }
  }

  lemma DrainCounts(cfg: Config, s: State, d: nat, ok: bool, cancelled: bool)
    requires Enabled(cfg, s, Drain(d, ok, cancelled)) && Counted(s)
    ensures Counted(DoDrain(cfg, s, d, ok, cancelled))
  {
  }

  lemma EnqueueCounts(cfg: Config, s: State, h: nat)
    requires AllChecked(s, h) && Counted(s)
    ensures Counted(DoEnqueue(cfg, s, h))
  {
  }

  lemma ExamineCounts(cfg: Config, s: State, h: nat, now: int)
    requires |s.shards| == Dedup.SHARD_COUNT && Enabled(cfg, s, Examine(h, now)) && Counted(s)
    ensures Counted(DoExamine(cfg, s, h, now))
  {
  }

  lemma StepCounts(cfg: Config, s: State, step: Step)
    requires |s.shards| == Dedup.SHARD_COUNT && Counted(s) && Enabled(cfg, s, step)
    ensures Counted(Do(cfg, s, step))
  {
    match step {
      case Examine(h, now) => ExamineCounts(cfg, s, h, now);
      case Enqueue(h, _) => EnqueueCounts(cfg, s, h);
      case Drain(d, ok, cancelled) => DrainCounts(cfg, s, d, ok, cancelled);
      case _ =>
    }
  }

  // Only an examination and a sweep touch the deduplication set.
  lemma OthersLeaveSet(cfg: Config, s: State, step: Step)
    requires |s.shards| == Dedup.SHARD_COUNT && Enabled(cfg, s, step) && !step.Examine? && !step.Sweep?
    ensures Do(cfg, s, step).calls == s.calls && Do(cfg, s, step).shards == s.shards
    ensures step.Enqueue? || Do(cfg, s, step).clock == s.clock
  {
    match step {
      case Drain(d, ok, cancelled) => DrainLeavesSet(cfg, s, d, ok, cancelled);
      case _ =>
    }
  }

  lemma DrainLeavesSet(cfg: Config, s: State, d: nat, ok: bool, cancelled: bool)
    requires Enabled(cfg, s, Drain(d, ok, cancelled))
    ensures var s' := DoDrain(cfg, s, d, ok, cancelled);
            s'.calls == s.calls && s'.shards == s.shards && s'.clock == s.clock
  {
  }

  lemma CallRemembered(cfg: Config, s: State, s': State, c: Dedup.Call)
    requires Remembered(cfg, s) && ClockMovesOn(s, c.now)
    requires s'.calls == s.calls + [c] && |s.shards| == Dedup.SHARD_COUNT
    requires s'.shards == Dedup.Next(s.shards, c, cfg.dedup) && s'.clock == Some(c.now)
    ensures Remembered(cfg, s')
  {
  }

  lemma RememberedKept(cfg: Config, s: State, step: Step)
    requires |s.shards| == Dedup.SHARD_COUNT && Enabled(cfg, s, step) && Remembered(cfg, s)
    ensures Remembered(cfg, Do(cfg, s, step))
  {
    var s' := Do(cfg, s, step);
    if step.Examine? {
      var e := s.handlers[step.h].todo[0];
      if e.Validates() {
        CallRemembered(cfg, s, s', Dedup.Asked(e.requestId, step.now));
      }
    } else if step.Sweep? {
      CallRemembered(cfg, s, s', Dedup.Sweep(step.now));
    } else {
      OthersLeaveSet(cfg, s, step);
    }
  }

  lemma StepKeepsInv(cfg: Config, s: State, step: Step)
    requires Batch.Normal(cfg.opts) && Inv(cfg, s) && Enabled(cfg, s, step)
    ensures Inv(cfg, Do(cfg, s, step))
  {
    BoundedKept(cfg, s, step);
    WillFlushKept(cfg, s, step);
    RememberedKept(cfg, s, step);
    StepCounts(cfg, s, step);
    StepConservesAll(cfg, s, step);
  }

  // --------------------------------------------------------------------- runs

  // Each step is enabled where the ones before it lead.
  ghost predicate IsRun(cfg: Config, s: State, steps: seq<Step>)
    requires |s.shards| == Dedup.SHARD_COUNT
    decreases |steps|, 0
  {
    steps == [] || (
      var n := |steps| - 1;
      IsRun(cfg, s, steps[..n]) && Enabled(cfg, RunFrom(cfg, s, steps[..n]), steps[n]))
  }

  ghost function RunFrom(cfg: Config, s: State, steps: seq<Step>): (s': State)
    requires |s.shards| == Dedup.SHARD_COUNT && IsRun(cfg, s, steps)
    ensures |s'.shards| == Dedup.SHARD_COUNT
    decreases |steps|, 1
  {
    if steps == [] then s
    else Do(cfg, RunFrom(cfg, s, steps[..|steps| - 1]), steps[|steps| - 1])
  }

  lemma {:induction false} RunKeepsInv(cfg: Config, s: State, steps: seq<Step>)
    requires Batch.Normal(cfg.opts) && Inv(cfg, s) && IsRun(cfg, s, steps)
    ensures Inv(cfg, RunFrom(cfg, s, steps))
  {
    if steps != [] {
      var n := |steps| - 1;
      RunKeepsInv(cfg, s, steps[..n]);
      StepKeepsInv(cfg, RunFrom(cfg, s, steps[..n]), steps[n]);
    }
  }

  lemma InitInv(cfg: Config)
    requires Batch.Normal(cfg.opts)
    ensures Inv(cfg, Init())
  {
  }

  /** The safety of the whole service, over every run: the buffer never exceeds
      its capacity and empties in order; a full buffer has a flush on its way;
      every event received is in exactly one place; the metrics are the sizes
      of those places. */
  lemma {:induction false} RunIsSafe(cfg: Config, steps: seq<Step>)
    requires Batch.Normal(cfg.opts) && IsRun(cfg, Init(), steps)
    ensures Inv(cfg, RunFrom(cfg, Init(), steps))
  {
    InitInv(cfg);
    RunKeepsInv(cfg, Init(), steps);
  }

  // Nothing is on its way: no request is in its loop, no flush holds a batch.
  ghost predicate Quiet(s: State) {
    && s.buf == []
    && !s.runner.Holding?
    && (forall h :: 0 <= h < |s.handlers| ==> !s.handlers[h].Checking?)
    && (forall d :: 0 <= d < |s.drainers| ==> !s.drainers[d].Storing?)
  }

  lemma {:induction false} NothingInHandlers(m: Measure<Event>, s: seq<Handler>)
    requires forall h :: 0 <= h < |s| ==> !s[h].Checking?
    ensures InHandlers(m, s) == 0
  {
    if s != [] {
      NothingInHandlers(m, s[..|s| - 1]);
    }
  }

  lemma {:induction false} NothingInDrainers(m: Measure<Event>, s: seq<Drainer>)
    requires forall d :: 0 <= d < |s| ==> !s[d].Storing?
    ensures InDrainers(m, s) == 0
  {
    if s != [] {
      NothingInDrainers(m, s[..|s| - 1]);
    }
  }

  /** Copy by copy, once the service is quiet every event received has been
      stored, dropped after its retries, refused, recognised as a duplicate or
      lost with a bad request. */
  lemma {:induction false} QuietAccounting(cfg: Config, steps: seq<Step>, e: Event)
    requires Batch.Normal(cfg.opts) && IsRun(cfg, Init(), steps)
    requires Quiet(RunFrom(cfg, Init(), steps))
    ensures var l := RunFrom(cfg, Init(), steps).ledger;
            multiset(l.received)[e] == multiset(l.inserted)[e] + multiset(l.dropped)[e] + multiset(l.refused)[e]
              + multiset(l.duplicate)[e] + multiset(l.lost)[e]
  {
    var s := RunFrom(cfg, Init(), steps);
    RunIsSafe(cfg, steps);
    var copies: Measure<Event> := t => multiset(t)[e];
    assert ConservedBy(copies, s);
    NothingInHandlers(copies, s.handlers);
    NothingInDrainers(copies, s.drainers);
  }

  /** The three counters account for every event except those lost with a bad
      request, which no counter records. */
  lemma QuietMetrics(cfg: Config, steps: seq<Step>)
    requires Batch.Normal(cfg.opts) && IsRun(cfg, Init(), steps)
    requires Quiet(RunFrom(cfg, Init(), steps))
    ensures var s := RunFrom(cfg, Init(), steps);
            s.metrics.received == s.metrics.inserted + s.metrics.dropped + |s.ledger.lost|
  {
    var s := RunFrom(cfg, Init(), steps);
    RunIsSafe(cfg, steps);
    var size: Measure<Event> := t => |t|;
    assert ConservedBy(size, s);
    NothingInHandlers(size, s.handlers);
    NothingInDrainers(size, s.drainers);
  }

  // ----------------------------------------------------- a flush without ticks

  // The steps that bring a flush about without a tick or a new request.
  predicate Internal(step: Step) {
    step.Signal? || step.ReceiveToken? || step.Swap? || step.Attempt?
  }

  /** What the wake-up invariant is for: whenever the loop runs and the buffer
      has reached MaxEvents, the loop can empty it with no tick and no further
      request, in at most four steps. */
  lemma FullBufferCanFlush(cfg: Config, s: State) returns (steps: seq<Step>)
    requires Batch.Normal(cfg.opts) && Inv(cfg, s)
    requires !s.runner.Exited? && |s.buf| >= cfg.opts.maxEvents
    ensures |steps| <= 4 && (forall i :: 0 <= i < |steps| ==> Internal(steps[i]))
    ensures IsRun(cfg, s, steps)
    ensures var s' := RunFrom(cfg, s, steps); s'.buf == [] && s'.runner == Holding(s.buf, 0)
  {
    if s.runner.Holding? {
      var s1 := Do(cfg, s, Attempt(true, false));
      StepKeepsInv(cfg, s, Attempt(true, false));
      var rest := IdleCanFlush(cfg, s1);
      steps := [Attempt(true, false)] + rest;
      RunFirst(cfg, s, Attempt(true, false), rest);
    } else if s.runner.Woken? {
      steps := [Swap];
      RunFirst(cfg, s, Swap, []);
    } else {
      steps := IdleCanFlush(cfg, s);
    }
  }

  lemma IdleCanFlush(cfg: Config, s: State) returns (steps: seq<Step>)
    requires Batch.Normal(cfg.opts) && Inv(cfg, s)
    requires s.runner.Idle? && |s.buf| >= cfg.opts.maxEvents
    ensures |steps| <= 3 && (forall i :: 0 <= i < |steps| ==> Internal(steps[i]))
    ensures IsRun(cfg, s, steps)
    ensures var s' := RunFrom(cfg, s, steps); s'.buf == [] && s'.runner == Holding(s.buf, 0)
  {
    if s.token {
      steps := TokenCanFlush(cfg, s);
    } else {
      var h :| 0 <= h < |s.handlers| && s.handlers[h].Signalling?;
      var rest := TokenCanFlush(cfg, Do(cfg, s, Signal(h)));
      steps := [Signal(h)] + rest;
      RunFirst(cfg, s, Signal(h), rest);
    }
  }

  lemma TokenCanFlush(cfg: Config, s: State) returns (steps: seq<Step>)
    requires |s.shards| == Dedup.SHARD_COUNT
    requires s.runner.Idle? && s.token && s.buf != []
    ensures steps == [ReceiveToken, Swap] && IsRun(cfg, s, steps)
    ensures var s' := RunFrom(cfg, s, steps); s'.buf == [] && s'.runner == Holding(s.buf, 0)
  {
    var s1 := Do(cfg, s, ReceiveToken);
    RunFirst(cfg, s1, Swap, []);
    RunFirst(cfg, s, ReceiveToken, [Swap]);
    steps := [ReceiveToken] + [Swap];
  }

  // A run may also be taken apart at its first step.
  lemma {:induction false} RunFirst(cfg: Config, s: State, first: Step, rest: seq<Step>)
    requires |s.shards| == Dedup.SHARD_COUNT && Enabled(cfg, s, first)
    requires IsRun(cfg, Do(cfg, s, first), rest)
    ensures IsRun(cfg, s, [first] + rest)
    ensures RunFrom(cfg, s, [first] + rest) == RunFrom(cfg, Do(cfg, s, first), rest)
  {
    var steps := [first] + rest;
    if rest == [] {
      assert steps == [first] && steps[..0] == [];
      assert IsRun(cfg, s, steps[..0]) && RunFrom(cfg, s, steps[..0]) == s;
    } else {
      var n := |rest| - 1;
      RunFirst(cfg, s, first, rest[..n]);
      assert steps[..|steps| - 1] == [first] + rest[..n];
      assert steps[|steps| - 1] == rest[n];
    }
  }

  // The flush loop's own steps, and how many of them at most come before it has
  // taken the buffer.
  predicate OfLoop(step: Step) {
    step.Tick? || step.ReceiveToken? || step.Swap? || step.Attempt?
  }

  function LoopSteps(steps: seq<Step>): nat {
    if steps == [] then 0 else LoopSteps(steps[..|steps| - 1]) + if OfLoop(steps[|steps| - 1]) then 1 else 0
  }

  function StepsToSwap(cfg: Config, r: Runner): (n: nat)
    requires Batch.Normal(cfg.opts)
    ensures n <= cfg.opts.retryAttempts + 2
  {
    match r
    case Idle => 2
    case Woken => 1
    case Holding(_, attempt) => 2 + if attempt < cfg.opts.retryAttempts then cfg.opts.retryAttempts - attempt else 1
    case Exited => 0
  }

  // After n steps of the loop: all that s had buffered is taken, or none of it and
  // the loop is n steps nearer.
  ghost predicate Nearer(cfg: Config, s: State, s': State, n: nat)
    requires Batch.Normal(cfg.opts)
  {
    s'.runner.Exited? || s.ledger.enqueued <= s'.ledger.taken || (
      && s'.ledger.taken == s.ledger.taken && s.buf <= s'.buf
      && n + StepsToSwap(cfg, s'.runner) <= StepsToSwap(cfg, s.runner))
  }

  lemma TakingTakesAll(s: State, s': State)
    requires s.ledger.enqueued == s.ledger.taken + s.buf
    requires s'.ledger.taken == s.ledger.taken && s.buf <= s'.buf
    ensures s.ledger.enqueued <= TakeAll(s').ledger.taken
  {
  }

  lemma DrainTakesAllOrNothing(cfg: Config, s: State, d: nat, ok: bool, cancelled: bool)
    requires Enabled(cfg, s, Drain(d, ok, cancelled))
    ensures var s' := DoDrain(cfg, s, d, ok, cancelled);
            && s'.runner == s.runner
            && ((s'.buf == s.buf && s'.ledger.taken == s.ledger.taken)
                || s'.ledger.taken == TakeAll(s).ledger.taken)
  {
  }

  lemma DrainNearer(cfg: Config, s: State, s': State, n: nat, d: nat, ok: bool, cancelled: bool)
    requires Batch.Normal(cfg.opts) && Bounded(cfg, s) && Nearer(cfg, s, s', n)
    requires Enabled(cfg, s', Drain(d, ok, cancelled))
    ensures Nearer(cfg, s, DoDrain(cfg, s', d, ok, cancelled), n)
  {
    DrainTakesAllOrNothing(cfg, s', d, ok, cancelled);
    if s'.ledger.taken == s.ledger.taken && s.buf <= s'.buf {
      TakingTakesAll(s, s');
    }
  }

  lemma LoopNearer(cfg: Config, s: State, s': State, n: nat, step: Step)
    requires Batch.Normal(cfg.opts) && Bounded(cfg, s) && Nearer(cfg, s, s', n)
    requires |s'.shards| == Dedup.SHARD_COUNT && Enabled(cfg, s', step) && OfLoop(step)
    ensures Nearer(cfg, s, Do(cfg, s', step), n + 1)
  {
    if s'.ledger.taken == s.ledger.taken && s.buf <= s'.buf {
      TakingTakesAll(s, s');
    }
  }

  lemma EnqueueNearer(cfg: Config, s: State, s': State, n: nat, h: nat)
    requires Batch.Normal(cfg.opts) && Nearer(cfg, s, s', n) && AllChecked(s', h)
    ensures Nearer(cfg, s, DoEnqueue(cfg, s', h), n)
  {
  }

  lemma StepNearer(cfg: Config, s: State, s': State, n: nat, step: Step)
    requires Batch.Normal(cfg.opts) && Bounded(cfg, s) && Nearer(cfg, s, s', n)
    requires |s'.shards| == Dedup.SHARD_COUNT && Enabled(cfg, s', step)
    ensures Nearer(cfg, s, Do(cfg, s', step), n + if OfLoop(step) then 1 else 0)
  {
    if OfLoop(step) {
      LoopNearer(cfg, s, s', n, step);
    } else if step.Drain? {
      DrainNearer(cfg, s, s', n, step.d, step.ok, step.cancelled);
    } else if step.Enqueue? {
      EnqueueNearer(cfg, s, s', n, step.h);
    } else if step.Examine? {
      assert DoExamine(cfg, s', step.h, step.now).ledger.taken == s'.ledger.taken;
    }
  }

  lemma {:induction false} RunNearer(cfg: Config, s: State, steps: seq<Step>)
    requires Batch.Normal(cfg.opts) && |s.shards| == Dedup.SHARD_COUNT && Bounded(cfg, s) && IsRun(cfg, s, steps)
    ensures Nearer(cfg, s, RunFrom(cfg, s, steps), LoopSteps(steps))
  {
    if steps != [] {
      var n := |steps| - 1;
      RunNearer(cfg, s, steps[..n]);
      StepNearer(cfg, s, RunFrom(cfg, s, steps[..n]), LoopSteps(steps[..n]), steps[n]);
    }
  }

  // A pending signal, or a token, or the loop's own business is there to go on with.
  lemma FullBufferMovesOn(cfg: Config, s: State)
    requires Batch.Normal(cfg.opts) && Inv(cfg, s) && !s.runner.Exited? && |s.buf| >= cfg.opts.maxEvents
    ensures exists step :: Internal(step) && Enabled(cfg, s, step)
  {
    if s.runner.Holding? {
      assert Internal(Attempt(true, false)) && Enabled(cfg, s, Attempt(true, false));
    } else if s.runner.Woken? {
      assert Internal(Swap) && Enabled(cfg, s, Swap);
    } else if s.token {
      assert Internal(ReceiveToken) && Enabled(cfg, s, ReceiveToken);
    } else {
      var h :| 0 <= h < |s.handlers| && s.handlers[h].Signalling?;
      assert Internal(Signal(h)) && Enabled(cfg, s, Signal(h));
    }
  }

  /** In every run from any state of the service, whatever else goes on: once the
      loop has taken as many steps as there are insert attempts, and two, all that
      was buffered has been taken out, unless the loop has exited.  Until it is, a
      buffer that had reached MaxEvents always leaves the loop or a signalling
      handler something to do, without a tick. */
  lemma FlushIsBounded(cfg: Config, s: State, steps: seq<Step>)
    requires Batch.Normal(cfg.opts) && Inv(cfg, s) && IsRun(cfg, s, steps)
    requires !RunFrom(cfg, s, steps).runner.Exited?
    ensures var s' := RunFrom(cfg, s, steps);
            && (LoopSteps(steps) >= cfg.opts.retryAttempts + 2 ==> s.ledger.enqueued <= s'.ledger.taken)
            && (|s.buf| >= cfg.opts.maxEvents ==>
                  s.ledger.enqueued <= s'.ledger.taken || exists step :: Internal(step) && Enabled(cfg, s', step))
  {
    RunNearer(cfg, s, steps);
    RunKeepsInv(cfg, s, steps);
    var s' := RunFrom(cfg, s, steps);
    if |s.buf| >= cfg.opts.maxEvents && !(s.ledger.enqueued <= s'.ledger.taken) {
      FullBufferMovesOn(cfg, s');
    }
  }

  // ----------------------------------------------------------------- shutdown

  // A Shutdown call that has swapped, and not looked again, has left an empty
  // buffer behind.
  ghost predicate LeftEmpty(s: State, d: nat) {
    d < |s.drainers| && (s.drainers[d].Storing? || s.drainers[d].Compare? || s.drainers[d].Returned? ==> s.buf == [])
  }

  predicate Appends(cfg: Config, s: State, step: Step) {
    step.Enqueue? && Enabled(cfg, s, step) && DoEnqueue(cfg, s, step.h).buf != s.buf
  }

  // No request appends to the buffer during the run.
  ghost predicate NoAppends(cfg: Config, s: State, steps: seq<Step>)
    requires |s.shards| == Dedup.SHARD_COUNT && IsRun(cfg, s, steps)
  {
    steps == [] || (
      var n := |steps| - 1;
      NoAppends(cfg, s, steps[..n]) && !Appends(cfg, RunFrom(cfg, s, steps[..n]), steps[n]))
  }

  lemma LeftEmptyKept(cfg: Config, s: State, step: Step, d: nat)
    requires |s.shards| == Dedup.SHARD_COUNT && Enabled(cfg, s, step) && !Appends(cfg, s, step)
    requires LeftEmpty(s, d)
    ensures LeftEmpty(Do(cfg, s, step), d)
  {
    match step {
      case Enqueue(h, _) => assert DoEnqueue(cfg, s, h).buf == s.buf;
      case Drain(k, ok, cancelled) => DrainLeavesEmpty(cfg, s, k, ok, cancelled, d);
      case Examine(h, now) => assert DoExamine(cfg, s, h, now).buf == s.buf;
      case _ =>
    }
  }

  lemma DrainLeavesEmpty(cfg: Config, s: State, k: nat, ok: bool, cancelled: bool, d: nat)
    requires Enabled(cfg, s, Drain(k, ok, cancelled)) && LeftEmpty(s, d)
    ensures LeftEmpty(DoDrain(cfg, s, k, ok, cancelled), d)
  {
  }

  /** A Shutdown call during which nothing is appended returns with the buffer
      empty, whatever the inserts do and however many Shutdown calls there
      are. */
  lemma {:induction false} QuietShutdownEmpties(cfg: Config, s: State, steps: seq<Step>, d: nat)
    requires |s.shards| == Dedup.SHARD_COUNT && IsRun(cfg, s, steps) && NoAppends(cfg, s, steps)
    requires d < |s.drainers| && s.drainers[d].AwaitDone?
    ensures LeftEmpty(RunFrom(cfg, s, steps), d)
    ensures RunFrom(cfg, s, steps).drainers[d].Returned? ==> RunFrom(cfg, s, steps).buf == []
  {
    if steps != [] {
      var n := |steps| - 1;
      QuietShutdownEmpties(cfg, s, steps[..n], d);
      LeftEmptyKept(cfg, RunFrom(cfg, s, steps[..n]), steps[n], d);
    }
  }

  // Does the step let Shutdown call d take the buffer?
  predicate TakesFor(s: State, step: Step, d: nat) {
    step.Drain? && step.d == d && d < |s.drainers| && s.drainers[d].AboutToSwap?
  }

  // The length of the run up to and including that step, when it was last taken.
  ghost function LastSwap(cfg: Config, steps: seq<Step>, d: nat): (n: nat)
    requires IsRun(cfg, Init(), steps)
    ensures n <= |steps| && IsRun(cfg, Init(), steps[..n])
  {
    if steps == [] then 0
    else
      var n := |steps| - 1;
      if TakesFor(RunFrom(cfg, Init(), steps[..n]), steps[n], d) then
        assert steps[..n + 1] == steps;
        n + 1
      else
        var k := LastSwap(cfg, steps[..n], d);
        assert steps[..n][..k] == steps[..k];
        k
  }

  // How many events have been appended since then and not been taken.
  ghost function Unclaimed(cfg: Config, steps: seq<Step>, d: nat): int
    requires IsRun(cfg, Init(), steps)
  {
    var atSwap := RunFrom(cfg, Init(), steps[..LastSwap(cfg, steps, d)]).ledger;
    var atEnd := RunFrom(cfg, Init(), steps).ledger;
    (|atEnd.enqueued| - |atSwap.enqueued|) - (|atEnd.taken| - |atSwap.taken|)
  }

  predicate HasSwapped(s: State, d: nat) {
    d < |s.drainers| && (s.drainers[d].Storing? || s.drainers[d].Compare?)
  }

  lemma SwapEmpties(cfg: Config, s: State, step: Step, d: nat)
    requires |s.shards| == Dedup.SHARD_COUNT && Enabled(cfg, s, step)
    ensures TakesFor(s, step, d) ==> Do(cfg, s, step).buf == []
    ensures HasSwapped(Do(cfg, s, step), d) ==> HasSwapped(s, d) || TakesFor(s, step, d)
  {
  }

  // The swap left the buffer empty, and a call that has swapped did so in the run.
  lemma {:induction false} SwapLeavesNothing(cfg: Config, steps: seq<Step>, d: nat)
    requires IsRun(cfg, Init(), steps)
    ensures RunFrom(cfg, Init(), steps[..LastSwap(cfg, steps, d)]).buf == []
    ensures HasSwapped(RunFrom(cfg, Init(), steps), d) ==> LastSwap(cfg, steps, d) > 0
  {
    if steps != [] {
      var n := |steps| - 1;
      SwapEmpties(cfg, RunFrom(cfg, Init(), steps[..n]), steps[n], d);
      SwapLeavesNothing(cfg, steps[..n], d);
      if TakesFor(RunFrom(cfg, Init(), steps[..n]), steps[n], d) {
        assert steps[..n + 1] == steps;
      } else {
        assert steps[..n][..LastSwap(cfg, steps, d)] == steps[..LastSwap(cfg, steps, d)];
      }
    }
  }

  lemma BufferIsUntaken(cfg: Config, steps: seq<Step>)
    requires Batch.Normal(cfg.opts) && IsRun(cfg, Init(), steps)
    ensures var s := RunFrom(cfg, Init(), steps); |s.buf| == |s.ledger.enqueued| - |s.ledger.taken|
  {
    RunIsSafe(cfg, steps);
  }

  lemma BufferIsUnclaimed(cfg: Config, steps: seq<Step>, d: nat)
    requires Batch.Normal(cfg.opts) && IsRun(cfg, Init(), steps)
    ensures |RunFrom(cfg, Init(), steps).buf| == Unclaimed(cfg, steps, d)
  {
    SwapLeavesNothing(cfg, steps, d);
    BufferIsUntaken(cfg, steps);
    BufferIsUntaken(cfg, steps[..LastSwap(cfg, steps, d)]);
  }

  predicate Returns(cfg: Config, s: State, step: Step, d: nat)
    requires |s.shards| == Dedup.SHARD_COUNT && Enabled(cfg, s, step)
  {
    step.Drain? && step.d == d && Do(cfg, s, step).drainers[d].Returned?
  }

  lemma ReturnLeavesBuffer(cfg: Config, s: State, step: Step, d: nat)
    requires |s.shards| == Dedup.SHARD_COUNT && Enabled(cfg, s, step) && Returns(cfg, s, step, d)
    ensures Do(cfg, s, step).buf == s.buf
    ensures (s.drainers[d].TestDepth? && s.buf == [])
         || (s.drainers[d].Compare? && |s.buf| >= s.drainers[d].before)
  {
  }

  /** When does a Shutdown call return with events in the buffer?  If and only if
      it returns from its second look at the depth, and by then at least one event
      and at least as many as it counted before its swap have been appended since
      that swap and not been taken by another Shutdown call. */
  lemma ShutdownLeavesEvents(cfg: Config, steps: seq<Step>, step: Step, d: nat)
    requires Batch.Normal(cfg.opts) && IsRun(cfg, Init(), steps)
    requires var s := RunFrom(cfg, Init(), steps); Enabled(cfg, s, step) && Returns(cfg, s, step, d)
    ensures var s := RunFrom(cfg, Init(), steps);
            Do(cfg, s, step).buf != []
            <==> s.drainers[d].Compare? && LastSwap(cfg, steps, d) > 0
                 && Unclaimed(cfg, steps, d) >= 1 && Unclaimed(cfg, steps, d) >= s.drainers[d].before
  {
    ReturnLeavesBuffer(cfg, RunFrom(cfg, Init(), steps), step, d);
    SwapLeavesNothing(cfg, steps, d);
    BufferIsUnclaimed(cfg, steps, d);
  }

  lemma {:induction false} RunMore(cfg: Config, steps: seq<Step>, step: Step)
    requires IsRun(cfg, Init(), steps) && Enabled(cfg, RunFrom(cfg, Init(), steps), step)
    ensures IsRun(cfg, Init(), steps + [step])
    ensures RunFrom(cfg, Init(), steps + [step]) == Do(cfg, RunFrom(cfg, Init(), steps), step)
  {
    LastIsLast(steps, step);
  }

  // The clock has shown nothing but 0, and the set was never asked about this id.
  ghost predicate Unasked(s: State, id: Dedup.Key) {
    && (s.clock.Some? ==> s.clock.value == 0)
    && (forall i :: 0 <= i < |s.shards| ==> id !in s.shards[i])
  }

  // What a request with one new event at time 0 leaves alone.
  ghost predicate OnlyAsks(s: State, s': State, e: Event, other: Dedup.Key) {
    && s'.drainers == s.drainers && s'.runner == s.runner
    && (other != e.requestId && Unasked(s, other) ==> Unasked(s', other))
  }

  lemma BeginOne(cfg: Config, s: State, e: Event, other: Dedup.Key)
    requires |s.shards| == Dedup.SHARD_COUNT && Unasked(s, e.requestId)
    ensures var s' := Do(cfg, s, Begin([e]));
            && |s'.handlers| == |s.handlers| + 1 && s'.handlers[|s.handlers|] == Checking([e], [])
            && s'.buf == s.buf && OnlyAsks(s, s', e, other) && Unasked(s', e.requestId)
  {
  }

  lemma ExamineNew(cfg: Config, s: State, h: nat, e: Event, other: Dedup.Key)
    requires |s.shards| == Dedup.SHARD_COUNT && h < |s.handlers|
    requires s.handlers[h] == Checking([e], []) && e.Validates() && Unasked(s, e.requestId)
    ensures Enabled(cfg, s, Examine(h, 0))
    ensures var s' := Do(cfg, s, Examine(h, 0));
            && |s'.handlers| == |s.handlers| && s'.handlers[h] == Checking([], [e])
            && s'.buf == s.buf && OnlyAsks(s, s', e, other)
  {
  }

  lemma EnqueueOne(cfg: Config, s: State, h: nat, e: Event, other: Dedup.Key)
    requires Batch.Normal(cfg.opts) && |s.shards| == Dedup.SHARD_COUNT && h < |s.handlers|
    requires s.handlers[h] == Checking([], [e]) && s.buf == [] && ClockMovesOn(s, 0)
    ensures Enabled(cfg, s, Enqueue(h, 0))
    ensures var s' := Do(cfg, s, Enqueue(h, 0));
            s'.buf == [e] && OnlyAsks(s, s', e, other)
  {
  }

  // A request with one new event, at time 0, for which there is room.
  lemma OneEventRequest(cfg: Config, before: seq<Step>, e: Event, other: Dedup.Key)
      returns (steps: seq<Step>)
    requires Batch.Normal(cfg.opts) && IsRun(cfg, Init(), before) && e.Validates()
    requires var s := RunFrom(cfg, Init(), before); s.buf == [] && Unasked(s, e.requestId)
    ensures IsRun(cfg, Init(), steps)
    ensures var s, s' := RunFrom(cfg, Init(), before), RunFrom(cfg, Init(), steps);
            s'.buf == [e] && OnlyAsks(s, s', e, other)
  {
    var s := RunFrom(cfg, Init(), before);
    var h := |s.handlers|;
    steps := before;
    BeginOne(cfg, s, e, other);
    RunMore(cfg, steps, Begin([e]));
    steps := steps + [Begin([e])];
    ExamineNew(cfg, RunFrom(cfg, Init(), steps), h, e, other);
    RunMore(cfg, steps, Examine(h, 0));
    steps := steps + [Examine(h, 0)];
    EnqueueOne(cfg, RunFrom(cfg, Init(), steps), h, e, other);
    RunMore(cfg, steps, Enqueue(h, 0));
    steps := steps + [Enqueue(h, 0)];
  }

  // Shutdown is called, the loop sees it, and the call gets as far as its second
  // look at the depth, having stored the one event that was buffered.
  lemma ShutdownUpToCompare(cfg: Config, before: seq<Step>, e: Event) returns (steps: seq<Step>)
    requires IsRun(cfg, Init(), before)
    requires var s := RunFrom(cfg, Init(), before); s.buf == [e] && s.runner.Idle? && s.drainers == []
    ensures IsRun(cfg, Init(), steps)
    ensures var s, s' := RunFrom(cfg, Init(), before), RunFrom(cfg, Init(), steps);
            && s'.buf == [] && s'.drainers == [Compare(1)] && s'.runner.Exited?
            && s'.clock == s.clock && s'.shards == s.shards
  {
    RunMore(cfg, before, CallShutdown);
    RunMore(cfg, before + [CallShutdown], SeeStop);
    steps := before + [CallShutdown] + [SeeStop];
    assert RunFrom(cfg, Init(), steps).drainers == [AwaitDone];
    steps := DrainOnce(cfg, steps, TestDepth);
    steps := DrainOnce(cfg, steps, MeasureDepth);
    steps := DrainOnce(cfg, steps, AboutToSwap(1));
    steps := StoreOnce(cfg, steps, e);
  }

  lemma StoreOnce(cfg: Config, before: seq<Step>, e: Event) returns (steps: seq<Step>)
    requires IsRun(cfg, Init(), before)
    requires var s := RunFrom(cfg, Init(), before); s.drainers == [AboutToSwap(1)] && s.buf == [e]
    ensures IsRun(cfg, Init(), steps)
    ensures var s, s' := RunFrom(cfg, Init(), before), RunFrom(cfg, Init(), steps);
            && s'.buf == [] && s'.drainers == [Compare(1)] && s'.runner == s.runner
            && s'.clock == s.clock && s'.shards == s.shards
  {
    var next := Drain(0, true, false);
    RunMore(cfg, before, next);
    steps := before + [next];
    assert RunFrom(cfg, Init(), steps).drainers == [Storing(1, [e], 0)];
    RunMore(cfg, steps, next);
    steps := steps + [next];
  }

  // A step of the one Shutdown call that only moves the call on.
  lemma DrainOnce(cfg: Config, before: seq<Step>, next: Drainer) returns (steps: seq<Step>)
    requires IsRun(cfg, Init(), before)
    requires var s := RunFrom(cfg, Init(), before);
             |s.drainers| == 1 && s.runner.Exited? && |s.buf| == 1
             && ((s.drainers[0].AwaitDone? && next == TestDepth)
                 || (s.drainers[0].TestDepth? && next == MeasureDepth)
                 || (s.drainers[0].MeasureDepth? && next == AboutToSwap(1)))
    ensures IsRun(cfg, Init(), steps)
    ensures RunFrom(cfg, Init(), steps) == RunFrom(cfg, Init(), before).(drainers := [next])
  {
    RunMore(cfg, before, Drain(0, true, false));
    steps := before + [Drain(0, true, false)];
  }

  lemma InitUnasked(id: Dedup.Key)
    ensures Unasked(Init(), id)
  {
  }

  /** Such a run exists for every configuration and every two events with different
      ids: the second arrives between the swap and the second look at the depth,
      the call takes that for a lack of progress and returns, the flush loop has
      exited, and the event stays where it is. */
  lemma ConcurrentAddSurvivesShutdown(cfg: Config, e: Event, f: Event) returns (steps: seq<Step>)
    requires Batch.Normal(cfg.opts) && e.Validates() && f.Validates() && e.requestId != f.requestId
    ensures IsRun(cfg, Init(), steps)
    ensures var s := RunFrom(cfg, Init(), steps);
            s.drainers == [Returned] && s.runner.Exited? && s.buf == [f]
  {
    InitUnasked(e.requestId);
    InitUnasked(f.requestId);
    steps := OneEventRequest(cfg, [], e, f.requestId);
    steps := ShutdownUpToCompare(cfg, steps, e);
    assert Unasked(RunFrom(cfg, Init(), steps), f.requestId);
    steps := OneEventRequest(cfg, steps, f, e.requestId);
    RunMore(cfg, steps, Drain(0, true, false));
    steps := steps + [Drain(0, true, false)];
  }
}
