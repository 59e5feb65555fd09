/** The Go SDK's telemetry queue.

    Producers send on a bounded channel, one goroutine collects batches and
    ships them, and any number of flushWait and close calls watch.  A channel
    operation, a locked section, a send and each of flushWait's two looks is one
    step; a run is any sequence of enabled steps. */
module GoQueue {
  import opened Common
  import opened Shipping

  // The channel holds ten thousand events in the source; the results hold for
  // any capacity.
  datatype Config = Config(capacity: nat, batch: int, retries: int)

  // newQueue's default.
  function Normalized(cfg: Config): (r: Config)
    ensures r.batch >= 1
  {
    if cfg.batch <= 0 then cfg.(batch := 100) else cfg
  }

  // Which select the run loop is in.
  datatype Mode = Looping | Draining | Leaving

  datatype Runner =
    | Selecting(mode: Mode)
    | Appended(mode: Mode)                        // took an event from the channel
    | Flushing(mode: Mode)                        // about to set inFlight
    | Encoding(mode: Mode)
    | Sending(mode: Mode, statuses: seq<Status>)
    | Sleeping(mode: Mode, statuses: seq<Status>)
    | Clearing(mode: Mode)                        // shipped, about to clear inFlight
    | Exited

  // One call of flushWait: it reads inFlight first and the channel later.
  datatype Waiter = Fresh | HasRead(inFlight: int) | SaidTrue

  datatype State = State(
    events: seq<Event>,        // the channel
    local: seq<Event>,         // the run loop's batch
    runner: Runner,
    inFlight: int,
    dropped: int,
    stopped: bool,
    waiters: seq<Waiter>,
    accepted: seq<Event>,
    settled: seq<Record>,
    refused: nat,
    beforeStop: nat)           // events accepted when close was first called

  function Init(): State {
    State([], [], Selecting(Looping), 0, 0, false, [], [], [], 0, 0)
  }

  function Finish(s: State, mode: Mode, r: Record): State {
    s.(runner := Clearing(mode), settled := s.settled + [r],
       dropped := if r.verdict == Exhausted then s.dropped + |r.batch| else s.dropped)
  }

  function NextAttempt(cfg: Config, s: State, mode: Mode, statuses: seq<Status>): State {
    if |statuses| < cfg.retries then s.(runner := Sending(mode, statuses))
    else Finish(s, mode, Record(s.local, statuses, Exhausted))
  }

  function Replied(s: State, status: Status): State
    requires s.runner.Sending?
  {
    var Sending(mode, before) := s.runner;
    var statuses := before + [status];
    if Retryable(status) then s.(runner := Sleeping(mode, statuses))
    else Finish(s, mode, Record(s.local, statuses, Final(status)))
  }

  // flush does nothing to an empty batch; otherwise it locks and sets inFlight.
  function StartFlush(s: State, mode: Mode): State {
    if s.local != [] then s.(runner := Flushing(mode))
    else if mode == Leaving then s.(runner := Exited)
    else s.(runner := Selecting(mode))
  }

  datatype Step =
    | Enqueue(e: Event)
    | Receive
    | AfterAppend
    | TimerFires
    | SeeStop
    | FindEmpty                // the drain's default case
    | SetInFlight
    | Encode(ok: bool)
    | Reply(status: Status)
    | Wake
    | ClearInFlight
    | Close
    | CallFlushWait
    | ReadInFlight(w: nat)
    | LookAtChannel(w: nat)

  predicate Enabled(s: State, step: Step) {
    match step
    case Receive => s.runner.Selecting? && s.runner.mode != Leaving && s.events != []
    case AfterAppend => s.runner.Appended?
    case TimerFires => s.runner == Selecting(Looping)
    case SeeStop => s.runner == Selecting(Looping) && s.stopped
    case FindEmpty => s.runner == Selecting(Draining) && s.events == []
    case SetInFlight => s.runner.Flushing?
    case Encode(_) => s.runner.Encoding?
    case Reply(_) => s.runner.Sending?
    case Wake => s.runner.Sleeping?
    case ClearInFlight => s.runner.Clearing?
    case ReadInFlight(w) => w < |s.waiters| && s.waiters[w].Fresh?
    case LookAtChannel(w) => w < |s.waiters| && s.waiters[w].HasRead?
    case _ => true
  }

  function Do(cfg: Config, s: State, step: Step): State
    requires Enabled(s, step)
  {
    match step
    case Enqueue(e) =>
      if |s.events| < cfg.capacity then s.(events := s.events + [e], accepted := s.accepted + [e])
      else s.(dropped := s.dropped + 1, refused := s.refused + 1)
    case Receive =>
      s.(events := s.events[1..], local := s.local + [s.events[0]], runner := Appended(s.runner.mode))
    case AfterAppend =>
      if |s.local| >= cfg.batch then StartFlush(s, s.runner.mode) else s.(runner := Selecting(s.runner.mode))
    case TimerFires => StartFlush(s, Looping)
    case SeeStop => s.(runner := Selecting(Draining))
    case FindEmpty => StartFlush(s, Leaving)
    case SetInFlight => s.(inFlight := |s.local|, runner := Encoding(s.runner.mode))
    case Encode(ok) =>
      if ok then NextAttempt(cfg, s, s.runner.mode, [])
      else Finish(s, s.runner.mode, Record(s.local, [], Unsendable))
    case Reply(status) => Replied(s, status)
    case Wake => NextAttempt(cfg, s, s.runner.mode, s.runner.statuses)
    case ClearInFlight =>
      var mode := s.runner.mode;
      s.(inFlight := 0, local := [], runner := if mode == Leaving then Exited else Selecting(mode))
    case Close => s.(stopped := true, beforeStop := if s.stopped then s.beforeStop else |s.accepted|)
    case CallFlushWait => s.(waiters := s.waiters + [Fresh])
    case ReadInFlight(w) => s.(waiters := s.waiters[w := HasRead(s.inFlight)])
    case LookAtChannel(w) =>
      s.(waiters := s.waiters[w := if s.events == [] && s.waiters[w].inFlight == 0 then SaidTrue else Fresh])
  }

  // Does this step make a flushWait call answer true?
  predicate AnswersTrue(cfg: Config, s: State, step: Step) {
    step.LookAtChannel? && Enabled(s, step) && Do(cfg, s, step).waiters[step.w].SaidTrue?
  }

  // --------------------------------------------------------------- invariants

  // The events of the local batch not yet settled: all of them, until the
  // batch has been shipped.
  function Unsettled(s: State): seq<Event> {
    if s.runner.Clearing? then [] else s.local
  }

  ghost predicate InOrder(s: State) {
    s.accepted == Batches(s.settled) + Unsettled(s) + s.events
  }

  predicate InFlush(r: Runner) {
    r.Flushing? || r.Encoding? || r.Sending? || r.Sleeping? || r.Clearing?
  }

  predicate GoodLocal(cfg: Config, s: State) {
    && |s.local| <= cfg.batch
    && (s.runner.Selecting? ==> |s.local| < cfg.batch && s.runner.mode != Leaving)
    && (s.runner.Appended? ==> s.local != [] && s.runner.mode != Leaving)
    && (InFlush(s.runner) ==> s.local != [])
    && (s.runner.Exited? ==> s.local == [])
    && s.inFlight == (if InFlush(s.runner) && !s.runner.Flushing? then |s.local| else 0)
  }

  ghost predicate GoodRecord(cfg: Config, r: Record) {
    Explains(r.statuses, r.verdict, cfg.retries) && 1 <= |r.batch| <= cfg.batch
  }

  ghost predicate GoodHistory(cfg: Config, s: State) {
    && (forall i :: 0 <= i < |s.settled| ==> GoodRecord(cfg, s.settled[i]))
    && (s.runner.Sending? ==> Underway(s.runner.statuses, cfg.retries) && |s.runner.statuses| < cfg.retries)
    && (s.runner.Sleeping? ==> Underway(s.runner.statuses, cfg.retries))
    && s.dropped == s.refused + ExhaustedEvents(s.settled)
  }

  // The loop leaves only after it has found the channel empty with the stop
  // signal given, so everything accepted before that is in its hands by then.
  predicate StopSettles(s: State) {
    && s.beforeStop <= |s.accepted|
    && ((s.runner.Exited? || (InFlush(s.runner) && s.runner.mode == Leaving)) ==>
          s.beforeStop <= |Batches(s.settled)| + |Unsettled(s)|)
    && (s.stopped || !(s.runner.Exited? || s.runner.mode != Looping))
  }

  ghost predicate Inv(cfg: Config, s: State) {
    && InOrder(s)
    && GoodLocal(cfg, s)
    && GoodHistory(cfg, s)
    && StopSettles(s)
    && |s.events| <= cfg.capacity
  }

  lemma FinishKeeps(cfg: Config, s: State, mode: Mode, r: Record)
    requires Inv(cfg, s) && (s.runner.Encoding? || s.runner.Sending? || s.runner.Sleeping?)
    requires s.runner.mode == mode && r.batch == s.local && GoodRecord(cfg, r)
    ensures Inv(cfg, Finish(s, mode, r))
  {
    LastIsLast(s.settled, r);
    assert Batches(s.settled) + s.local + [] == Batches(s.settled) + s.local;
  }

  lemma NextAttemptKeeps(cfg: Config, s: State, mode: Mode, statuses: seq<Status>)
    requires Inv(cfg, s) && (s.runner.Encoding? || s.runner.Sleeping?)
    requires s.runner.mode == mode && Underway(statuses, cfg.retries)
    ensures Inv(cfg, NextAttempt(cfg, s, mode, statuses))
  {
    if |statuses| >= cfg.retries {
      FinishKeeps(cfg, s, mode, Record(s.local, statuses, Exhausted));
    }
  }

  lemma ReceiveKeeps(cfg: Config, s: State)
    requires Inv(cfg, s) && Enabled(s, Receive)
    ensures Inv(cfg, Do(cfg, s, Receive))
  {
    var e, rest := s.events[0], s.events[1..];
    assert s.events == [e] + rest;
    assert Batches(s.settled) + (s.local + [e]) + rest == Batches(s.settled) + s.local + ([e] + rest);
  }

  predicate WatcherStep(step: Step) {
    step.CallFlushWait? || step.ReadInFlight? || step.LookAtChannel?
  }

  lemma WatcherKeeps(cfg: Config, s: State, step: Step)
    requires Inv(cfg, s) && Enabled(s, step) && WatcherStep(step)
    ensures Inv(cfg, Do(cfg, s, step))
  {
    var s' := Do(cfg, s, step);
    assert s' == s.(waiters := s'.waiters);
  }

  lemma StartFlushKeeps(cfg: Config, s: State, mode: Mode)
    requires Inv(cfg, s) && (s.runner.Selecting? || s.runner.Appended?)
    requires mode == s.runner.mode || (mode == Leaving && s.runner == Selecting(Draining) && s.events == [])
    ensures Inv(cfg, StartFlush(s, mode))
  {
  }

  lemma LoopKeeps(cfg: Config, s: State, step: Step)
    requires cfg.batch >= 1 && Inv(cfg, s) && Enabled(s, step)
    requires step.AfterAppend? || step.TimerFires? || step.SeeStop? || step.FindEmpty?
    ensures Inv(cfg, Do(cfg, s, step))
  {
    match step {
      case AfterAppend => StartFlushKeeps(cfg, s, s.runner.mode);
      case TimerFires => StartFlushKeeps(cfg, s, Looping);
      case FindEmpty => StartFlushKeeps(cfg, s, Leaving);
      case SeeStop =>
    }
  }

  lemma InFlightKeeps(cfg: Config, s: State, step: Step)
    requires cfg.batch >= 1 && Inv(cfg, s) && Enabled(s, step) && (step.SetInFlight? || step.ClearInFlight?)
    ensures Inv(cfg, Do(cfg, s, step))
  {
  }

  lemma ProducerKeeps(cfg: Config, s: State, step: Step)
    requires Inv(cfg, s) && Enabled(s, step) && (step.Enqueue? || step.Close?)
    ensures Inv(cfg, Do(cfg, s, step))
  {
    if step.Enqueue? {
      ConcatAssociates(Batches(s.settled) + Unsettled(s), s.events, [step.e]);
    }
  }

  lemma StepKeepsInv(cfg: Config, s: State, step: Step)
    requires cfg.batch >= 1 && Inv(cfg, s) && Enabled(s, step)
    ensures Inv(cfg, Do(cfg, s, step))
  {
    match step {
      case Enqueue(_) => ProducerKeeps(cfg, s, step);
      case Close => ProducerKeeps(cfg, s, step);
      case Receive => ReceiveKeeps(cfg, s);
      case SetInFlight => InFlightKeeps(cfg, s, step);
      case ClearInFlight => InFlightKeeps(cfg, s, step);
      case Encode(ok) =>
        if ok {
          NextAttemptKeeps(cfg, s, s.runner.mode, []);
        } else {
          FinishKeeps(cfg, s, s.runner.mode, Record(s.local, [], Unsendable));
        }
      case Reply(status) =>
        var Sending(mode, before) := s.runner;
        if !Retryable(status) {
          FinalExplains(before, status, cfg.retries);
          FinishKeeps(cfg, s, mode, Record(s.local, before + [status], Final(status)));
        }
      case Wake => NextAttemptKeeps(cfg, s, s.runner.mode, s.runner.statuses);
      case CallFlushWait => WatcherKeeps(cfg, s, step);
      case ReadInFlight(_) => WatcherKeeps(cfg, s, step);
      case LookAtChannel(_) => WatcherKeeps(cfg, s, step);
      case _ => LoopKeeps(cfg, s, step);
    }
  }

  // --------------------------------------------------------------------- runs

  ghost predicate IsRun(cfg: Config, steps: seq<Step>)
    decreases |steps|, 0
  {
    steps == [] || (
      var n := |steps| - 1;
      IsRun(cfg, steps[..n]) && Enabled(RunOf(cfg, steps[..n]), steps[n]))
  }

  ghost function RunOf(cfg: Config, steps: seq<Step>): State
    requires IsRun(cfg, steps)
    decreases |steps|, 1
  {
    if steps == [] then Init() else Do(cfg, RunOf(cfg, steps[..|steps| - 1]), steps[|steps| - 1])
  }

  /** In every run the accepted events are the settled batches, the run loop's
      batch and the channel, in that order; batches are bounded and explained by
      their answers; drops are counted. */
  lemma {:induction false} RunKeepsContract(cfg: Config, steps: seq<Step>)
    requires cfg.batch >= 1 && IsRun(cfg, steps)
    ensures Inv(cfg, RunOf(cfg, steps))
  {
    if steps != [] {
      var n := |steps| - 1;
      RunKeepsContract(cfg, steps[..n]);
      StepKeepsInv(cfg, RunOf(cfg, steps[..n]), steps[n]);
    }
  }

  /** What flushWait guarantees when it answers true: the channel is empty, so
      what is unsettled is the run loop's own batch - at most one batch, the
      events accepted last.  Everything accepted is settled if and only if that
      batch is empty or has just been shipped. */
  lemma FlushWaitGuarantee(cfg: Config, steps: seq<Step>, step: Step)
    requires cfg.batch >= 1 && IsRun(cfg, steps) && AnswersTrue(cfg, RunOf(cfg, steps), step)
    ensures var s := RunOf(cfg, steps);
            && s.events == [] && s.waiters[step.w] == HasRead(0)
            && s.accepted == Batches(s.settled) + Unsettled(s)
            && |Unsettled(s)| <= cfg.batch
            && (s.accepted == Batches(s.settled) <==> s.local == [] || s.runner.Clearing?)
  {
    var s := RunOf(cfg, steps);
    RunKeepsContract(cfg, steps);
    assert |s.accepted| == |Batches(s.settled)| + |Unsettled(s)|;
  }

  /** It does not guarantee that everything was shipped, whatever the batch
      size: an event the loop has received is in neither place flushWait looks
      at until inFlight is set. */
  lemma FlushWaitCanMissAnEvent(cfg: Config, e: Event) returns (steps: seq<Step>)
    requires cfg.batch >= 1 && cfg.capacity >= 1
    ensures IsRun(cfg, steps) && AnswersTrue(cfg, RunOf(cfg, steps), LookAtChannel(0))
    ensures RunOf(cfg, steps).accepted == [e] && RunOf(cfg, steps).settled == []
  {
    RunMore(cfg, [], Enqueue(e));
    RunMore(cfg, [] + [Enqueue(e)], Receive);
    RunMore(cfg, [] + [Enqueue(e)] + [Receive], CallFlushWait);
    RunMore(cfg, [] + [Enqueue(e)] + [Receive] + [CallFlushWait], ReadInFlight(0));
    steps := [] + [Enqueue(e)] + [Receive] + [CallFlushWait] + [ReadInFlight(0)];
  }

  lemma {:induction false} RunMore(cfg: Config, steps: seq<Step>, step: Step)
    requires IsRun(cfg, steps) && Enabled(RunOf(cfg, steps), step)
    ensures IsRun(cfg, steps + [step])
    ensures RunOf(cfg, steps + [step]) == Do(cfg, RunOf(cfg, steps), step)
  {
  }

  /** A batch that does not encode is settled unsent and not counted as dropped; one
      that does is sent before anything is settled, if there is to be a send at all. */
  lemma EncodingDecides(cfg: Config, s: State)
    requires s.runner.Encoding?
    ensures var s' := Do(cfg, s, Encode(false));
            s'.settled == s.settled + [Record(s.local, [], Unsendable)] && s'.dropped == s.dropped
    ensures cfg.retries >= 1 ==>
              var s' := Do(cfg, s, Encode(true));
              s'.runner == Sending(s.runner.mode, []) && s'.settled == s.settled && s'.dropped == s.dropped
  {
  }

  /** The default batch size is a hundred; a positive one stays. */
  lemma BatchSizeIsFilledIn(cfg: Config)
    ensures Normalized(cfg) == cfg.(batch := if cfg.batch >= 1 then cfg.batch else 100)
  {
  }

  /** close, by contrast, keeps its promise: once the loop has exited, every
      event accepted before close was called has been settled. */
  lemma {:induction false} CloseSettles(cfg: Config, steps: seq<Step>)
    requires cfg.batch >= 1 && IsRun(cfg, steps) && RunOf(cfg, steps).runner.Exited?
    ensures var s := RunOf(cfg, steps);
            && s.beforeStop <= |Batches(s.settled)|
            && s.accepted == Batches(s.settled) + s.events
  {
    RunKeepsContract(cfg, steps);
  }

  // -------------------------------------------------------------------- class

  /** The queue with its run loop undisturbed: the drain that close sets off. */
  class Queue {
    const cfg: Config
    var events: seq<Event>
    var batch: seq<Event>
    var inFlight: int
    var dropped: int
    ghost var settled: seq<Record>

    constructor (cfg: Config)
      ensures this.cfg == Normalized(cfg)
      ensures events == [] && batch == [] && inFlight == 0 && dropped == 0 && settled == []
    {
      this.cfg := Normalized(cfg);
      events, batch, inFlight, dropped, settled := [], [], 0, 0, [];
    }

    method Enqueue(e: Event)
      modifies this`events, this`dropped
      ensures var full := |old(events)| >= cfg.capacity;
              && events == (if full then old(events) else old(events) + [e])
              && dropped == old(dropped) + (if full then 1 else 0)
    {
      if |events| < cfg.capacity {
        events := events + [e];
      } else {
        dropped := dropped + 1;
      }
    }

    method Flush(encodes: bool, reply: nat -> Status)
      modifies this`batch, this`inFlight, this`dropped, this`settled
      ensures batch == []
      ensures Batches(settled) == Batches(old(settled)) + old(batch)
      ensures inFlight == if old(batch) == [] then old(inFlight) else 0
      ensures dropped - ExhaustedEvents(settled) == old(dropped) - ExhaustedEvents(old(settled))
    {
      if |batch| == 0 {
        return;
      }
      inFlight := |batch|;
      var verdict, statuses, waits := ShipGo(encodes, reply, cfg.retries);
      if verdict == Exhausted {
        dropped := dropped + |batch|;
      }
      settled := settled + [Record(batch, statuses, verdict)];
      inFlight := 0;
      batch := [];
    }

    /** The nested select that follows the stop signal: it empties the channel
        and the batch, in order.  A batch that does not encode is settled unsent
        and, as in the source, not counted as dropped. */
    method Drain(encodes: nat -> bool, replies: nat -> nat -> Status)
      modifies this
      ensures events == [] && batch == []
      ensures Batches(settled) == Batches(old(settled)) + old(batch) + old(events)
      ensures dropped - ExhaustedEvents(settled) == old(dropped) - ExhaustedEvents(old(settled))
    {
      ghost var all := Batches(settled) + batch + events;
      while events != []
        invariant Batches(settled) + batch + events == all
        invariant dropped - ExhaustedEvents(settled) == old(dropped) - ExhaustedEvents(old(settled))
        decreases |events|
      {
        var e := events[0];
        ghost var rest := events[1..];
        TakeOne(Batches(settled), batch, e, rest, events);
        events := events[1..];
        batch := batch + [e];
        if |batch| >= cfg.batch {
          Flush(encodes(|events|), replies(|events|));
          assert Batches(settled) + [] == Batches(settled);
        }
      }
      Flush(encodes(0), replies(0));
    }
  }

  lemma TakeOne(settled: seq<Event>, batch: seq<Event>, e: Event, rest: seq<Event>,
        events: seq<Event>)
    requires events == [e] + rest
    ensures settled + (batch + [e]) + rest == settled + batch + events
  {
  }
}
