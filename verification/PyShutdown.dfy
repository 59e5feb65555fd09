/** What shutting the Python queue down does to what was accepted: when an event
    is evicted, when flush keeps its promise, and what the sender leaves behind. */
module PyShutdown {
  import opened Common
  import opened PyQueue
  import opened Shipping

  // -------------------------------------------------------------- evictions

  // A shutdown call that makes room removes an event.
  predicate PopsItem(s: State, step: Step) {
    && step.Close? && Enabled(s, step)
    && s.closers[step.c].MakingRoom? && s.q != [] && s.q[0].Item?
  }

  // A shutdown call has no room for its sentinel.
  predicate MeetsFullQueue(cfg: Config, s: State, step: Step) {
    step.Close? && Enabled(s, step) && s.closers[step.c].Putting? && Full(cfg, s)
  }

  ghost predicate EverPopsItem(cfg: Config, steps: seq<Step>)
    requires IsRun(cfg, steps)
  {
    steps != [] && (
      var n := |steps| - 1;
      EverPopsItem(cfg, steps[..n]) || PopsItem(RunOf(cfg, steps[..n]), steps[n]))
  }

  ghost predicate EverMeetsFullQueue(cfg: Config, steps: seq<Step>)
    requires IsRun(cfg, steps)
  {
    steps != [] && (
      var n := |steps| - 1;
      EverMeetsFullQueue(cfg, steps[..n]) || MeetsFullQueue(cfg, RunOf(cfg, steps[..n]), steps[n]))
  }

  predicate MakesRoom(x: Closer) {
    x.MakingRoom? || x.Popped? || x.PuttingAgain?
  }

  ghost predicate NobodyMakesRoom(s: State) {
    forall c :: 0 <= c < |s.closers| ==> !MakesRoom(s.closers[c])
  }

  lemma SenderEvictsNothing(cfg: Config, s: State, step: Step)
    requires Enabled(s, step) && SenderStep(step)
    ensures Do(cfg, s, step).evicted == s.evicted && Do(cfg, s, step).closers == s.closers
  {
  }

  lemma StepEvicts(cfg: Config, s: State, step: Step)
    requires Enabled(s, step)
    ensures Do(cfg, s, step).evicted != [] <==> s.evicted != [] || PopsItem(s, step)
  {
    if SenderStep(step) {
      SenderEvictsNothing(cfg, s, step);
    }
  }

  lemma StepMakesRoom(cfg: Config, s: State, step: Step)
    requires Enabled(s, step) && NobodyMakesRoom(s) && !MeetsFullQueue(cfg, s, step)
    ensures NobodyMakesRoom(Do(cfg, s, step))
  {
    if SenderStep(step) {
      SenderEvictsNothing(cfg, s, step);
    }
  }

  /** An event is evicted if and only if some shutdown call that found the queue
      full then removed an event; without a call that found it full none makes
      room, and without a bound on the queue no call finds it full. */
  lemma {:induction false} EvictionsExactly(cfg: Config, steps: seq<Step>)
    requires IsRun(cfg, steps)
    ensures RunOf(cfg, steps).evicted != [] <==> EverPopsItem(cfg, steps)
    ensures !EverMeetsFullQueue(cfg, steps) ==> NobodyMakesRoom(RunOf(cfg, steps)) && !EverPopsItem(cfg, steps)
    ensures cfg.maxSize <= 0 ==> !EverMeetsFullQueue(cfg, steps)
  {
    if steps != [] {
      var n := |steps| - 1;
      var s := RunOf(cfg, steps[..n]);
      EvictionsExactly(cfg, steps[..n]);
      StepEvicts(cfg, s, steps[n]);
      if !EverMeetsFullQueue(cfg, steps) {
        StepMakesRoom(cfg, s, steps[n]);
      }
    }
  }

  lemma {:induction false} RunMore(cfg: Config, steps: seq<Step>, step: Step)
    requires IsRun(cfg, steps) && Enabled(RunOf(cfg, steps), step)
    ensures IsRun(cfg, steps + [step])
    ensures RunOf(cfg, steps + [step]) == Do(cfg, RunOf(cfg, steps), step)
  {
    LastIsLast(steps, step);
  }

  // The sender waits for its next batch, and these are queued.
  ghost predicate Waits(s: State, q: seq<Elem>, closers: seq<Closer>, evicted: seq<Event>) {
    s.sender == Getting([]) && s.q == q && s.closers == closers && s.evicted == evicted && s.refused == 0
  }

  function ItemsOf(e: Event, n: nat): (q: seq<Elem>)
    ensures |q| == n
  {
    seq(n, _ => Item(e))
  }

  // n events for a queue with room for them.
  lemma {:induction false} Fill(cfg: Config, e: Event, n: nat) returns (steps: seq<Step>)
    requires n <= cfg.maxSize
    ensures IsRun(cfg, steps) && Waits(RunOf(cfg, steps), ItemsOf(e, n), [], [])
  {
    steps := [];
    if n > 0 {
      steps := Fill(cfg, e, n - 1);
      RunMore(cfg, steps, Enqueue(e));
      steps := steps + [Enqueue(e)];
      assert ItemsOf(e, n - 1) + [Item(e)] == ItemsOf(e, n);
    }
  }

  // Shutdown meets the full queue and evicts its first event.
  lemma ShutdownFullQueue(cfg: Config, before: seq<Step>, e: Event) returns (steps: seq<Step>)
    requires cfg.maxSize > 0 && IsRun(cfg, before) && Waits(RunOf(cfg, before), ItemsOf(e, cfg.maxSize), [], [])
    requires !RunOf(cfg, before).stop
    ensures IsRun(cfg, steps)
    ensures Waits(RunOf(cfg, steps), ItemsOf(e, cfg.maxSize - 1) + [Sentinel], [Waiting], [e])
  {
    RunMore(cfg, before, CallShutdown);
    steps := before + [CallShutdown];
    assert RunOf(cfg, steps).closers == [Called];
    steps := CloseOnce(cfg, steps, Setting);
    steps := CloseOnce(cfg, steps, Putting);
    steps := CloseOnce(cfg, steps, MakingRoom);
    steps := CloseOnce(cfg, steps, Popped);
    steps := CloseOnce(cfg, steps, PuttingAgain);
    steps := CloseOnce(cfg, steps, Waiting);
    assert ItemsOf(e, cfg.maxSize)[1..] == ItemsOf(e, cfg.maxSize - 1);
  }

  // One step of the only shutdown call.
  lemma CloseOnce(cfg: Config, before: seq<Step>, next: Closer) returns (steps: seq<Step>)
    requires IsRun(cfg, before)
    requires var s := RunOf(cfg, before); |s.closers| == 1 && Enabled(s, Close(0))
    requires DoClose(cfg, RunOf(cfg, before), 0).closers[0] == next
    ensures IsRun(cfg, steps)
    ensures RunOf(cfg, steps) == DoClose(cfg, RunOf(cfg, before), 0) && RunOf(cfg, steps).closers == [next]
  {
    RunMore(cfg, before, Close(0));
    steps := before + [Close(0)];
  }

  // The sender takes one event, ships it and marks it done.
  lemma ShipOne(cfg: Config, before: seq<Step>, e: Event, q: seq<Elem>, closers: seq<Closer>,
        evicted: seq<Event>)
      returns (steps: seq<Step>)
    requires IsRun(cfg, before) && Waits(RunOf(cfg, before), [Item(e)] + q, closers, evicted)
    ensures IsRun(cfg, steps) && Waits(RunOf(cfg, steps), q, closers, evicted)
  {
    RunMore(cfg, before, Get);
    steps := before + [Get];
    assert RunOf(cfg, steps).q == q;
    RunMore(cfg, steps, Decide(true));
    steps := steps + [Decide(true)];
    if cfg.maxRetries > 0 {
      RunMore(cfg, steps, Reply(Some(202)));
      steps := steps + [Reply(Some(202))];
    }
    assert RunOf(cfg, steps).sender == Marking(1, ToLoop);
    RunMore(cfg, steps, Mark);
    steps := steps + [Mark];
    RunMore(cfg, steps, Mark);
    steps := steps + [Mark];
  }

  lemma {:induction false} ShipAll(cfg: Config, before: seq<Step>, e: Event, n: nat, closers: seq<Closer>,
        evicted: seq<Event>)
      returns (steps: seq<Step>)
    requires IsRun(cfg, before) && Waits(RunOf(cfg, before), ItemsOf(e, n) + [Sentinel], closers, evicted)
    ensures IsRun(cfg, steps) && Waits(RunOf(cfg, steps), [Sentinel], closers, evicted)
    decreases n
  {
    steps := before;
    if n == 0 {
      assert ItemsOf(e, 0) + [Sentinel] == [Sentinel];
    } else {
      assert ItemsOf(e, n) + [Sentinel] == [Item(e)] + (ItemsOf(e, n - 1) + [Sentinel]);
      steps := ShipOne(cfg, steps, e, ItemsOf(e, n - 1) + [Sentinel], closers, evicted);
      steps := ShipAll(cfg, steps, e, n - 1, closers, evicted);
    }
  }

  lemma TakeSentinel(cfg: Config, before: seq<Step>, evicted: seq<Event>) returns (steps: seq<Step>)
    requires IsRun(cfg, before) && Waits(RunOf(cfg, before), [Sentinel], [Waiting], evicted)
    ensures IsRun(cfg, steps)
    ensures var s := RunOf(cfg, steps);
            s.q == [] && s.sender == Draining([]) && s.closers == [Waiting] && s.evicted == evicted && s.refused == 0
  {
    RunMore(cfg, before, Get);
    steps := before + [Get];
    RunMore(cfg, steps, Mark);
    steps := steps + [Mark];
    RunMore(cfg, steps, MarkSentinel);
    steps := steps + [MarkSentinel];
  }

  /** For every bounded queue there is a run in which flush answers True and an
      accepted event was neither sent nor counted: as many events as fit are
      queued, a shutdown call evicts the first to make room for its sentinel, and
      the sender ships the rest. */
  lemma FlushCanMissAnEvent(cfg: Config, e: Event) returns (steps: seq<Step>)
    requires cfg.maxSize > 0
    ensures IsRun(cfg, steps)
    ensures var s := RunOf(cfg, steps);
            && s.unfinished == 0 && s.evicted == [e] && s.accepted != Batches(s.settled)
            && s.dropped == ExhaustedEvents(s.settled)
  {
    steps := Fill(cfg, e, cfg.maxSize);
    NoShutdownNoStop(cfg, steps);
    steps := ShutdownFullQueue(cfg, steps, e);
    steps := ShipAll(cfg, steps, e, cfg.maxSize - 1, [Waiting], [e]);
    steps := TakeSentinel(cfg, steps, [e]);
    NobodyOwes();
    UnfinishedIsExact(cfg, steps);
    FlushIsExact(cfg, steps);
    RunKeepsContract(cfg, steps);
  }

  lemma NobodyOwes()
    ensures OwedByClosers([Waiting]) == 0
  {
    assert [Waiting][..0] == [];
  }

  lemma {:induction false} NoShutdownNoStop(cfg: Config, steps: seq<Step>)
    requires IsRun(cfg, steps) && RunOf(cfg, steps).closers == []
    ensures !RunOf(cfg, steps).stop
  {
    if steps != [] {
      var n := |steps| - 1;
      var s := RunOf(cfg, steps[..n]);
      if SenderStep(steps[n]) {
        SenderEvictsNothing(cfg, s, steps[n]);
      }
      assert s.closers == [];
      NoShutdownNoStop(cfg, steps[..n]);
    }
  }

  // "Block until every enqueued event has been shipped (or dropped)", in one run.
  ghost predicate FlushHolds(cfg: Config, steps: seq<Step>) {
    IsRun(cfg, steps) && RunOf(cfg, steps).unfinished == 0 ==>
      RunOf(cfg, steps).accepted == Batches(RunOf(cfg, steps).settled)
  }

  /** flush keeps its promise in every run if and only if the queue is unbounded. */
  lemma FlushPromiseNeedsUnboundedQueue(cfg: Config)
    ensures (forall steps :: FlushHolds(cfg, steps)) <==> cfg.maxSize <= 0
  {
    if cfg.maxSize <= 0 {
      forall steps
        ensures FlushHolds(cfg, steps)
      {
        if IsRun(cfg, steps) && RunOf(cfg, steps).unfinished == 0 {
          EvictionsExactly(cfg, steps);
          FlushIsExact(cfg, steps);
        }
      }
    } else {
      var steps := FlushCanMissAnEvent(cfg, 0);
      assert !FlushHolds(cfg, steps);
    }
  }

  // ------------------------------------------------------- the sender has ended

  // The sender has found the queue empty after the sentinel and never looks again.
  predicate DoneLooking(w: Sender) {
    match w
    case Sending(_, _, next) => next == ToEnd
    case Sleeping(_, _, next) => next == ToEnd
    case Marking(_, next) => next == ToEnd
    case Ended => true
    case _ => false
  }

  // The length of the run up to that look.
  ghost function LastLook(cfg: Config, steps: seq<Step>): (n: nat)
    requires IsRun(cfg, steps)
    ensures n <= |steps| && IsRun(cfg, steps[..n])
  {
    if steps == [] then 0
    else
      var n := |steps| - 1;
      if steps[n].DrainOne? && RunOf(cfg, steps[..n]).q == [] then n
      else
        var k := LastLook(cfg, steps[..n]);
        assert steps[..n][..k] == steps[..k];
        k
  }

  // What is queued is what was accepted last.
  ghost predicate QueuedLast(accepted: seq<Event>, q: seq<Elem>) {
    |Items(q)| <= |accepted| && Items(q) == accepted[|accepted| - |Items(q)|..]
  }

  lemma TakeFirstKeeps(accepted: seq<Event>, q: seq<Elem>)
    requires QueuedLast(accepted, q) && q != []
    ensures QueuedLast(accepted, q[1..]) && |Items(q[1..])| <= |Items(q)|
  {
  }

  lemma PutKeeps(accepted: seq<Event>, q: seq<Elem>, x: Elem)
    requires QueuedLast(accepted, q)
    ensures QueuedLast(if x.Item? then accepted + [x.e] else accepted, q + [x])
    ensures |Items(q + [x])| == |Items(q)| + if x.Item? then 1 else 0
  {
    ItemsAppend(q, x);
  }

  // Only an arrival lengthens the queued items.
  lemma StepQueues(cfg: Config, s: State, step: Step)
    requires Enabled(s, step) && QueuedLast(s.accepted, s.q)
    ensures var s' := Do(cfg, s, step);
            && QueuedLast(s'.accepted, s'.q)
            && |Items(s'.q)| - |Items(s.q)| <= |s'.accepted| - |s.accepted|
  {
    if s.q != [] {
      TakeFirstKeeps(s.accepted, s.q);
    }
    match step {
      case Enqueue(e) => PutKeeps(s.accepted, s.q, Item(e));
      case Close(c) =>
        PutKeeps(s.accepted, s.q, Sentinel);
        CloseQueues(cfg, s, c);
      case CallShutdown =>
      case _ => SenderTakesFirst(cfg, s, step);
    }
  }

  lemma CloseQueues(cfg: Config, s: State, c: nat)
    requires Enabled(s, Close(c))
    ensures var s' := DoClose(cfg, s, c);
            s'.accepted == s.accepted
            && (s'.q == s.q || s'.q == s.q + [Sentinel] || (s.q != [] && s'.q == s.q[1..]))
  {
  }

  lemma SenderTakesFirst(cfg: Config, s: State, step: Step)
    requires Enabled(s, step) && SenderStep(step)
    ensures var s' := Do(cfg, s, step);
            s'.accepted == s.accepted && (s'.q == s.q || (s.q != [] && s'.q == s.q[1..]))
  {
  }

  lemma StepStopsLooking(cfg: Config, s: State, step: Step)
    requires Enabled(s, step) && DoneLooking(Do(cfg, s, step).sender)
    ensures DoneLooking(s.sender) || (step.DrainOne? && s.q == [])
    ensures step.DrainOne? && s.q == [] ==> Do(cfg, s, step).q == [] && Do(cfg, s, step).accepted == s.accepted
  {
  }

  lemma {:induction false} QueuedAfterLastLook(cfg: Config, steps: seq<Step>)
    requires IsRun(cfg, steps)
    ensures QueuedLast(RunOf(cfg, steps).accepted, RunOf(cfg, steps).q)
    ensures var s, look := RunOf(cfg, steps), RunOf(cfg, steps[..LastLook(cfg, steps)]);
            DoneLooking(s.sender) ==> look.q == [] && |Items(s.q)| <= |s.accepted| - |look.accepted|
  {
    if steps != [] {
      var n := |steps| - 1;
      var s := RunOf(cfg, steps[..n]);
      QueuedAfterLastLook(cfg, steps[..n]);
      StepQueues(cfg, s, steps[n]);
      if DoneLooking(RunOf(cfg, steps).sender) {
        StepStopsLooking(cfg, s, steps[n]);
      }
      var k := LastLook(cfg, steps[..n]);
      assert steps[..n][..k] == steps[..k];
    }
  }

  // Copy by copy, what was accepted is settled, was evicted or is queued; without
  // evictions in that order.
  ghost predicate NothingInHand(s: State, e: Event) {
    && multiset(s.accepted)[e]
       == multiset(Batches(s.settled))[e] + multiset(s.evicted)[e] + multiset(Items(s.q))[e]
    && (s.evicted == [] ==> s.accepted == Batches(s.settled) + Items(s.q))
  }

  lemma EndedHoldsNothing(cfg: Config, s: State, e: Event)
    requires Inv(cfg, s) && s.sender.Ended?
    ensures NothingInHand(s, e)
  {
    assert Local(s.sender) == [];
    var copies: Measure<Event> := t => multiset(t)[e];
    assert ConservedBy(copies, s);
    assert Batches(s.settled) + [] == Batches(s.settled);
  }

  /** Once the sender has ended, every event accepted before its last look at the
      queue is settled or was evicted; what is still queued arrived after that
      look, in that order, and will never be sent. */
  lemma EndedSenderHasSettled(cfg: Config, steps: seq<Step>, e: Event)
    requires IsRun(cfg, steps) && RunOf(cfg, steps).sender.Ended?
    ensures var s, look := RunOf(cfg, steps), RunOf(cfg, steps[..LastLook(cfg, steps)]);
            && look.q == [] && |Items(s.q)| <= |s.accepted| - |look.accepted|
            && QueuedLast(s.accepted, s.q)
            && NothingInHand(s, e)
  {
    QueuedAfterLastLook(cfg, steps);
    RunKeepsInv(cfg, steps);
    EndedHoldsNothing(cfg, RunOf(cfg, steps), e);
  }
}
