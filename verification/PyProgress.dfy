/** What the Python queue gets on with: its sender is never stuck, batches leave when
    they are full or their time is up, and shutdown works once. */
module PyProgress {
  import opened Common
  import opened Shipping
  import opened PyQueue

  predicate OfSender(step: Step) {
    !step.Enqueue? && !step.CallShutdown? && !step.Close?
  }

  /** As long as it has not ended, the sender has a step to take. */
  lemma SenderCanGoOn(s: State)
    requires !s.sender.Ended?
    ensures exists step :: OfSender(step) && Enabled(s, step)
  {
    match s.sender {
      case Getting(_) =>
        if s.q == [] {
          assert OfSender(Timeout) && Enabled(s, Timeout);
        } else {
          assert OfSender(Get) && Enabled(s, Get);
        }
      case Deciding(_) => assert OfSender(Decide(true)) && Enabled(s, Decide(true));
      case Sending(_, _, _) => assert OfSender(Reply(None)) && Enabled(s, Reply(None));
      case Sleeping(_, _, _) => assert OfSender(Wake) && Enabled(s, Wake);
      case Marking(_, _) => assert OfSender(Mark) && Enabled(s, Mark);
      case SentinelDone => assert OfSender(MarkSentinel) && Enabled(s, MarkSentinel);
      case Draining(_) => assert OfSender(DrainOne) && Enabled(s, DrainOne);
      case DrainSentinel(_) => assert OfSender(MarkSentinel) && Enabled(s, MarkSentinel);
    }
  }

  /** Get takes the queue's first element, and it times out only on an empty queue; in
      either case what there is of a batch is looked at next. */
  lemma GetWaitsForElements(cfg: Config, s: State)
    requires s.sender.Getting?
    ensures Enabled(s, Timeout) <==> s.q == []
    ensures s.q == [] ==> Do(cfg, s, Timeout) == s.(sender := Deciding(s.sender.batch))
    ensures s.q != [] && s.q[0].Item? ==>
              Enabled(s, Get) && Do(cfg, s, Get) == s.(q := s.q[1..], sender := Deciding(s.sender.batch + [s.q[0].e]))
  {
  }

  function Offered(steps: seq<Step>): seq<Event> {
    if steps == [] then []
    else
      var n := |steps| - 1;
      Offered(steps[..n]) + if steps[n].Enqueue? then [steps[n].e] else []
  }

  function Shutdowns(steps: seq<Step>): nat {
    if steps == [] then 0 else Shutdowns(steps[..|steps| - 1]) + if steps[|steps| - 1].CallShutdown? then 1 else 0
  }

  lemma StepAnswers(cfg: Config, s: State, step: Step)
    requires Enabled(s, step)
    ensures var s' := Do(cfg, s, step);
            && |s'.closers| == |s.closers| + (if step.CallShutdown? then 1 else 0)
            && (!step.Enqueue? ==> s'.accepted == s.accepted && s'.refused == s.refused)
            && (step.Enqueue? && Full(cfg, s) ==> s'.accepted == s.accepted && s'.refused == s.refused + 1)
            && (step.Enqueue? && !Full(cfg, s) ==> s'.accepted == s.accepted + [step.e] && s'.refused == s.refused)
  {
  }

  /** Every event offered is accepted or counted as dropped, and if none was turned
      away the accepted events are those offered, in order; every shutdown is under
      way or over. */
  lemma {:induction false} OfferedIsAnswered(cfg: Config, steps: seq<Step>)
    requires IsRun(cfg, steps)
    ensures var s := RunOf(cfg, steps);
            && |Offered(steps)| == |s.accepted| + s.refused
            && (s.refused == 0 ==> s.accepted == Offered(steps))
            && |s.closers| == Shutdowns(steps)
  {
    if steps != [] {
      var n := |steps| - 1;
      OfferedIsAnswered(cfg, steps[..n]);
      StepAnswers(cfg, RunOf(cfg, steps[..n]), steps[n]);
    }
  }

  /** A call of task_done lowers the count by one, and nothing else does. */
  lemma TaskDoneLowersCount(cfg: Config, s: State, step: Step)
    requires Enabled(s, step)
    ensures CallsTaskDone(s, step) <==> Do(cfg, s, step).unfinished < s.unfinished
    ensures CallsTaskDone(s, step) ==> Do(cfg, s, step).unfinished == s.unfinished - 1
  {
  }

  // ------------------------------------------------------------------- batches

  function FullSize(cfg: Config): nat {
    if cfg.batchSize < 1 then 1 else cfg.batchSize
  }

  // Neither was the flush interval ever over nor shutdown called.
  predicate NeverTimeUp(steps: seq<Step>) {
    forall i :: 0 <= i < |steps| ==> steps[i] != Decide(true) && !steps[i].CallShutdown?
  }

  ghost predicate OnlyFull(cfg: Config, s: State) {
    && s.closers == [] && (forall i :: 0 <= i < |s.q| ==> s.q[i].Item?)
    && (forall i :: 0 <= i < |s.settled| ==> |s.settled[i].batch| == FullSize(cfg))
    && match s.sender
       case Getting(batch) => batch == [] || |batch| < cfg.batchSize
       case Deciding(batch) => batch == [] || |batch| <= FullSize(cfg)
       case Sending(batch, _, next) => |batch| == FullSize(cfg) && next.ToLoop?
       case Sleeping(batch, _, next) => |batch| == FullSize(cfg) && next.ToLoop?
       case Marking(_, next) => next.ToLoop?
       case _ => false
  }

  lemma StepOnlyFull(cfg: Config, s: State, step: Step)
    requires OnlyFull(cfg, s) && Enabled(s, step) && step != Decide(true) && !step.CallShutdown?
    ensures OnlyFull(cfg, Do(cfg, s, step))
  {
  }

  /** Without the flush interval and without a shutdown, every batch that leaves is
      full. */
  lemma {:induction false} OnlyFullBatchesLeave(cfg: Config, steps: seq<Step>)
    requires IsRun(cfg, steps) && NeverTimeUp(steps)
    ensures OnlyFull(cfg, RunOf(cfg, steps))
  {
    if steps != [] {
      var n := |steps| - 1;
      assert forall i :: 0 <= i < n ==> steps[..n][i] == steps[i];
      OnlyFullBatchesLeave(cfg, steps[..n]);
      StepOnlyFull(cfg, RunOf(cfg, steps[..n]), steps[n]);
    }
  }

  /** And when the interval is over, what there is leaves at once, full or not; an empty
      batch waits for the next event. */
  lemma TimeUpSends(cfg: Config, s: State)
    requires s.sender.Deciding? && cfg.maxRetries >= 1
    ensures var s' := Do(cfg, s, Decide(true));
            if s.sender.batch != [] then s'.sender == Sending(s.sender.batch, [], ToLoop)
            else if cfg.batchSize >= 1 then s' == s.(sender := Getting([]))
            else s' == s.(sender := Marking(0, ToLoop))
  {
  }

  /** Before that, what is not full waits on. */
  lemma LessThanFullWaits(cfg: Config, s: State)
    requires s.sender.Deciding? && |s.sender.batch| < cfg.batchSize
    ensures Do(cfg, s, Decide(false)) == s.(sender := Getting(s.sender.batch))
  {
  }

  // ------------------------------------------------------------------ shutdown

  /** The sentinel goes to the end of the queue, at the first try or, when one element
      was taken out of a full queue and nobody filled its place, at the second. */
  lemma SentinelIsPut(cfg: Config, s: State, c: nat)
    requires c < |s.closers| && (s.closers[c].Putting? || s.closers[c].PuttingAgain?) && !Full(cfg, s)
    ensures Do(cfg, s, Close(c))
         == s.(q := s.q + [Sentinel], unfinished := s.unfinished + 1, closers := s.closers[c := Waiting])
  {
  }

  /** The drain, too, fills its batches. */
  lemma LeftoversWait(cfg: Config, s: State)
    requires s.sender.Draining? && s.q != [] && s.q[0].Item? && |s.sender.leftovers| + 1 < cfg.batchSize
    ensures Do(cfg, s, DrainOne) == s.(q := s.q[1..], sender := Draining(s.sender.leftovers + [s.q[0].e]))
  {
  }

  // What the sender is doing belongs to the end: it has taken a sentinel.
  predicate Ending(w: Sender) {
    match w
    case Getting(_) => false
    case Deciding(_) => false
    case Sending(_, _, next) => !next.ToLoop?
    case Sleeping(_, _, next) => !next.ToLoop?
    case Marking(_, next) => !next.ToLoop?
    case _ => true
  }

  // The steps of the drain at most, with so many elements and leftovers.
  function DrainSteps(cfg: Config, elements: nat, leftovers: nat): nat {
    elements * (2 * Times(cfg.maxRetries) + 6) + 2 * Times(cfg.maxRetries) + 4 + leftovers
  }

  function AfterMarking(cfg: Config, elements: nat, next: Then): nat {
    match next
    case ToEnd => 0
    case ToDrain => DrainSteps(cfg, elements, 0)
    case _ => DrainSteps(cfg, elements, 0) + 1
  }

  // How many steps the sender has still to take at most, if the queue gets nothing more.
  function StepsLeft(cfg: Config, s: State): nat
    requires Ending(s.sender)
  {
    var retries := Times(cfg.maxRetries);
    match s.sender
    case Sending(batch, statuses, next) =>
      AfterMarking(cfg, |s.q|, next) + |batch| + 1 + (if |statuses| < retries then 2 * (retries - |statuses|) else 2)
    case Sleeping(batch, statuses, next) =>
      AfterMarking(cfg, |s.q|, next) + |batch| + 1
      + (if |statuses| < retries then 2 * (retries - |statuses|) + 1 else 1)
    case Marking(left, next) => AfterMarking(cfg, |s.q|, next) + left + 1
    case SentinelDone => DrainSteps(cfg, |s.q|, 0) + 1
    case Draining(leftovers) => DrainSteps(cfg, |s.q|, |leftovers|)
    case DrainSentinel(leftovers) => DrainSteps(cfg, |s.q|, |leftovers|) + 1
    case Ended => 0
  }

  lemma OneElementLess(n: nat, k: nat)
    requires n > 0
    ensures n * k == (n - 1) * k + k
  {
  }

  lemma EndingStep(cfg: Config, s: State, step: Step)
    requires Ending(s.sender) && Enabled(s, step) && OfSender(step)
    ensures var s' := Do(cfg, s, step);
            Ending(s'.sender) && StepsLeft(cfg, s') < StepsLeft(cfg, s)
  {
    match step {
      case DrainOne => DrainOneStep(cfg, s);
      case Reply(_) => SendingStep(cfg, s, step);
      case Wake => SendingStep(cfg, s, step);
      case _ =>
    }
  }

  lemma SendingStep(cfg: Config, s: State, step: Step)
    requires Ending(s.sender) && Enabled(s, step) && (step.Reply? || step.Wake?)
    ensures var s' := DoSend(cfg, s, step);
            Ending(s'.sender) && s'.q == s.q && StepsLeft(cfg, s') < StepsLeft(cfg, s)
  {
  }

  lemma DrainOneStep(cfg: Config, s: State)
    requires s.sender.Draining?
    ensures var s' := DoDrain(cfg, s);
            Ending(s'.sender) && StepsLeft(cfg, s') < StepsLeft(cfg, s)
  {
    if s.q != [] {
      OneElementLess(|s.q|, 2 * Times(cfg.maxRetries) + 6);
    }
  }

  lemma CloserStep(cfg: Config, s: State, step: Step)
    requires Ending(s.sender) && Enabled(s, step) && !OfSender(step)
    requires Do(cfg, s, step).q == s.q
    ensures var s' := Do(cfg, s, step);
            Ending(s'.sender) && StepsLeft(cfg, s') == StepsLeft(cfg, s)
  {
  }

  lemma {:induction false} PrefixIsRun(cfg: Config, steps: seq<Step>, k: nat)
    requires IsRun(cfg, steps) && k <= |steps|
    ensures IsRun(cfg, steps[..k])
  {
    if k < |steps| {
      PrefixIsRun(cfg, steps[..|steps| - 1], k);
      assert steps[..|steps| - 1][..k] == steps[..k];
    } else {
      assert steps[..k] == steps;
    }
  }

  function SenderSteps(steps: seq<Step>): nat {
    if steps == [] then 0 else SenderSteps(steps[..|steps| - 1]) + if OfSender(steps[|steps| - 1]) then 1 else 0
  }

  lemma {:induction false} SenderStepsLater(steps: seq<Step>, k: nat)
    requires k < |steps|
    ensures SenderSteps(steps[k..])
         == SenderSteps(steps[k..|steps| - 1]) + if OfSender(steps[|steps| - 1]) then 1 else 0
  {
    assert steps[k..][..|steps| - 1 - k] == steps[k..|steps| - 1];
  }

  // From place k on, only the sender touches the queue.
  ghost predicate LeftAlone(cfg: Config, steps: seq<Step>, k: nat)
    requires IsRun(cfg, steps)
  {
    forall i :: k <= i < |steps| && !OfSender(steps[i]) ==>
      IsRun(cfg, steps[..i]) && Enabled(RunOf(cfg, steps[..i]), steps[i])
      && Do(cfg, RunOf(cfg, steps[..i]), steps[i]).q == RunOf(cfg, steps[..i]).q
  }

  /** Once the sender has taken a sentinel, and the queue gets and loses nothing else, it
      ends: in every run after at most a number of its own steps that is fixed by what
      is queued and by the retries. */
  lemma {:induction false} SenderEnds(cfg: Config, steps: seq<Step>, k: nat)
    requires k <= |steps| && IsRun(cfg, steps) && IsRun(cfg, steps[..k])
    requires Ending(RunOf(cfg, steps[..k]).sender) && LeftAlone(cfg, steps, k)
    ensures Ending(RunOf(cfg, steps).sender)
    ensures SenderSteps(steps[k..]) + StepsLeft(cfg, RunOf(cfg, steps)) <= StepsLeft(cfg, RunOf(cfg, steps[..k]))
  {
    if k == |steps| {
      assert steps[..k] == steps && steps[k..] == [];
    } else {
      var n := |steps| - 1;
      assert steps[..n][..k] == steps[..k] && steps[..n][k..] == steps[k..n];
      forall i | k <= i < n && !OfSender(steps[..n][i])
        ensures IsRun(cfg, steps[..n][..i]) && Enabled(RunOf(cfg, steps[..n][..i]), steps[..n][i])
        ensures Do(cfg, RunOf(cfg, steps[..n][..i]), steps[..n][i]).q == RunOf(cfg, steps[..n][..i]).q
      {
        assert steps[..n][..i] == steps[..i];
      }
      SenderEnds(cfg, steps[..n], k);
      SenderStepsLater(steps, k);
      if OfSender(steps[n]) {
        EndingStep(cfg, RunOf(cfg, steps[..n]), steps[n]);
      } else {
        CloserStep(cfg, RunOf(cfg, steps[..n]), steps[n]);
      }
    }
  }

  /** Once a shutdown has set the flag, a further call returns at once and changes
      nothing; before that, it sets the flag itself. */
  lemma ShutdownWorksOnce(cfg: Config, s: State, c: nat)
    requires c < |s.closers| && s.closers[c].Called?
    ensures s.stop ==> Do(cfg, s, Close(c)) == s.(closers := s.closers[c := Closed])
    ensures !s.stop ==> Do(cfg, Do(cfg, s, Close(c)), Close(c)).stop
  {
  }

  lemma StopStays(cfg: Config, s: State, step: Step)
    requires Enabled(s, step)
    ensures s.stop ==> Do(cfg, s, step).stop
    ensures Do(cfg, s, step).stop && !s.stop ==> step.Close? && s.closers[step.c].Setting?
  {
  }
}
