/** The Python SDK's telemetry queue.

    A sender thread, any number of producers and any number of shutdown calls
    share a bounded queue.Queue.  Each queue operation, task_done call, send and
    test of a shared flag is one step; a run is any sequence of enabled steps.
    The queue counts its unfinished tasks itself: one more for every put, one
    less for every task_done. */
module PyQueue {
  import opened Common
  import opened Shipping

  datatype Elem = Item(e: Event) | Sentinel

  // A maxSize that is not positive means no bound, as for queue.Queue.
  datatype Config = Config(maxSize: int, batchSize: int, maxRetries: int)

  // Where the sender goes on after a flush.
  datatype Then = ToLoop | ToSentinel | ToDrain | ToEnd

  datatype Sender =
    | Getting(batch: seq<Event>)
    | Deciding(batch: seq<Event>)
    | Sending(batch: seq<Event>, statuses: seq<Status>, next: Then)
    | Sleeping(batch: seq<Event>, statuses: seq<Status>, next: Then)
    | Marking(left: nat, next: Then)              // in _mark_done
    | SentinelDone                                // about to mark the sentinel itself
    | Draining(leftovers: seq<Event>)
    | DrainSentinel(leftovers: seq<Event>)        // popped a further sentinel, has yet to mark it
    | Ended

  // One call of shutdown.
  datatype Closer =
    | Called
    | Setting                                     // found _stop clear
    | Putting
    | MakingRoom                                  // the queue was full
    | Popped                                      // removed one element, has yet to mark it
    | PuttingAgain
    | Waiting
    | Closed

  datatype State = State(
    q: seq<Elem>,
    unfinished: int,
    sender: Sender,
    closers: seq<Closer>,
    stop: bool,
    dropped: int,
    accepted: seq<Event>,      // every event put, in order
    settled: seq<Record>,
    evicted: seq<Event>,       // removed by shutdown to make room
    refused: nat)

  function Init(): State {
    State([], 0, Getting([]), [], false, 0, [], [], [], 0)
  }

  predicate Full(cfg: Config, s: State) {
    cfg.maxSize > 0 && |s.q| >= cfg.maxSize
  }

  function Put(s: State, x: Elem): State {
    s.(q := s.q + [x], unfinished := s.unfinished + 1)
  }

  function Finish(s: State, r: Record, next: Then): State {
    s.(sender := Marking(|r.batch|, next), settled := s.settled + [r],
       dropped := if r.verdict == Exhausted then s.dropped + |r.batch| else s.dropped)
  }

  function NextAttempt(cfg: Config, s: State, batch: seq<Event>, statuses: seq<Status>, next: Then): State {
    if |statuses| < cfg.maxRetries then s.(sender := Sending(batch, statuses, next))
    else Finish(s, Record(batch, statuses, Exhausted), next)
  }

  // _flush, up to its first send; an empty batch is not sent.
  function Flush(cfg: Config, s: State, batch: seq<Event>, next: Then): State {
    if batch == [] then s.(sender := Marking(0, next)) else NextAttempt(cfg, s, batch, [], next)
  }

  function After(next: Then): Sender {
    match next
    case ToLoop => Getting([])
    case ToSentinel => SentinelDone
    case ToDrain => Draining([])
    case ToEnd => Ended
  }

  datatype Step =
    | Enqueue(e: Event)
    | Get
    | Timeout
    | Decide(timeUp: bool)
    | Reply(status: Status)
    | Wake
    | Mark
    | MarkSentinel
    | DrainOne
    | CallShutdown
    | Close(c: nat)

  predicate Enabled(s: State, step: Step) {
    match step
    case Enqueue(_) => true
    case Get => s.sender.Getting? && s.q != []
    case Timeout => s.sender.Getting? && s.q == []
    case Decide(_) => s.sender.Deciding?
    case Reply(_) => s.sender.Sending?
    case Wake => s.sender.Sleeping?
    case Mark => s.sender.Marking?
    case MarkSentinel => s.sender.SentinelDone? || s.sender.DrainSentinel?
    case DrainOne => s.sender.Draining?
    case CallShutdown => true
    case Close(c) => c < |s.closers| && !s.closers[c].Closed?
  }

  // Does the step call task_done?
  predicate CallsTaskDone(s: State, step: Step) {
    Enabled(s, step) &&
    match step
    case Mark => s.sender.left > 0
    case MarkSentinel => true
    case Close(c) => s.closers[c].Popped?
    case _ => false
  }

  function DoSend(cfg: Config, s: State, step: Step): State
    requires Enabled(s, step) && (step.Reply? || step.Wake?)
  {
    match step
    case Reply(status) =>
      var Sending(batch, before, next) := s.sender;
      var statuses := before + [status];
      if Retryable(status) then s.(sender := Sleeping(batch, statuses, next))
      else Finish(s, Record(batch, statuses, Final(status)), next)
    case Wake => NextAttempt(cfg, s, s.sender.batch, s.sender.statuses, s.sender.next)
  }

  function DoGet(cfg: Config, s: State): State
    requires Enabled(s, Get)
  {
    var s' := s.(q := s.q[1..]);
    match s.q[0]
    case Sentinel => Flush(cfg, s', s.sender.batch, ToSentinel)
    case Item(e) => s'.(sender := Deciding(s.sender.batch + [e]))
  }

  function DoDrain(cfg: Config, s: State): State
    requires Enabled(s, DrainOne)
  {
    var leftovers := s.sender.leftovers;
    if s.q == [] then
      if leftovers == [] then s.(sender := Ended) else Flush(cfg, s, leftovers, ToEnd)
    else
      var s' := s.(q := s.q[1..]);
      match s.q[0]
      case Sentinel => s'.(sender := DrainSentinel(leftovers))
      case Item(e) =>
        var more := leftovers + [e];
        if |more| >= cfg.batchSize then Flush(cfg, s', more, ToDrain) else s'.(sender := Draining(more))
  }

  function SetCloser(s: State, c: nat, x: Closer): State
    requires c < |s.closers|
  {
    s.(closers := s.closers[c := x])
  }

  function DoClose(cfg: Config, s: State, c: nat): State
    requires Enabled(s, Close(c))
  {
    match s.closers[c]
    case Called => SetCloser(s, c, if s.stop then Closed else Setting)
    case Setting => SetCloser(s.(stop := true), c, Putting)
    case Putting =>
      if Full(cfg, s) then SetCloser(s, c, MakingRoom) else SetCloser(Put(s, Sentinel), c, Waiting)
    case MakingRoom =>
      if s.q == [] then SetCloser(s, c, Waiting)
      else
        SetCloser(s, c, Popped)
          .(q := s.q[1..], evicted := if s.q[0].Item? then s.evicted + [s.q[0].e] else s.evicted)
    case Popped => SetCloser(s.(unfinished := s.unfinished - 1), c, PuttingAgain)
    case PuttingAgain =>
      if Full(cfg, s) then SetCloser(s, c, Waiting) else SetCloser(Put(s, Sentinel), c, Waiting)
    case Waiting => SetCloser(s, c, Closed)
  }

  function Do(cfg: Config, s: State, step: Step): State
    requires Enabled(s, step)
  {
    match step
    case Enqueue(e) =>
      if Full(cfg, s) then s.(dropped := s.dropped + 1, refused := s.refused + 1)
      else Put(s, Item(e)).(accepted := s.accepted + [e])
    case Get => DoGet(cfg, s)
    case Timeout => s.(sender := Deciding(s.sender.batch))
    case Decide(timeUp) =>
      var batch := s.sender.batch;
      if |batch| >= cfg.batchSize || (batch != [] && timeUp) then Flush(cfg, s, batch, ToLoop)
      else s.(sender := Getting(batch))
    case Reply(_) => DoSend(cfg, s, step)
    case Wake => DoSend(cfg, s, step)
    case Mark =>
      var Marking(left, next) := s.sender;
      if left == 0 then s.(sender := After(next))
      else s.(unfinished := s.unfinished - 1, sender := Marking(left - 1, next))
    case MarkSentinel =>
      s.(unfinished := s.unfinished - 1,
         sender := Draining(if s.sender.DrainSentinel? then s.sender.leftovers else []))
    case DrainOne => DoDrain(cfg, s)
    case CallShutdown => s.(closers := s.closers + [Called])
    case Close(c) => DoClose(cfg, s, c)
  }

  // --------------------------------------------------------------- invariants

  function Items(q: seq<Elem>): seq<Event> {
    if q == [] then []
    else if q[0].Item? then [q[0].e] + Items(q[1..])
    else Items(q[1..])
  }

  lemma {:induction false} ItemsAppend(q: seq<Elem>, x: Elem)
    ensures Items(q + [x]) == Items(q) + (if x.Item? then [x.e] else [])
  {
    if q == [] {
      assert [x][1..] == [];
    } else {
      assert (q + [x])[1..] == q[1..] + [x];
      ItemsAppend(q[1..], x);
    }
  }

  // The events the sender has taken and not settled.
  function Local(w: Sender): seq<Event> {
    match w
    case Getting(batch) => batch
    case Deciding(batch) => batch
    case Sending(batch, _, _) => batch
    case Sleeping(batch, _, _) => batch
    case Draining(leftovers) => leftovers
    case DrainSentinel(leftovers) => leftovers
    case _ => []
  }

  // The task_done calls the sender still owes.
  function Owed(w: Sender): nat {
    match w
    case Marking(left, next) => left + SentinelOwed(next)
    case Sending(batch, _, next) => |batch| + SentinelOwed(next)
    case Sleeping(batch, _, next) => |batch| + SentinelOwed(next)
    case SentinelDone => 1
    case DrainSentinel(leftovers) => |leftovers| + 1
    case _ => |Local(w)|
  }

  function SentinelOwed(next: Then): nat {
    if next == ToSentinel then 1 else 0
  }

  function OwedByClosers(cs: seq<Closer>): nat {
    if cs == [] then 0
    else OwedByClosers(cs[..|cs| - 1]) + if cs[|cs| - 1].Popped? then 1 else 0
  }

  lemma {:induction false} ClosersUpdate(cs: seq<Closer>, c: nat, x: Closer)
    requires c < |cs|
    ensures OwedByClosers(cs[c := x])
         == OwedByClosers(cs) + (if x.Popped? then 1 else 0) - (if cs[c].Popped? then 1 else 0)
  {
    var n := |cs| - 1;
    if c < n {
      ClosersUpdate(cs[..n], c, x);
      assert cs[c := x][..n] == cs[..n][c := x];
    } else {
      assert cs[c := x][..n] == cs[..n];
    }
  }

  // The queue's own count is what is queued plus what is owed.
  predicate CountsRight(s: State) {
    s.unfinished == |s.q| + Owed(s.sender) + OwedByClosers(s.closers)
  }

  // By any measure, what was accepted is settled, evicted, with the sender or
  // queued.
  ghost predicate ConservedBy(m: Measure<Event>, s: State) {
    m(s.accepted) == m(Batches(s.settled)) + m(s.evicted) + m(Local(s.sender)) + m(Items(s.q))
  }

  // As long as shutdown has evicted nothing, the order is kept as well.
  ghost predicate InOrder(s: State) {
    s.evicted == [] ==> s.accepted == Batches(s.settled) + Local(s.sender) + Items(s.q)
  }

  predicate ProperBatch(cfg: Config, batch: seq<Event>) {
    1 <= |batch| <= if cfg.batchSize < 1 then 1 else cfg.batchSize
  }

  ghost predicate GoodRecord(cfg: Config, r: Record) {
    && r.verdict != Unsendable
    && Explains(r.statuses, r.verdict, cfg.maxRetries)
    && ProperBatch(cfg, r.batch)
  }

  ghost predicate GoodSender(cfg: Config, w: Sender) {
    match w
    case Getting(batch) => batch == [] || |batch| < cfg.batchSize
    case Deciding(batch) => batch == [] || ProperBatch(cfg, batch)
    case Draining(leftovers) => leftovers == [] || |leftovers| < cfg.batchSize
    case DrainSentinel(leftovers) => leftovers == [] || |leftovers| < cfg.batchSize
    case Sending(batch, statuses, _) =>
      ProperBatch(cfg, batch) && Underway(statuses, cfg.maxRetries) && |statuses| < cfg.maxRetries
    case Sleeping(batch, statuses, _) => ProperBatch(cfg, batch) && Underway(statuses, cfg.maxRetries)
    case _ => true
  }

  ghost predicate GoodHistory(cfg: Config, s: State) {
    && (forall i :: 0 <= i < |s.settled| ==> GoodRecord(cfg, s.settled[i]))
    && GoodSender(cfg, s.sender)
    && s.dropped == s.refused + ExhaustedEvents(s.settled)
  }

  predicate Bounded(cfg: Config, s: State) {
    cfg.maxSize > 0 ==> |s.q| <= cfg.maxSize
  }

  ghost predicate Inv(cfg: Config, s: State) {
    && CountsRight(s)
    && (forall m: Measure<Event> :: Additive(m) ==> ConservedBy(m, s))
    && InOrder(s)
    && GoodHistory(cfg, s)
    && Bounded(cfg, s)
  }

  // ------------------------------------------------- each part of the invariant

  lemma FlushCounts(cfg: Config, s: State, batch: seq<Event>, next: Then)
    ensures Owed(Flush(cfg, s, batch, next).sender) == |batch| + SentinelOwed(next)
  {
  }

  lemma CloseCounts(cfg: Config, s: State, c: nat)
    requires CountsRight(s) && Enabled(s, Close(c))
    ensures CountsRight(DoClose(cfg, s, c))
  {
    ClosersUpdate(s.closers, c, DoClose(cfg, s, c).closers[c]);
  }

  lemma GetCounts(cfg: Config, s: State)
    requires CountsRight(s) && Enabled(s, Get)
    ensures CountsRight(DoGet(cfg, s))
  {
    FlushCounts(cfg, s.(q := s.q[1..]), s.sender.batch, ToSentinel);
  }

  lemma DrainCounts(cfg: Config, s: State)
    requires CountsRight(s) && Enabled(s, DrainOne)
    ensures CountsRight(DoDrain(cfg, s))
  {
    FlushCounts(cfg, s, s.sender.leftovers, ToEnd);
    if s.q != [] && s.q[0].Item? {
      FlushCounts(cfg, s.(q := s.q[1..]), s.sender.leftovers + [s.q[0].e], ToDrain);
    }
  }

  lemma SendCounts(cfg: Config, s: State, step: Step)
    requires CountsRight(s) && Enabled(s, step) && (step.Reply? || step.Wake?)
    ensures CountsRight(DoSend(cfg, s, step))
  {
  }

  lemma DoCounts(cfg: Config, s: State, step: Step)
    requires CountsRight(s) && Enabled(s, step)
    ensures CountsRight(Do(cfg, s, step))
  {
    match step {
      case Close(c) => CloseCounts(cfg, s, c);
      case CallShutdown => LastIsLast(s.closers, Called);
      case Enqueue(_) =>
      case Timeout =>
      case Mark =>
      case MarkSentinel =>
      case Get => GetCounts(cfg, s);
      case DrainOne => DrainCounts(cfg, s);
      case Decide(_) => FlushCounts(cfg, s, s.sender.batch, ToLoop);
      case _ => SendCounts(cfg, s, step);
    }
  }

  lemma DoBounded(cfg: Config, s: State, step: Step)
    requires Bounded(cfg, s) && Enabled(s, step)
    ensures Bounded(cfg, Do(cfg, s, step))
  {
  }

  // The sender moves events from the queue to its batch to the settled ones;
  // told with sequences, for both conservation and order.
  ghost predicate SenderMoves(s: State, s': State) {
    && s'.accepted == s.accepted && s'.evicted == s.evicted
    && Batches(s'.settled) + Local(s'.sender) + Items(s'.q) == Batches(s.settled) + Local(s.sender) + Items(s.q)
  }

  predicate SenderStep(step: Step) {
    !step.Enqueue? && !step.CallShutdown? && !step.Close?
  }

  lemma FinishMoves(s: State, r: Record, next: Then)
    ensures Batches(Finish(s, r, next).settled) == Batches(s.settled) + r.batch
  {
  }

  lemma FlushMoves(cfg: Config, s: State, batch: seq<Event>, next: Then)
    ensures var s' := Flush(cfg, s, batch, next);
            && s'.accepted == s.accepted && s'.evicted == s.evicted && s'.q == s.q
            && Batches(s'.settled) + Local(s'.sender) == Batches(s.settled) + batch
  {
    FinishMoves(s, Record(batch, [], Exhausted), next);
    assert Batches(s.settled) + batch + [] == Batches(s.settled) + batch;
    assert Batches(s.settled) + [] == Batches(s.settled);
  }

  lemma SendMoves(cfg: Config, s: State, step: Step)
    requires Enabled(s, step) && (step.Reply? || step.Wake?)
    ensures SenderMoves(s, DoSend(cfg, s, step))
  {
    var batch, next := s.sender.batch, s.sender.next;
    var statuses := if step.Reply? then s.sender.statuses + [step.status] else s.sender.statuses;
    if step.Reply? && !Retryable(step.status) {
      FinishMoves(s, Record(batch, statuses, Final(step.status)), next);
    }
    FinishMoves(s, Record(batch, statuses, Exhausted), next);
    assert Batches(s.settled) + batch + [] == Batches(s.settled) + batch;
  }

  lemma GetMoves(cfg: Config, s: State)
    requires Enabled(s, Get)
    ensures SenderMoves(s, DoGet(cfg, s))
  {
    var batch := s.sender.batch;
    var s' := s.(q := s.q[1..]);
    match s.q[0] {
      case Sentinel => FlushMoves(cfg, s', batch, ToSentinel);
      case Item(e) =>
        TakeMoves(Batches(s.settled), batch, e, Items(s'.q));
    }
  }

  lemma TakeMoves(settled: seq<Event>, batch: seq<Event>, e: Event, rest: seq<Event>)
    ensures settled + (batch + [e]) + rest == settled + batch + ([e] + rest)
  {
  }

  lemma DrainItemMoves(cfg: Config, s: State)
    requires Enabled(s, DrainOne) && s.q != [] && s.q[0].Item?
    ensures SenderMoves(s, DoDrain(cfg, s))
  {
    var leftovers, e := s.sender.leftovers, s.q[0].e;
    FlushMoves(cfg, s.(q := s.q[1..]), leftovers + [e], ToDrain);
    TakeMoves(Batches(s.settled), leftovers, e, Items(s.q[1..]));
    assert Items(s.q) == [e] + Items(s.q[1..]);
  }

  lemma DrainMoves(cfg: Config, s: State)
    requires Enabled(s, DrainOne)
    ensures SenderMoves(s, DoDrain(cfg, s))
  {
    if s.q == [] {
      FlushMoves(cfg, s, s.sender.leftovers, ToEnd);
    } else if s.q[0].Item? {
      DrainItemMoves(cfg, s);
    }
  }

  lemma SenderStepMoves(cfg: Config, s: State, step: Step)
    requires Enabled(s, step) && SenderStep(step)
    ensures SenderMoves(s, Do(cfg, s, step))
  {
    match step {
      case Get => GetMoves(cfg, s);
      case Reply(_) => SendMoves(cfg, s, step);
      case Wake => SendMoves(cfg, s, step);
      case Decide(_) => FlushMoves(cfg, s, s.sender.batch, ToLoop);
      case DrainOne => DrainMoves(cfg, s);
      case _ =>
    }
  }

  lemma MovesConserve(m: Measure<Event>, s: State, s': State)
    requires Additive(m) && SenderMoves(s, s') && ConservedBy(m, s)
    ensures ConservedBy(m, s')
  {
  }

  lemma CloseMoves(cfg: Config, s: State, c: nat)
    requires Enabled(s, Close(c))
    ensures var s' := DoClose(cfg, s, c);
            && s'.accepted == s.accepted && s'.settled == s.settled && s'.sender == s.sender
            && s'.evicted + Items(s'.q) == s.evicted + Items(s.q)
            && |s.evicted| <= |s'.evicted|
            && (s'.evicted == s.evicted ==> Items(s'.q) == Items(s.q))
  {
    ItemsAppend(s.q, Sentinel);
    assert Items(s.q) + [] == Items(s.q);
    if s.closers[c].MakingRoom? && s.q != [] && s.q[0].Item? {
      ConcatAssociates(s.evicted, [s.q[0].e], Items(s.q[1..]));
    }
  }

  lemma StepConserves(cfg: Config, s: State, step: Step, m: Measure<Event>)
    requires Enabled(s, step) && Additive(m) && ConservedBy(m, s)
    ensures ConservedBy(m, Do(cfg, s, step))
  {
    match step {
      case Enqueue(e) => ItemsAppend(s.q, Item(e));
      case CallShutdown =>
      case Close(c) =>
        CloseMoves(cfg, s, c);
        var s' := DoClose(cfg, s, c);
        assert m(s'.evicted + Items(s'.q)) == m(s.evicted + Items(s.q));
      case _ =>
        SenderStepMoves(cfg, s, step);
        MovesConserve(m, s, Do(cfg, s, step));
    }
  }

  lemma StepKeepsOrder(cfg: Config, s: State, step: Step)
    requires Enabled(s, step) && InOrder(s)
    ensures InOrder(Do(cfg, s, step))
  {
    match step {
      case Enqueue(e) =>
        ItemsAppend(s.q, Item(e));
        ConcatAssociates(Batches(s.settled) + Local(s.sender), Items(s.q), [e]);
      case CallShutdown =>
      case Close(c) => CloseMoves(cfg, s, c);
      case _ => SenderStepMoves(cfg, s, step);
    }
  }

  lemma FinishGood(cfg: Config, s: State, r: Record, next: Then)
    requires forall i :: 0 <= i < |s.settled| ==> GoodRecord(cfg, s.settled[i])
    requires s.dropped == s.refused + ExhaustedEvents(s.settled) && GoodRecord(cfg, r)
    ensures GoodHistory(cfg, Finish(s, r, next))
  {
  }

  lemma NextAttemptGood(cfg: Config, s: State, batch: seq<Event>, statuses: seq<Status>, next: Then)
    requires forall i :: 0 <= i < |s.settled| ==> GoodRecord(cfg, s.settled[i])
    requires s.dropped == s.refused + ExhaustedEvents(s.settled)
    requires ProperBatch(cfg, batch) && Underway(statuses, cfg.maxRetries)
    ensures GoodHistory(cfg, NextAttempt(cfg, s, batch, statuses, next))
  {
    if |statuses| >= cfg.maxRetries {
      FinishGood(cfg, s, Record(batch, statuses, Exhausted), next);
    }
  }

  lemma FlushGood(cfg: Config, s: State, batch: seq<Event>, next: Then)
    requires forall i :: 0 <= i < |s.settled| ==> GoodRecord(cfg, s.settled[i])
    requires s.dropped == s.refused + ExhaustedEvents(s.settled)
    requires batch == [] || ProperBatch(cfg, batch)
    ensures GoodHistory(cfg, Flush(cfg, s, batch, next))
  {
    if batch != [] {
      NextAttemptGood(cfg, s, batch, [], next);
    }
  }

  lemma SendGood(cfg: Config, s: State, step: Step)
    requires GoodHistory(cfg, s) && Enabled(s, step) && (step.Reply? || step.Wake?)
    ensures GoodHistory(cfg, DoSend(cfg, s, step))
  {
    match step {
      case Reply(status) =>
        var Sending(batch, before, next) := s.sender;
        if !Retryable(status) {
          FinalExplains(before, status, cfg.maxRetries);
          FinishGood(cfg, s, Record(batch, before + [status], Final(status)), next);
        }
      case Wake => NextAttemptGood(cfg, s, s.sender.batch, s.sender.statuses, s.sender.next);
    }
  }

  lemma GetGood(cfg: Config, s: State)
    requires GoodHistory(cfg, s) && Enabled(s, Get)
    ensures GoodHistory(cfg, DoGet(cfg, s))
  {
    if s.q[0].Sentinel? {
      FlushGood(cfg, s.(q := s.q[1..]), s.sender.batch, ToSentinel);
    }
  }

  lemma CloseGood(cfg: Config, s: State, c: nat)
    requires GoodHistory(cfg, s) && Enabled(s, Close(c))
    ensures GoodHistory(cfg, DoClose(cfg, s, c))
  {
  }

  // The steps that neither send nor settle anything.
  lemma OtherGood(cfg: Config, s: State, step: Step)
    requires GoodHistory(cfg, s) && Enabled(s, step)
    requires step.Enqueue? || step.Timeout? || step.Mark? || step.MarkSentinel? || step.CallShutdown?
    ensures GoodHistory(cfg, Do(cfg, s, step))
  {
  }

  lemma StepGood(cfg: Config, s: State, step: Step)
    requires GoodHistory(cfg, s) && Enabled(s, step)
    ensures GoodHistory(cfg, Do(cfg, s, step))
  {
    match step {
      case Get => GetGood(cfg, s);
      case Reply(_) => SendGood(cfg, s, step);
      case Wake => SendGood(cfg, s, step);
      case Decide(_) => FlushGood(cfg, s, s.sender.batch, ToLoop);
      case DrainOne => DrainGood(cfg, s);
      case Close(c) => CloseGood(cfg, s, c);
      case _ => OtherGood(cfg, s, step);
    }
  }

  lemma DrainGood(cfg: Config, s: State)
    requires GoodHistory(cfg, s) && Enabled(s, DrainOne)
    ensures GoodHistory(cfg, DoDrain(cfg, s))
  {
    var leftovers := s.sender.leftovers;
    if s.q == [] {
      FlushGood(cfg, s, leftovers, ToEnd);
    } else if s.q[0].Item? && |leftovers| + 1 >= cfg.batchSize {
      FlushGood(cfg, s.(q := s.q[1..]), leftovers + [s.q[0].e], ToDrain);
    }
  }

  lemma StepKeepsInv(cfg: Config, s: State, step: Step)
    requires Inv(cfg, s) && Enabled(s, step)
    ensures Inv(cfg, Do(cfg, s, step))
  {
    DoCounts(cfg, s, step);
    DoBounded(cfg, s, step);
    StepKeepsOrder(cfg, s, step);
    StepGood(cfg, s, step);
    forall m: Measure<Event> | Additive(m)
      ensures ConservedBy(m, Do(cfg, s, step))
    {
      StepConserves(cfg, s, step, m);
    }
  }

  // --------------------------------------------------------------------- runs

  ghost predicate IsRun(cfg: Config, steps: seq<Step>)
    decreases |steps|, 0
  {
    steps == [] || (
      var n := |steps| - 1;
      IsRun(cfg, steps[..n]) && Enabled(RunOf(cfg, steps[..n]), steps[n]))
  }

  ghost function RunOf(cfg: Config, steps: seq<Step>): State
    requires IsRun(cfg, steps)
    decreases |steps|, 1
  {
    if steps == [] then Init() else Do(cfg, RunOf(cfg, steps[..|steps| - 1]), steps[|steps| - 1])
  }

  lemma {:induction false} RunKeepsInv(cfg: Config, steps: seq<Step>)
    requires IsRun(cfg, steps)
    ensures Inv(cfg, RunOf(cfg, steps))
  {
    if steps != [] {
      var n := |steps| - 1;
      RunKeepsInv(cfg, steps[..n]);
      StepKeepsInv(cfg, RunOf(cfg, steps[..n]), steps[n]);
    }
  }

  /** The queue's count of unfinished tasks is, in every run, what is queued -
      sentinels included - plus what has been taken and not yet marked done. */
  lemma UnfinishedIsExact(cfg: Config, steps: seq<Step>)
    requires IsRun(cfg, steps)
    ensures var s := RunOf(cfg, steps);
            s.unfinished == |s.q| + Owed(s.sender) + OwedByClosers(s.closers)
  {
    RunKeepsInv(cfg, steps);
  }

  lemma {:induction false} PoppedIsOwed(cs: seq<Closer>, c: nat)
    requires c < |cs| && cs[c].Popped?
    ensures OwedByClosers(cs) >= 1
  {
    if c < |cs| - 1 {
      PoppedIsOwed(cs[..|cs| - 1], c);
    }
  }

  /** task_done is never called once too often, so it never raises. */
  lemma TaskDoneNeverRaises(cfg: Config, steps: seq<Step>, step: Step)
    requires IsRun(cfg, steps) && CallsTaskDone(RunOf(cfg, steps), step)
    ensures RunOf(cfg, steps).unfinished >= 1
  {
    var s := RunOf(cfg, steps);
    RunKeepsInv(cfg, steps);
    if step.Close? {
      PoppedIsOwed(s.closers, step.c);
    }
  }

  /** flush answers true when the count is zero.  Then every event accepted so
      far, copy by copy, is in a settled batch or was evicted by a shutdown that
      needed room; without such an eviction the settled batches are the accepted
      events in their order. */
  lemma FlushIsSound(cfg: Config, steps: seq<Step>, e: Event)
    requires IsRun(cfg, steps) && RunOf(cfg, steps).unfinished == 0
    ensures var s := RunOf(cfg, steps);
            && multiset(s.accepted)[e] == multiset(Batches(s.settled))[e] + multiset(s.evicted)[e]
            && (s.evicted == [] ==> s.accepted == Batches(s.settled))
  {
    var s := RunOf(cfg, steps);
    RunKeepsInv(cfg, steps);
    assert Local(s.sender) == [] && s.q == [];
    var copies: Measure<Event> := t => multiset(t)[e];
    assert ConservedBy(copies, s);
  }

  /** At that moment the settled batches are all that was accepted if and only if
      nothing has been evicted. */
  lemma FlushIsExact(cfg: Config, steps: seq<Step>)
    requires IsRun(cfg, steps) && RunOf(cfg, steps).unfinished == 0
    ensures var s := RunOf(cfg, steps);
            s.accepted == Batches(s.settled) <==> s.evicted == []
  {
    var s := RunOf(cfg, steps);
    RunKeepsInv(cfg, steps);
    assert Local(s.sender) == [] && s.q == [];
    var size: Measure<Event> := t => |t|;
    assert ConservedBy(size, s);
  }

  /** The batches, their answers and the drop counter, in every run.  Evicted
      events are the ones the counter misses. */
  lemma {:induction false} RunKeepsContract(cfg: Config, steps: seq<Step>)
    requires IsRun(cfg, steps)
    ensures var s := RunOf(cfg, steps);
            && Bounded(cfg, s) && InOrder(s)
            && (forall i :: 0 <= i < |s.settled| ==> GoodRecord(cfg, s.settled[i]))
            && s.dropped == s.refused + ExhaustedEvents(s.settled)
            && |s.accepted| == |Batches(s.settled)| + |s.evicted| + |Local(s.sender)| + |Items(s.q)|
  {
    RunKeepsInv(cfg, steps);
    var size: Measure<Event> := t => |t|;
    assert ConservedBy(size, RunOf(cfg, steps));
  }

  // -------------------------------------------------------------------- class

  /** The queue with its sender running undisturbed: the loops of _mark_done and
      _drain_remaining, which run once the sentinel has been seen. */
  class TelemetryQueue {
    const cfg: Config
    var q: seq<Elem>
    var unfinished: int
    var dropped: int
    ghost var settled: seq<Record>

    constructor (cfg: Config)
      ensures this.cfg == cfg && q == [] && unfinished == 0 && dropped == 0 && settled == []
    {
      this.cfg := cfg;
      q, unfinished, dropped, settled := [], 0, 0, [];
    }

    // put_nowait, with the drop that enqueue makes of a full queue.
    method Enqueue(e: Event)
      modifies this`q, this`unfinished, this`dropped
      ensures var full := cfg.maxSize > 0 && |old(q)| >= cfg.maxSize;
              && q == (if full then old(q) else old(q) + [Item(e)])
              && unfinished - |q| == old(unfinished) - |old(q)|
              && dropped == old(dropped) + (if full then 1 else 0)
    {
      if cfg.maxSize > 0 && |q| >= cfg.maxSize {
        dropped := dropped + 1;
        return;
      }
      q := q + [Item(e)];
      unfinished := unfinished + 1;
    }

    method MarkDone(n: nat)
      requires unfinished >= n
      modifies this`unfinished
      ensures unfinished == old(unfinished) - n
    {
      var i := 0;
      while i < n
        invariant 0 <= i <= n && unfinished == old(unfinished) - i
      {
        unfinished := unfinished - 1;
        i := i + 1;
      }
    }

    method FlushBatch(batch: seq<Event>, reply: nat -> Status)
      requires batch != []
      modifies this`dropped, this`settled
      ensures |settled| == |old(settled)| + 1 && settled[..|old(settled)|] == old(settled)
      ensures var r := settled[|settled| - 1];
              && r.batch == batch && r.verdict != Unsendable && Explains(r.statuses, r.verdict, cfg.maxRetries)
              && dropped == old(dropped) + (if r.verdict == Exhausted then |batch| else 0)
    {
      var verdict, statuses, waits := Ship(reply, cfg.maxRetries);
      if verdict == Exhausted {
        dropped := dropped + |batch|;
      }
      settled := settled + [Record(batch, statuses, verdict)];
    }

    /** Everything still queued is settled, in order, and marked done;
        sentinels are marked done and skipped. */
    method DrainRemaining(replies: nat -> nat -> Status)
      requires unfinished >= |q|
      modifies this
      ensures q == [] && unfinished == old(unfinished) - |old(q)|
      ensures Batches(settled) == Batches(old(settled)) + Items(old(q))
      ensures dropped - ExhaustedEvents(settled) == old(dropped) - ExhaustedEvents(old(settled))
    {
      var leftovers: seq<Event> := [];
      ghost var before, total := Batches(settled), Items(q);
      assert before + [] + total == before + total;
      while q != []
        invariant unfinished >= |q| + |leftovers|
        invariant unfinished - |q| - |leftovers| == old(unfinished) - |old(q)|
        invariant Batches(settled) + leftovers + Items(q) == before + total
        invariant dropped - ExhaustedEvents(settled) == old(dropped) - ExhaustedEvents(old(settled))
        decreases |q|
      {
        var item := q[0];
        ghost var rest := Items(q[1..]);
        q := q[1..];
        if item == Sentinel {
          unfinished := unfinished - 1;
        } else {
          TakeMoves(Batches(settled), leftovers, item.e, rest);
          leftovers := leftovers + [item.e];
          if |leftovers| >= cfg.batchSize {
            FlushAndMark(leftovers, replies(|q|));
            leftovers := [];
          }
        }
      }
      if leftovers != [] {
        FlushAndMark(leftovers, replies(0));
      }
    }

    method FlushAndMark(batch: seq<Event>, reply: nat -> Status)
      requires batch != [] && unfinished >= |batch|
      modifies this`dropped, this`settled, this`unfinished
      ensures unfinished == old(unfinished) - |batch|
      ensures Batches(settled) == Batches(old(settled)) + batch
      ensures forall rest :: Batches(settled) + [] + rest == Batches(old(settled)) + batch + rest
      ensures dropped - ExhaustedEvents(settled) == old(dropped) - ExhaustedEvents(old(settled))
    {
      FlushBatch(batch, reply);
      MarkDone(|batch|);
      assert Batches(settled) + [] == Batches(settled);
    }
  }
}
