/** What deduplication promises for the buffer of the concurrent service: how often
    an id gets into it, and how far apart. */
module Buffering {
  import opened Common
  import opened Events
  import opened IngestProtocol
  import Dedup
  import Batch

  // ----------------------------------------------------------------- how often

  // The events with the id.
  function Copies(events: seq<Event>, id: Dedup.Key): nat {
    if events == [] then 0
    else Copies(events[..|events| - 1], id) + if events[|events| - 1].requestId == id then 1 else 0
  }

  lemma {:induction false} CopiesAdd(a: seq<Event>, b: seq<Event>, id: Dedup.Key)
    ensures Copies(a + b, id) == Copies(a, id) + Copies(b, id)
  {
    if b == [] {
      assert a + b == a;
    } else {
      var n := |b| - 1;
      assert (a + b)[..|a| + n] == a + b[..n];
      CopiesAdd(a, b[..n], id);
    }
  }

  // The events with the id that requests have let through and not yet enqueued.
  function KeptBy(h: Handler, id: Dedup.Key): nat {
    if h.Checking? then Copies(h.kept, id) else 0
  }

  function KeptIn(hs: seq<Handler>, id: Dedup.Key): nat {
    if hs == [] then 0 else KeptIn(hs[..|hs| - 1], id) + KeptBy(hs[|hs| - 1], id)
  }

  lemma {:induction false} KeptUpdate(hs: seq<Handler>, i: nat, x: Handler, id: Dedup.Key)
    requires i < |hs|
    ensures KeptIn(hs[i := x], id) == KeptIn(hs, id) + KeptBy(x, id) - KeptBy(hs[i], id)
  {
    var n := |hs| - 1;
    if i < n {
      KeptUpdate(hs[..n], i, x, id);
      assert hs[i := x][..n] == hs[..n][i := x];
    } else {
      assert hs[i := x][..n] == hs[..n];
    }
  }

  // No more copies of an id are kept or enqueued than were let through.
  ghost predicate CopiesAsked(cfg: Config, s: State, id: Dedup.Key) {
    KeptIn(s.handlers, id) + Copies(s.ledger.enqueued, id) <= Dedup.LetThrough(s.calls, id, cfg.dedup)
  }

  // A step of handler h that hands it `more` new copies and enqueues `moved`.
  lemma HandlerCopies(cfg: Config, s: State, s': State, h: nat, id: Dedup.Key, moved: nat, more: nat)
    requires CopiesAsked(cfg, s, id) && h < |s.handlers| == |s'.handlers|
    requires s'.handlers == s.handlers[h := s'.handlers[h]]
    requires KeptBy(s'.handlers[h], id) + moved <= KeptBy(s.handlers[h], id) + more
    requires Copies(s'.ledger.enqueued, id) == Copies(s.ledger.enqueued, id) + moved
    requires Dedup.LetThrough(s'.calls, id, cfg.dedup) == Dedup.LetThrough(s.calls, id, cfg.dedup) + more
    ensures CopiesAsked(cfg, s', id)
  {
    KeptUpdate(s.handlers, h, s'.handlers[h], id);
  }

  lemma KeepOneMore(kept: seq<Event>, todo: seq<Event>, e: Event, id: Dedup.Key)
    ensures KeptBy(Checking(todo, kept + [e]), id) == Copies(kept, id) + if e.requestId == id then 1 else 0
  {
    LastIsLast(kept, e);
  }

  lemma ExamineCopies(cfg: Config, s: State, h: nat, now: int, id: Dedup.Key)
    requires |s.shards| == Dedup.SHARD_COUNT && Enabled(cfg, s, Examine(h, now))
    requires Remembered(cfg, s) && CopiesAsked(cfg, s, id)
    ensures CopiesAsked(cfg, DoExamine(cfg, s, h, now), id)
  {
    var Checking(todo, kept) := s.handlers[h];
    var e, s' := todo[0], DoExamine(cfg, s, h, now);
    if !e.Validates() {
      HandlerCopies(cfg, s, s', h, id, 0, 0);
    } else {
      var seen := Dedup.Ask(s.shards, e.requestId, now, cfg.dedup).1;
      Dedup.LetThroughOneMore(s.calls, Dedup.Asked(e.requestId, now), id, cfg.dedup);
      KeepOneMore(kept, todo[1..], e, id);
      HandlerCopies(cfg, s, s', h, id, 0, if !seen && e.requestId == id then 1 else 0);
    }
  }

  lemma EnqueueCopies(cfg: Config, s: State, h: nat, id: Dedup.Key)
    requires AllChecked(s, h) && CopiesAsked(cfg, s, id)
    ensures CopiesAsked(cfg, DoEnqueue(cfg, s, h), id)
  {
    var kept, s' := s.handlers[h].kept, DoEnqueue(cfg, s, h);
    CopiesAdd(s.ledger.enqueued, kept, id);
    if kept != [] && Batch.Fits(cfg.opts, s.buf, kept) {
      HandlerCopies(cfg, s, s', h, id, Copies(kept, id), 0);
    } else {
      HandlerCopies(cfg, s, s', h, id, 0, 0);
    }
  }

  // Nothing that deduplication looks at has changed.
  predicate SameCopies(s: State, s': State) {
    && s'.handlers == s.handlers && s'.ledger.enqueued == s.ledger.enqueued
    && s'.calls == s.calls && s'.clock == s.clock
  }

  lemma DrainKeepsCopies(cfg: Config, s: State, d: nat, ok: bool, cancelled: bool)
    requires Enabled(cfg, s, Drain(d, ok, cancelled))
    ensures SameCopies(s, DoDrain(cfg, s, d, ok, cancelled))
  {
  }

  lemma AttemptKeepsCopies(cfg: Config, s: State, ok: bool, cancelled: bool)
    requires s.runner.Holding?
    ensures SameCopies(s, DoAttempt(cfg, s, ok, cancelled))
  {
  }

  predicate Elsewhere(step: Step) {
    !step.Begin? && !step.Examine? && !step.Enqueue? && !step.Signal? && !step.Sweep?
  }

  lemma OthersKeepCopies(cfg: Config, s: State, step: Step)
    requires |s.shards| == Dedup.SHARD_COUNT && Enabled(cfg, s, step) && Elsewhere(step)
    ensures SameCopies(s, Do(cfg, s, step))
  {
    match step {
      case Drain(d, ok, cancelled) => DrainKeepsCopies(cfg, s, d, ok, cancelled);
      case Attempt(ok, cancelled) => AttemptKeepsCopies(cfg, s, ok, cancelled);
      case _ =>
    }
  }

  lemma StepCopies(cfg: Config, s: State, step: Step, id: Dedup.Key)
    requires |s.shards| == Dedup.SHARD_COUNT && Enabled(cfg, s, step)
    requires Remembered(cfg, s) && CopiesAsked(cfg, s, id)
    ensures CopiesAsked(cfg, Do(cfg, s, step), id)
  {
    match step {
      case Begin(events) => LastIsLast(s.handlers, Checking(events, []));
      case Examine(h, now) => ExamineCopies(cfg, s, h, now, id);
      case Enqueue(h, _) => EnqueueCopies(cfg, s, h, id);
      case Signal(h) => KeptUpdate(s.handlers, h, Finished, id);
      case Sweep(now) => Dedup.LetThroughOneMore(s.calls, Dedup.Sweep(now), id, cfg.dedup);
      case _ => OthersKeepCopies(cfg, s, step);
    }
  }

  /** In every run, an id reaches the buffer at most as often as the set let it
      through. */
  lemma {:induction false} BufferedCopiesWereAsked(cfg: Config, steps: seq<Step>, id: Dedup.Key)
    requires Batch.Normal(cfg.opts) && IsRun(cfg, Init(), steps)
    ensures CopiesAsked(cfg, RunFrom(cfg, Init(), steps), id)
  {
    if steps != [] {
      var n := |steps| - 1;
      BufferedCopiesWereAsked(cfg, steps[..n], id);
      RunIsSafe(cfg, steps[..n]);
      StepCopies(cfg, RunFrom(cfg, Init(), steps[..n]), steps[n], id);
    }
  }

  // Questions a and b let the id through, n - 1 times ttl apart.
  ghost predicate TimeFor(cfg: Config, calls: seq<Dedup.Call>, id: Dedup.Key, n: nat, a: nat, b: nat) {
    && a <= b < |calls|
    && Dedup.LetThroughAt(calls, a, id, cfg.dedup) && Dedup.LetThroughAt(calls, b, id, cfg.dedup)
    && (n - 1) * cfg.dedup.ttl <= calls[b].now - calls[a].now
  }

  lemma QuestionsTakeTime(cfg: Config, calls: seq<Dedup.Call>, n: nat, id: Dedup.Key)
      returns (a: nat, b: nat)
    requires Dedup.Nondecreasing(calls) && id != [] && 1 <= n <= Dedup.LetThrough(calls, id, cfg.dedup)
    ensures TimeFor(cfg, calls, id, n, a, b)
  {
    a, b := Dedup.SomeLetThroughTakeTime(calls, n, id, cfg.dedup);
  }

  /** So of n copies of a non-empty id in the buffer's whole history the first and
      the last were let through by examinations n - 1 times ttl apart. */
  lemma BufferedCopiesAreApart(cfg: Config, steps: seq<Step>, id: Dedup.Key) returns (a: nat, b: nat)
    requires Batch.Normal(cfg.opts) && IsRun(cfg, Init(), steps)
    requires id != [] && Copies(RunFrom(cfg, Init(), steps).ledger.enqueued, id) >= 1
    ensures var s := RunFrom(cfg, Init(), steps);
            TimeFor(cfg, s.calls, id, Copies(s.ledger.enqueued, id), a, b)
  {
    var s := RunFrom(cfg, Init(), steps);
    CallsInOrder(cfg, steps);
    BufferedCopiesWereAsked(cfg, steps, id);
    a, b := QuestionsTakeTime(cfg, s.calls, Copies(s.ledger.enqueued, id), id);
  }

  lemma CallsInOrder(cfg: Config, steps: seq<Step>)
    requires Batch.Normal(cfg.opts) && IsRun(cfg, Init(), steps)
    ensures Dedup.Nondecreasing(RunFrom(cfg, Init(), steps).calls)
  {
    RunIsSafe(cfg, steps);
  }

  /** In every run, two examinations that both let an event with the same id
      through are at least ttl apart. */
  lemma LetThroughTtlApart(cfg: Config, steps: seq<Step>, i: nat, j: nat)
    requires Batch.Normal(cfg.opts) && IsRun(cfg, Init(), steps)
    requires var calls := RunFrom(cfg, Init(), steps).calls;
             && i < j < |calls| && calls[i].Asked? && calls[j].Asked?
             && calls[i].key == calls[j].key != []
             && !Dedup.Answer(calls, i, cfg.dedup) && !Dedup.Answer(calls, j, cfg.dedup)
    ensures var calls := RunFrom(cfg, Init(), steps).calls;
            calls[j].now - calls[i].now >= cfg.dedup.ttl
  {
    RunIsSafe(cfg, steps);
    Dedup.LetThroughAtLeastTtlApart(RunFrom(cfg, Init(), steps).calls, i, j, cfg.dedup);
  }

  // ------------------------------------------------------------- how far apart

  // A copy in the buffer's history: the question that let it through, and when it
  // was appended.
  datatype Arrival = Arrival(question: nat, at: int)

  // What a run tells beside its states: the handler that asked each question, the
  // questions that let through what each handler keeps, and the copies that
  // arrived in the buffer, in order.
  datatype Trace = Trace(owner: seq<Option<nat>>, held: seq<seq<nat>>, arrivals: seq<Arrival>)

  predicate Stores(cfg: Config, s: State, h: nat)
    requires AllChecked(s, h)
  {
    s.handlers[h].kept != [] && Batch.Fits(cfg.opts, s.buf, s.handlers[h].kept)
  }

  function NoteExamine(cfg: Config, s: State, t: Trace, h: nat, now: int): Trace
    requires |s.shards| == Dedup.SHARD_COUNT && Enabled(cfg, s, Examine(h, now)) && |t.held| == |s.handlers|
  {
    var e := s.handlers[h].todo[0];
    if !e.Validates() then t
    else if Dedup.Ask(s.shards, e.requestId, now, cfg.dedup).1 then t.(owner := t.owner + [Some(h)])
    else t.(owner := t.owner + [Some(h)], held := t.held[h := t.held[h] + [|s.calls|]])
  }

  function NoteEnqueue(cfg: Config, s: State, t: Trace, h: nat, now: int): Trace
    requires AllChecked(s, h) && |t.held| == |s.handlers|
  {
    if !Stores(cfg, s, h) then t
    else t.(arrivals := t.arrivals + seq(|t.held[h]|, k requires 0 <= k < |t.held[h]| => Arrival(t.held[h][k], now)))
  }

  function Note(cfg: Config, s: State, t: Trace, step: Step): Trace
    requires |s.shards| == Dedup.SHARD_COUNT && Enabled(cfg, s, step) && |t.held| == |s.handlers|
  {
    match step
    case Begin(_) => t.(held := t.held + [[]])
    case Examine(h, now) => NoteExamine(cfg, s, t, h, now)
    case Sweep(_) => t.(owner := t.owner + [None])
    case Enqueue(h, now) => NoteEnqueue(cfg, s, t, h, now)
    case _ => t
  }

  ghost function TraceOf(cfg: Config, steps: seq<Step>): (t: Trace)
    requires IsRun(cfg, Init(), steps)
    ensures |t.held| == |RunFrom(cfg, Init(), steps).handlers|
  {
    if steps == [] then Trace([], [], [])
    else
      var n := |steps| - 1;
      HandlerCount(cfg, RunFrom(cfg, Init(), steps[..n]), steps[n]);
      Note(cfg, RunFrom(cfg, Init(), steps[..n]), TraceOf(cfg, steps[..n]), steps[n])
  }

  lemma HandlerCount(cfg: Config, s: State, step: Step)
    requires |s.shards| == Dedup.SHARD_COUNT && Enabled(cfg, s, step)
    ensures |Do(cfg, s, step).handlers| == |s.handlers| + if step.Begin? then 1 else 0
  {
    if Elsewhere(step) {
      OthersKeepCopies(cfg, s, step);
    }
  }

  // Handler h asked question q about the id, and it was let through.
  ghost predicate AskedFor(cfg: Config, s: State, t: Trace, q: nat, h: nat, id: Dedup.Key) {
    && q < |s.calls| == |t.owner| && t.owner[q] == Some(h) && h < |s.handlers|
    && Dedup.LetThroughAt(s.calls, q, id, cfg.dedup)
  }

  ghost predicate HeldRight(cfg: Config, s: State, t: Trace, h: nat)
    requires h < |s.handlers| == |t.held|
  {
    s.handlers[h].Checking? ==>
      && |t.held[h]| == |s.handlers[h].kept|
      && (forall k :: 0 <= k < |t.held[h]| ==> AskedFor(cfg, s, t, t.held[h][k], h, s.handlers[h].kept[k].requestId))
      && (forall k, l :: 0 <= k < l < |t.held[h]| ==> t.held[h][k] < t.held[h][l])
  }

  ghost predicate ArrivedRight(cfg: Config, s: State, t: Trace, i: nat)
    requires i < |t.arrivals| == |s.ledger.enqueued|
  {
    var Arrival(q, at) := t.arrivals[i];
    && q < |s.calls| == |t.owner| && t.owner[q].Some?
    && AskedFor(cfg, s, t, q, t.owner[q].value, s.ledger.enqueued[i].requestId)
    && !s.handlers[t.owner[q].value].Checking?
    && s.calls[q].now <= at
    && s.clock.Some? && at <= s.clock.value
  }

  // The arrivals are the buffer's history, in order, and no question was used twice.
  ghost predicate Traced(cfg: Config, s: State, t: Trace) {
    && |t.held| == |s.handlers| && |t.owner| == |s.calls| && |t.arrivals| == |s.ledger.enqueued|
    && (forall h :: 0 <= h < |s.handlers| ==> HeldRight(cfg, s, t, h))
    && (forall i :: 0 <= i < |t.arrivals| ==> ArrivedRight(cfg, s, t, i))
    && (forall i, j :: 0 <= i < j < |t.arrivals| ==> t.arrivals[i].question != t.arrivals[j].question)
    && (forall i, j :: 0 <= i < j < |t.arrivals| ==> t.arrivals[i].at <= t.arrivals[j].at)
  }

  // Later questions and handlers do not change what was asked before.
  ghost predicate Later(s: State, t: Trace, s': State, t': Trace) {
    && |s.calls| == |t.owner| && |s'.calls| == |t'.owner|
    && s.calls <= s'.calls && t.owner <= t'.owner && |s.handlers| <= |s'.handlers|
  }

  lemma AskedForLater(cfg: Config, s: State, t: Trace, s': State, t': Trace, q: nat, h: nat, id: Dedup.Key)
    requires Later(s, t, s', t') && AskedFor(cfg, s, t, q, h, id)
    ensures AskedFor(cfg, s', t', q, h, id) && s'.calls[q] == s.calls[q]
  {
    assert s'.calls[..q] == s.calls[..q];
  }

  lemma HeldLater(cfg: Config, s: State, t: Trace, s': State, t': Trace, h: nat)
    requires Later(s, t, s', t') && h < |s.handlers| == |t.held| && |t'.held| == |s'.handlers|
    requires HeldRight(cfg, s, t, h) && t'.held[h] == t.held[h] && s'.handlers[h] == s.handlers[h]
    ensures HeldRight(cfg, s', t', h)
  {
    if s.handlers[h].Checking? {
      forall k | 0 <= k < |t.held[h]|
        ensures AskedFor(cfg, s', t', t.held[h][k], h, s.handlers[h].kept[k].requestId)
      {
        AskedForLater(cfg, s, t, s', t', t.held[h][k], h, s.handlers[h].kept[k].requestId);
      }
    }
  }

  // Nothing arrives; a handler that has appended is not checking again.
  ghost predicate NothingArrives(s: State, t: Trace, s': State, t': Trace) {
    && Later(s, t, s', t') && t'.arrivals == t.arrivals && s'.ledger.enqueued == s.ledger.enqueued
    && (forall h :: 0 <= h < |s.handlers| && !s.handlers[h].Checking? ==> !s'.handlers[h].Checking?)
    && (s.clock.Some? ==> s'.clock.Some? && s.clock.value <= s'.clock.value)
  }

  lemma ArrivedLater(cfg: Config, s: State, t: Trace, s': State, t': Trace, i: nat)
    requires NothingArrives(s, t, s', t') && Traced(cfg, s, t) && i < |t.arrivals|
    ensures ArrivedRight(cfg, s', t', i)
  {
    var q := t.arrivals[i].question;
    assert ArrivedRight(cfg, s, t, i);
    AskedForLater(cfg, s, t, s', t', q, t.owner[q].value, s.ledger.enqueued[i].requestId);
  }

  lemma TracedLater(cfg: Config, s: State, t: Trace, s': State, t': Trace)
    requires NothingArrives(s, t, s', t') && Traced(cfg, s, t)
    requires |t'.held| == |s'.handlers|
    requires forall h :: 0 <= h < |s'.handlers| ==> HeldRight(cfg, s', t', h)
    ensures Traced(cfg, s', t')
  {
    forall i | 0 <= i < |t'.arrivals|
      ensures ArrivedRight(cfg, s', t', i)
    {
      ArrivedLater(cfg, s, t, s', t', i);
    }
  }

  // A step that changes at most handler h, and appends nothing.
  lemma OneHandlerTraced(cfg: Config, s: State, t: Trace, s': State, t': Trace, h: nat)
    requires NothingArrives(s, t, s', t') && Traced(cfg, s, t)
    requires h < |s.handlers| == |s'.handlers| == |t'.held|
    requires s'.handlers == s.handlers[h := s'.handlers[h]] && t'.held == t.held[h := t'.held[h]]
    requires HeldRight(cfg, s', t', h)
    ensures Traced(cfg, s', t')
  {
    forall g | 0 <= g < |s'.handlers|
      ensures HeldRight(cfg, s', t', g)
    {
      if g != h {
        HeldLater(cfg, s, t, s', t', g);
      }
    }
    TracedLater(cfg, s, t, s', t');
  }

  lemma NoHandlerTraced(cfg: Config, s: State, t: Trace, s': State, t': Trace)
    requires NothingArrives(s, t, s', t') && Traced(cfg, s, t)
    requires s'.handlers == s.handlers && t'.held == t.held
    ensures Traced(cfg, s', t')
  {
    forall g | 0 <= g < |s'.handlers|
      ensures HeldRight(cfg, s', t', g)
    {
      HeldLater(cfg, s, t, s', t', g);
    }
    TracedLater(cfg, s, t, s', t');
  }

  lemma BeginTraced(cfg: Config, s: State, t: Trace, events: seq<Event>)
    requires |s.shards| == Dedup.SHARD_COUNT && events != [] && Traced(cfg, s, t)
    ensures Traced(cfg, Do(cfg, s, Begin(events)), Note(cfg, s, t, Begin(events)))
  {
    var s', t' := Do(cfg, s, Begin(events)), Note(cfg, s, t, Begin(events));
    forall g | 0 <= g < |s'.handlers|
      ensures HeldRight(cfg, s', t', g)
    {
      if g < |s.handlers| {
        HeldLater(cfg, s, t, s', t', g);
      }
    }
    TracedLater(cfg, s, t, s', t');
  }

  // The handler that asked keeps what it kept, and one more if it was let through.
  lemma ExamineHolds(cfg: Config, s: State, t: Trace, s': State, t': Trace, h: nat)
    requires Later(s, t, s', t') && h < |s.handlers| == |t.held| && |s'.handlers| == |t'.held|
    requires s.handlers[h].Checking? && HeldRight(cfg, s, t, h)
    requires s'.handlers[h].Checking? ==>
               || (s'.handlers[h].kept == s.handlers[h].kept && t'.held[h] == t.held[h])
               || exists e: Event ::
                    && s'.handlers[h].kept == s.handlers[h].kept + [e] && t'.held[h] == t.held[h] + [|s.calls|]
                    && AskedFor(cfg, s', t', |s.calls|, h, e.requestId)
    ensures HeldRight(cfg, s', t', h)
  {
    if s'.handlers[h].Checking? {
      forall k | 0 <= k < |t.held[h]|
        ensures AskedFor(cfg, s', t', t.held[h][k], h, s.handlers[h].kept[k].requestId)
      {
        AskedForLater(cfg, s, t, s', t', t.held[h][k], h, s.handlers[h].kept[k].requestId);
      }
    }
  }

  // What an examination does to the parts of the state that tell of copies.
  lemma ExamineMoves(cfg: Config, s: State, h: nat, now: int)
    requires |s.shards| == Dedup.SHARD_COUNT && Enabled(cfg, s, Examine(h, now))
    ensures var s', e := Do(cfg, s, Examine(h, now)), s.handlers[h].todo[0];
            && s'.calls == s.calls + (if e.Validates() then [Dedup.Asked(e.requestId, now)] else [])
            && s'.clock == Some(now) && s'.ledger.enqueued == s.ledger.enqueued
            && |s'.handlers| == |s.handlers| && s'.handlers == s.handlers[h := s'.handlers[h]]
  {
  }

  lemma ExamineAsks(cfg: Config, s: State, t: Trace, h: nat, now: int)
    requires |s.shards| == Dedup.SHARD_COUNT && Enabled(cfg, s, Examine(h, now))
    requires Remembered(cfg, s) && Traced(cfg, s, t)
    ensures var s', t' := Do(cfg, s, Examine(h, now)), Note(cfg, s, t, Examine(h, now));
            && NothingArrives(s, t, s', t') && |s'.handlers| == |t'.held| == |s.handlers|
            && s'.handlers == s.handlers[h := s'.handlers[h]] && t'.held == t.held[h := t'.held[h]]
  {
    ExamineMoves(cfg, s, h, now);
    var s', t' := Do(cfg, s, Examine(h, now)), NoteExamine(cfg, s, t, h, now);
    assert s.calls <= s'.calls && t.owner <= t'.owner;
  }

  lemma ExamineTraced(cfg: Config, s: State, t: Trace, h: nat, now: int)
    requires |s.shards| == Dedup.SHARD_COUNT && Enabled(cfg, s, Examine(h, now))
    requires Remembered(cfg, s) && Traced(cfg, s, t)
    ensures Traced(cfg, Do(cfg, s, Examine(h, now)), Note(cfg, s, t, Examine(h, now)))
  {
    var e := s.handlers[h].todo[0];
    var s', t' := Do(cfg, s, Examine(h, now)), Note(cfg, s, t, Examine(h, now));
    ExamineAsks(cfg, s, t, h, now);
    if e.Validates() && !Dedup.Ask(s.shards, e.requestId, now, cfg.dedup).1 {
      assert s'.calls[..|s.calls|] == s.calls;
      assert AskedFor(cfg, s', t', |s.calls|, h, e.requestId);
    }
    ExamineHolds(cfg, s, t, s', t', h);
    OneHandlerTraced(cfg, s, t, s', t', h);
  }

  lemma EnqueueTraced(cfg: Config, s: State, t: Trace, h: nat, now: int)
    requires |s.shards| == Dedup.SHARD_COUNT && Enabled(cfg, s, Enqueue(h, now))
    requires Remembered(cfg, s) && Traced(cfg, s, t)
    ensures Traced(cfg, Do(cfg, s, Enqueue(h, now)), Note(cfg, s, t, Enqueue(h, now)))
  {
    var s', t' := Do(cfg, s, Enqueue(h, now)), Note(cfg, s, t, Enqueue(h, now));
    if !Stores(cfg, s, h) {
      OneHandlerTraced(cfg, s, t, s', t', h);
    } else {
      ArrivalsTraced(cfg, s, t, h, now);
      forall g | 0 <= g < |s'.handlers|
        ensures HeldRight(cfg, s', t', g)
      {
        if g != h {
          HeldLater(cfg, s, t, s', t', g);
        }
      }
    }
  }

  // What appending does to the parts of the state that tell of copies.
  lemma EnqueueMoves(cfg: Config, s: State, h: nat, now: int)
    requires |s.shards| == Dedup.SHARD_COUNT && Enabled(cfg, s, Enqueue(h, now)) && Stores(cfg, s, h)
    ensures var s' := Do(cfg, s, Enqueue(h, now));
            && s'.calls == s.calls && s'.clock == Some(now)
            && s'.ledger.enqueued == s.ledger.enqueued + s.handlers[h].kept
            && |s'.handlers| == |s.handlers| && !s'.handlers[h].Checking?
            && (forall g :: 0 <= g < |s.handlers| && g != h ==> s'.handlers[g] == s.handlers[g])
  {
  }

  lemma EarlierArrivalTraced(cfg: Config, s: State, t: Trace, h: nat, now: int, i: nat)
    requires |s.shards| == Dedup.SHARD_COUNT && Enabled(cfg, s, Enqueue(h, now)) && Stores(cfg, s, h)
    requires Traced(cfg, s, t) && i < |t.arrivals|
    ensures var s', t' := Do(cfg, s, Enqueue(h, now)), Note(cfg, s, t, Enqueue(h, now));
            && i < |t'.arrivals| == |s'.ledger.enqueued| && ArrivedRight(cfg, s', t', i)
            && t'.arrivals[i] == t.arrivals[i]
            && t.arrivals[i].question < |t.owner| && t.owner[t.arrivals[i].question] != Some(h)
  {
    EnqueueMoves(cfg, s, h, now);
    assert HeldRight(cfg, s, t, h) && ArrivedRight(cfg, s, t, i);
    var g := t.owner[t.arrivals[i].question].value;
    assert Do(cfg, s, Enqueue(h, now)).handlers[g] == s.handlers[g];
  }

  lemma ArrivalTraced(cfg: Config, s: State, t: Trace, h: nat, now: int, i: nat)
    requires |s.shards| == Dedup.SHARD_COUNT && Enabled(cfg, s, Enqueue(h, now)) && Stores(cfg, s, h)
    requires Remembered(cfg, s) && Traced(cfg, s, t)
    requires i < |t.held[h]|
    ensures var s', t' := Do(cfg, s, Enqueue(h, now)), Note(cfg, s, t, Enqueue(h, now));
            var k := |t.arrivals| + i;
            && k < |t'.arrivals| == |s'.ledger.enqueued| && ArrivedRight(cfg, s', t', k)
            && t'.arrivals[k] == Arrival(t.held[h][i], now)
            && t.held[h][i] < |t.owner| && t.owner[t.held[h][i]] == Some(h)
  {
    EnqueueMoves(cfg, s, h, now);
    assert HeldRight(cfg, s, t, h);
    assert AskedFor(cfg, s, t, t.held[h][i], h, s.handlers[h].kept[i].requestId);
  }

  lemma ArrivalsTraced(cfg: Config, s: State, t: Trace, h: nat, now: int)
    requires |s.shards| == Dedup.SHARD_COUNT && Enabled(cfg, s, Enqueue(h, now)) && Stores(cfg, s, h)
    requires Remembered(cfg, s) && Traced(cfg, s, t)
    ensures var s', t' := Do(cfg, s, Enqueue(h, now)), Note(cfg, s, t, Enqueue(h, now));
            && |t'.arrivals| == |s'.ledger.enqueued| == |t.arrivals| + |t.held[h]|
            && (forall i :: 0 <= i < |t'.arrivals| ==> ArrivedRight(cfg, s', t', i))
            && (forall i, j :: 0 <= i < j < |t'.arrivals| ==> t'.arrivals[i].question != t'.arrivals[j].question)
            && (forall i, j :: 0 <= i < j < |t'.arrivals| ==> t'.arrivals[i].at <= t'.arrivals[j].at)
  {
    var s', t' := Do(cfg, s, Enqueue(h, now)), Note(cfg, s, t, Enqueue(h, now));
    var n := |t.arrivals|;
    assert HeldRight(cfg, s, t, h);
    forall i | 0 <= i < n + |t.held[h]|
      ensures |t'.arrivals| == |s'.ledger.enqueued| == n + |t.held[h]|
      ensures ArrivedRight(cfg, s', t', i)
      ensures t'.arrivals[i].question < |t.owner|
      ensures t.owner[t'.arrivals[i].question] == Some(h) <==> i >= n
      ensures t'.arrivals[i].at <= now
    {
      if i < n {
        EarlierArrivalTraced(cfg, s, t, h, now, i);
      } else {
        ArrivalTraced(cfg, s, t, h, now, i - n);
      }
    }
  }

  lemma OthersTraced(cfg: Config, s: State, t: Trace, step: Step)
    requires |s.shards| == Dedup.SHARD_COUNT && Enabled(cfg, s, step) && Elsewhere(step) && Traced(cfg, s, t)
    ensures Traced(cfg, Do(cfg, s, step), Note(cfg, s, t, step))
  {
    OthersKeepCopies(cfg, s, step);
    NoHandlerTraced(cfg, s, t, Do(cfg, s, step), t);
  }

  lemma StepTraced(cfg: Config, s: State, t: Trace, step: Step)
    requires |s.shards| == Dedup.SHARD_COUNT && Enabled(cfg, s, step)
    requires Remembered(cfg, s) && Traced(cfg, s, t)
    ensures Traced(cfg, Do(cfg, s, step), Note(cfg, s, t, step))
  {
    match step {
      case Begin(events) => BeginTraced(cfg, s, t, events);
      case Examine(h, now) => ExamineTraced(cfg, s, t, h, now);
      case Enqueue(h, now) => EnqueueTraced(cfg, s, t, h, now);
      case Signal(h) => OneHandlerTraced(cfg, s, t, Do(cfg, s, step), t, h);
      case Sweep(_) => NoHandlerTraced(cfg, s, t, Do(cfg, s, step), Note(cfg, s, t, step));
      case _ => OthersTraced(cfg, s, t, step);
    }
  }

  lemma {:induction false} RunTraced(cfg: Config, steps: seq<Step>)
    requires Batch.Normal(cfg.opts) && IsRun(cfg, Init(), steps)
    ensures Traced(cfg, RunFrom(cfg, Init(), steps), TraceOf(cfg, steps))
  {
    if steps != [] {
      var n := |steps| - 1;
      RunTraced(cfg, steps[..n]);
      RunIsSafe(cfg, steps[..n]);
      StepTraced(cfg, RunFrom(cfg, Init(), steps[..n]), TraceOf(cfg, steps[..n]), steps[n]);
    }
  }

  // When the copy's question was asked.
  ghost function ExaminedAt(cfg: Config, steps: seq<Step>, i: nat): int
    requires Batch.Normal(cfg.opts) && IsRun(cfg, Init(), steps) && i < |TraceOf(cfg, steps).arrivals|
  {
    RunTraced(cfg, steps);
    assert ArrivedRight(cfg, RunFrom(cfg, Init(), steps), TraceOf(cfg, steps), i);
    RunFrom(cfg, Init(), steps).calls[TraceOf(cfg, steps).arrivals[i].question].now
  }

  // Copies i and j in the buffer's history have the id.
  ghost predicate TwoCopies(cfg: Config, steps: seq<Step>, i: nat, j: nat, id: Dedup.Key)
    requires IsRun(cfg, Init(), steps)
  {
    var enqueued := RunFrom(cfg, Init(), steps).ledger.enqueued;
    i < j < |enqueued| == |TraceOf(cfg, steps).arrivals| && enqueued[i].requestId == enqueued[j].requestId == id
  }

  /** Of two copies of a non-empty id in the buffer's history one was examined ttl
      after the other, and so appended at least ttl after the examination of the
      other. */
  lemma CopiesAreExaminedApart(cfg: Config, steps: seq<Step>, i: nat, j: nat, id: Dedup.Key)
    requires Batch.Normal(cfg.opts) && IsRun(cfg, Init(), steps) && TwoCopies(cfg, steps, i, j, id) && id != []
    ensures var arrivals := TraceOf(cfg, steps).arrivals;
            var x, y := ExaminedAt(cfg, steps, i), ExaminedAt(cfg, steps, j);
            && x <= arrivals[i].at <= arrivals[j].at && y <= arrivals[j].at
            && (y - x >= cfg.dedup.ttl || x - y >= cfg.dedup.ttl)
  {
    RunTraced(cfg, steps);
    CallsInOrder(cfg, steps);
    var s, t := RunFrom(cfg, Init(), steps), TraceOf(cfg, steps);
    assert ArrivedRight(cfg, s, t, i) && ArrivedRight(cfg, s, t, j);
    var q, r := t.arrivals[i].question, t.arrivals[j].question;
    if q < r {
      Dedup.LetThroughAtLeastTtlApart(s.calls, q, r, cfg.dedup);
    } else {
      Dedup.LetThroughAtLeastTtlApart(s.calls, r, q, cfg.dedup);
    }
  }

  // No copy is appended later than that after its examination.
  ghost predicate AppendsWithin(cfg: Config, steps: seq<Step>, delay: int)
    requires Batch.Normal(cfg.opts) && IsRun(cfg, Init(), steps)
  {
    var arrivals := TraceOf(cfg, steps).arrivals;
    forall i :: 0 <= i < |arrivals| ==> arrivals[i].at - ExaminedAt(cfg, steps, i) <= delay
  }

  // Such a run has two copies of the id that are appended in less than the gap.
  ghost predicate TooClose(
    cfg: Config, steps: seq<Step>, i: nat, j: nat, id: Dedup.Key, delay: int, gap: int)
    requires Batch.Normal(cfg.opts)
  {
    && IsRun(cfg, Init(), steps) && AppendsWithin(cfg, steps, delay) && TwoCopies(cfg, steps, i, j, id)
    && TraceOf(cfg, steps).arrivals[j].at - TraceOf(cfg, steps).arrivals[i].at < gap
  }

  ghost predicate GapIsKept(cfg: Config, id: Dedup.Key, delay: int, gap: int)
    requires Batch.Normal(cfg.opts)
  {
    forall steps, i, j :: !TooClose(cfg, steps, i, j, id, delay, gap)
  }

  function AtLeastZero(x: int): nat {
    if x < 0 then 0 else x
  }

  lemma GapIsAtLeast(cfg: Config, steps: seq<Step>, i: nat, j: nat, id: Dedup.Key, delay: nat)
    requires Batch.Normal(cfg.opts) && id != []
    ensures !TooClose(cfg, steps, i, j, id, delay, AtLeastZero(cfg.dedup.ttl - delay))
  {
    if IsRun(cfg, Init(), steps) && AppendsWithin(cfg, steps, delay) && TwoCopies(cfg, steps, i, j, id) {
      CopiesAreExaminedApart(cfg, steps, i, j, id);
    }
  }

  lemma TraceMore(cfg: Config, steps: seq<Step>, step: Step)
    requires IsRun(cfg, Init(), steps) && Enabled(cfg, RunFrom(cfg, Init(), steps), step)
    ensures IsRun(cfg, Init(), steps + [step])
    ensures var s, t := RunFrom(cfg, Init(), steps), TraceOf(cfg, steps);
            && RunFrom(cfg, Init(), steps + [step]) == Do(cfg, s, step)
            && TraceOf(cfg, steps + [step]) == Note(cfg, s, t, step)
  {
    LastIsLast(steps, step);
  }

  // Request h with the event is examined, and let through.
  lemma ExamineOne(cfg: Config, before: seq<Step>, h: nat, e: Event, now: int) returns (steps: seq<Step>)
    requires IsRun(cfg, Init(), before) && e.Validates()
    requires var s := RunFrom(cfg, Init(), before);
             && h < |s.handlers| && s.handlers[h] == Checking([e], []) && ClockMovesOn(s, now)
             && !Dedup.Ask(s.shards, e.requestId, now, cfg.dedup).1
    ensures IsRun(cfg, Init(), steps)
    ensures var s, s' := RunFrom(cfg, Init(), before), RunFrom(cfg, Init(), steps);
            var t, t' := TraceOf(cfg, before), TraceOf(cfg, steps);
            && s'.calls == s.calls + [Dedup.Asked(e.requestId, now)] && s'.clock == Some(now)
            && s'.shards == Dedup.Ask(s.shards, e.requestId, now, cfg.dedup).0
            && s'.handlers == s.handlers[h := Checking([], [e])] && s'.buf == s.buf
            && s'.ledger.enqueued == s.ledger.enqueued
            && t'.held == t.held[h := t.held[h] + [|s.calls|]] && t'.arrivals == t.arrivals
  {
    assert [e][1..] == [] && [] + [e] == [e];
    TraceMore(cfg, before, Examine(h, now));
    steps := before + [Examine(h, now)];
  }

  // And appended.
  lemma AppendOne(cfg: Config, before: seq<Step>, h: nat, e: Event, question: nat, now: int)
      returns (steps: seq<Step>)
    requires IsRun(cfg, Init(), before)
    requires var s := RunFrom(cfg, Init(), before);
             && h < |s.handlers| && s.handlers[h] == Checking([], [e]) && ClockMovesOn(s, now)
             && |s.buf| + 1 <= cfg.opts.capacity && TraceOf(cfg, before).held[h] == [question]
    ensures IsRun(cfg, Init(), steps)
    ensures var s, s' := RunFrom(cfg, Init(), before), RunFrom(cfg, Init(), steps);
            var t, t' := TraceOf(cfg, before), TraceOf(cfg, steps);
            && s'.calls == s.calls && s'.clock == Some(now) && s'.shards == s.shards
            && |s'.handlers| == |s.handlers|
            && (forall g :: 0 <= g < |s.handlers| && g != h ==> s'.handlers[g] == s.handlers[g])
            && s'.buf == s.buf + [e] && s'.ledger.enqueued == s.ledger.enqueued + [e]
            && t'.held == t.held && t'.arrivals == t.arrivals + [Arrival(question, now)]
  {
    TraceMore(cfg, before, Enqueue(h, now));
    steps := before + [Enqueue(h, now)];
    assert seq(1, k requires 0 <= k < 1 => Arrival([question][k], now)) == [Arrival(question, now)];
  }

  lemma AskedTwice(cfg: Config, id: Dedup.Key, later: nat)
    requires id != [] && later >= cfg.dedup.ttl
    ensures var first := Dedup.Ask(Dedup.EmptyShards(), id, 0, cfg.dedup);
            !first.1 && !Dedup.Ask(first.0, id, later, cfg.dedup).1
  {
  }

  lemma BeginTwo(cfg: Config, e: Event) returns (steps: seq<Step>)
    ensures IsRun(cfg, Init(), steps)
    ensures var s, t := RunFrom(cfg, Init(), steps), TraceOf(cfg, steps);
            && s.handlers == [Checking([e], []), Checking([e], [])] && s.calls == [] && s.clock == None
            && s.shards == Dedup.EmptyShards() && s.buf == [] && s.ledger.enqueued == []
            && t.held == [[], []] && t.arrivals == []
  {
    TraceMore(cfg, [], Begin([e]));
    TraceMore(cfg, [] + [Begin([e])], Begin([e]));
    steps := [] + [Begin([e])] + [Begin([e])];
  }

  lemma FirstOfTwo(cfg: Config, e: Event, delay: nat, later: nat) returns (steps: seq<Step>)
    requires Batch.Normal(cfg.opts) && e.Validates() && later >= cfg.dedup.ttl
    ensures IsRun(cfg, Init(), steps)
    ensures var s, t := RunFrom(cfg, Init(), steps), TraceOf(cfg, steps);
            && |s.handlers| == 2 && s.handlers[1] == Checking([e], [])
            && s.calls == [Dedup.Asked(e.requestId, 0)] && s.clock == Some(delay)
            && !Dedup.Ask(s.shards, e.requestId, later, cfg.dedup).1
            && s.buf == [e] == s.ledger.enqueued
            && t.held == [[0], []] && t.arrivals == [Arrival(0, delay)]
  {
    AskedTwice(cfg, e.requestId, later);
    steps := BeginTwo(cfg, e);
    steps := ExamineOne(cfg, steps, 0, e, 0);
    steps := AppendOne(cfg, steps, 0, e, 0, delay);
  }

  /** Two requests with one event, the first of which is held up between examining
      it and appending it: both copies get into the buffer, and the second follows
      the first as much sooner than ttl as that took. */
  lemma TwoBufferings(cfg: Config, e: Event, delay: nat) returns (steps: seq<Step>)
    requires Batch.Normal(cfg.opts) && cfg.opts.capacity >= 2 && e.Validates()
    requires delay <= AtLeastZero(cfg.dedup.ttl)
    ensures IsRun(cfg, Init(), steps) && AppendsWithin(cfg, steps, delay) && TwoCopies(cfg, steps, 0, 1, e.requestId)
    ensures RunFrom(cfg, Init(), steps).buf == [e, e]
    ensures TraceOf(cfg, steps).arrivals == [Arrival(0, delay), Arrival(1, AtLeastZero(cfg.dedup.ttl))]
  {
    var later := AtLeastZero(cfg.dedup.ttl);
    steps := FirstOfTwo(cfg, e, delay, later);
    steps := ExamineOne(cfg, steps, 1, e, later);
    steps := AppendOne(cfg, steps, 1, e, 1, later);
    TwoArrivals(cfg, steps, e, delay, later);
  }

  lemma TwoArrivals(cfg: Config, steps: seq<Step>, e: Event, delay: nat, later: nat)
    requires Batch.Normal(cfg.opts) && IsRun(cfg, Init(), steps)
    requires RunFrom(cfg, Init(), steps).calls == [Dedup.Asked(e.requestId, 0), Dedup.Asked(e.requestId, later)]
    requires RunFrom(cfg, Init(), steps).ledger.enqueued == [e, e]
    requires TraceOf(cfg, steps).arrivals == [Arrival(0, delay), Arrival(1, later)]
    ensures AppendsWithin(cfg, steps, delay) && TwoCopies(cfg, steps, 0, 1, e.requestId)
  {
    assert ExaminedAt(cfg, steps, 0) == 0 && ExaminedAt(cfg, steps, 1) == later;
  }

  /** The gap between two bufferings of an id that is kept in every run in which
      appends follow examinations within the delay: ttl less the delay, and no more
      than that. */
  lemma GapIsExactly(cfg: Config, e: Event, delay: nat, gap: int)
    requires Batch.Normal(cfg.opts) && cfg.opts.capacity >= 2 && e.Validates()
    ensures GapIsKept(cfg, e.requestId, delay, gap) <==> gap <= AtLeastZero(cfg.dedup.ttl - delay)
  {
    if gap <= AtLeastZero(cfg.dedup.ttl - delay) {
      forall steps, i: nat, j: nat
        ensures !TooClose(cfg, steps, i, j, e.requestId, delay, gap)
      {
        GapIsAtLeast(cfg, steps, i, j, e.requestId, delay);
      }
    } else {
      var d := if delay <= AtLeastZero(cfg.dedup.ttl) then delay else AtLeastZero(cfg.dedup.ttl);
      var steps := TwoBufferings(cfg, e, d);
      assert TooClose(cfg, steps, 0, 1, e.requestId, delay, gap);
    }
  }
}
