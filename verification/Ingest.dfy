/** POST /v1/events: authenticate, decode, validate, deduplicate, enqueue.

    Requests are taken one at a time here.  A request reads the clock once per
    event, so it carries one reading for each. */
module Ingest {
  import opened Common
  import opened Events
  import Dedup
  import Batch

  // Authentication and JSON decoding are oracles: org and body are None when
  // they fail.
  datatype Request = Request(org: Option<Bytes>, body: Option<seq<Event>>, clock: nat -> int)

  datatype Response =
    | Unauthorized                             // 401
    | BadRequest                               // 400
    | Accepted(accepted: nat, duplicates: nat) // 202
    | BufferFull                               // 429

  datatype Config = Config(dedup: Dedup.Params, maxBatch: nat, opts: Batch.Options)

  datatype State = State(shards: seq<Dedup.Shard>, buf: seq<Event>)

  // How far the validate-stamp-deduplicate loop has got.
  datatype Progress = Progress(shards: seq<Dedup.Shard>, kept: seq<Event>, duplicates: nat, rejected: bool)

  predicate ReachesLoop(cfg: Config, r: Request) {
    && r.org.Some? && r.body.Some?
    && 0 < |r.body.value| <= cfg.maxBatch
  }

  function Step(p: Progress, e: Event, org: Bytes, now: int, d: Dedup.Params): (r: Progress)
    requires |p.shards| == Dedup.SHARD_COUNT
    ensures |r.shards| == Dedup.SHARD_COUNT
  {
    if p.rejected then p
    else if !e.Validates() then p.(rejected := true)
    else
      var (shards, dup) := Dedup.Ask(p.shards, e.requestId, now, d);
      if dup then p.(shards := shards, duplicates := p.duplicates + 1)
      else p.(shards := shards, kept := p.kept + [e.Stamped(org)])
  }

  function Check(shards: seq<Dedup.Shard>, events: seq<Event>, org: Bytes, clock: nat -> int,
        d: Dedup.Params): (r: Progress)
    requires |shards| == Dedup.SHARD_COUNT
    ensures |r.shards| == Dedup.SHARD_COUNT
  {
    if events == [] then Progress(shards, [], 0, false)
    else
      var n := |events| - 1;
      Step(Check(shards, events[..n], org, clock, d), events[n], org, clock(n), d)
  }

  lemma CheckUpTo(shards: seq<Dedup.Shard>, events: seq<Event>, org: Bytes, clock: nat -> int,
        d: Dedup.Params, i: nat)
    requires |shards| == Dedup.SHARD_COUNT && i < |events|
    ensures Check(shards, events[..i + 1], org, clock, d)
         == Step(Check(shards, events[..i], org, clock, d), events[i], org, clock(i), d)
  {
    assert events[..i + 1][..i] == events[..i];
  }

  // A rejection is final: later events are not even asked about.
  lemma {:induction false} RejectedStays(shards: seq<Dedup.Shard>, events: seq<Event>, org: Bytes, clock: nat -> int,
        d: Dedup.Params, i: nat)
    requires |shards| == Dedup.SHARD_COUNT && i <= |events|
    requires Check(shards, events[..i], org, clock, d).rejected
    ensures Check(shards, events, org, clock, d) == Check(shards, events[..i], org, clock, d)
  {
    var n := |events| - 1;
    if i == |events| {
      assert events[..i] == events;
    } else {
      assert events[..n][..i] == events[..i];
      RejectedStays(shards, events[..n], org, clock, d, i);
    }
  }

  function Handle(cfg: Config, s: State, r: Request): (q: (State, Response))
    requires |s.shards| == Dedup.SHARD_COUNT
    ensures |q.0.shards| == Dedup.SHARD_COUNT
  {
    if r.org.None? then (s, Unauthorized)
    else if !ReachesLoop(cfg, r) then (s, BadRequest)
    else
      var p := Check(s.shards, r.body.value, r.org.value, r.clock, cfg.dedup);
      var s' := s.(shards := p.shards);
      if p.rejected then (s', BadRequest)
      else if p.kept == [] then (s', Accepted(0, |r.body.value|))
      else if !Batch.Fits(cfg.opts, s.buf, p.kept) then (s', BufferFull)
      else (s'.(buf := s.buf + p.kept), Accepted(|p.kept|, p.duplicates))
  }

  // ------------------------------------------------------- link to the history

  // The questions the loop puts to the deduplication set: one per event, up
  // to the first that does not validate.
  function Asks(events: seq<Event>, clock: nat -> int): (calls: seq<Dedup.Call>)
    ensures |calls| <= |events|
    ensures forall i :: 0 <= i < |calls| ==>
              calls[i] == Dedup.Asked(events[i].requestId, clock(i)) && events[i].Validates()
    ensures |calls| < |events| ==> !events[|calls|].Validates()
  {
    if events == [] then []
    else
      var n := |events| - 1;
      var before := Asks(events[..n], clock);
      if |before| == n && events[n].Validates()
      then before + [Dedup.Asked(events[n].requestId, clock(n))]
      else before
  }

  predicate AllValid(events: seq<Event>) {
    forall i :: 0 <= i < |events| ==> events[i].Validates()
  }

  lemma AsksAll(events: seq<Event>, clock: nat -> int)
    requires AllValid(events)
    ensures |Asks(events, clock)| == |events|
  {
  }

  lemma {:induction false} AsksPrefix(events: seq<Event>, clock: nat -> int, n: nat)
    requires n <= |events| && AllValid(events)
    ensures Asks(events[..n], clock) == Asks(events, clock)[..n]
  {
  }

  // Was the question about the i-th event answered "seen"?
  ghost predicate SeenAt(calls: seq<Dedup.Call>, events: seq<Event>, clock: nat -> int, i: nat, d: Dedup.Params)
    requires i < |events|
  {
    Dedup.Ask(Dedup.After(calls + Asks(events[..i], clock), d), events[i].requestId, clock(i), d).1
  }

  ghost function Flags(calls: seq<Dedup.Call>, events: seq<Event>, clock: nat -> int,
        d: Dedup.Params): (flags: seq<bool>)
    ensures |flags| == |events|
  {
    seq(|events|, i requires 0 <= i < |events| => SeenAt(calls, events, clock, i, d))
  }

  // The events whose flag is down, stamped, in their order.
  function Unflagged(events: seq<Event>, flags: seq<bool>, org: Bytes): (kept: seq<Event>)
    requires |flags| == |events|
    ensures |kept| <= |events|
  {
    if events == [] then []
    else
      var n := |events| - 1;
      var before := Unflagged(events[..n], flags[..n], org);
      if flags[n] then before else before + [events[n].Stamped(org)]
  }

  lemma {:induction false} UnflaggedAllOrNone(events: seq<Event>, flags: seq<bool>, org: Bytes)
    requires |flags| == |events|
    ensures |Unflagged(events, flags, org)| == |events| <==> true !in flags
    ensures true !in flags ==> Unflagged(events, flags, org) == StampAll(events, org)
    ensures Unflagged(events, flags, org) == [] <==> false !in flags
  {
    if events != [] {
      var n := |events| - 1;
      UnflaggedAllOrNone(events[..n], flags[..n], org);
      assert flags == flags[..n] + [flags[n]];
    }
  }

  lemma StepIsHistory(calls: seq<Dedup.Call>, done: Progress, e: Event, org: Bytes, now: int,
        d: Dedup.Params)
    requires done.shards == Dedup.After(calls, d) && !done.rejected && e.Validates()
    ensures var next := Step(done, e, org, now, d);
            var seen := Dedup.Ask(Dedup.After(calls, d), e.requestId, now, d).1;
            && !next.rejected
            && next.shards == Dedup.After(calls + [Dedup.Asked(e.requestId, now)], d)
            && next.kept == (if seen then done.kept else done.kept + [e.Stamped(org)])
            && next.duplicates == (if seen then done.duplicates + 1 else done.duplicates)
  {
  }

  lemma FlagsPrefix(calls: seq<Dedup.Call>, events: seq<Event>, clock: nat -> int, d: Dedup.Params)
    requires events != []
    ensures var n := |events| - 1;
            Flags(calls, events, clock, d)[..n] == Flags(calls, events[..n], clock, d)
  {
    var init := events[..|events| - 1];
    forall i | 0 <= i < |init|
      ensures SeenAt(calls, events, clock, i, d) == SeenAt(calls, init, clock, i, d)
    {
      assert init[..i] == events[..i];
    }
  }

  // What the loop has done so far, told by the history of calls alone.
  ghost predicate IsHistory(done: Progress, calls: seq<Dedup.Call>, events: seq<Event>, org: Bytes, clock: nat -> int,
        d: Dedup.Params) {
    && done.shards == Dedup.After(calls + Asks(events, clock), d)
    && (done.rejected <==> |Asks(events, clock)| < |events|)
    && |done.kept| + done.duplicates == |Asks(events, clock)|
    && (!done.rejected ==> done.kept == Unflagged(events, Flags(calls, events, clock, d), org))
  }

  // One more event is not asked about once the loop has stopped, or if it stops
  // at this event.
  lemma CheckStops(done: Progress, calls: seq<Dedup.Call>, events: seq<Event>, org: Bytes,
        clock: nat -> int, d: Dedup.Params)
    requires events != [] && IsHistory(done, calls, events[..|events| - 1], org, clock, d)
    requires done.rejected || !events[|events| - 1].Validates()
    ensures var n := |events| - 1;
            IsHistory(Step(done, events[n], org, clock(n), d), calls, events, org, clock, d)
  {
  }

  lemma KeptMore(calls: seq<Dedup.Call>, events: seq<Event>, org: Bytes, clock: nat -> int,
        d: Dedup.Params)
    requires events != []
    ensures var n := |events| - 1;
            var before := Unflagged(events[..n], Flags(calls, events[..n], clock, d), org);
            Unflagged(events, Flags(calls, events, clock, d), org)
            == if SeenAt(calls, events, clock, n, d) then before else before + [events[n].Stamped(org)]
  {
    FlagsPrefix(calls, events, clock, d);
  }

  lemma CheckGoesOn(done: Progress, calls: seq<Dedup.Call>, events: seq<Event>, org: Bytes,
        clock: nat -> int, d: Dedup.Params)
    requires events != [] && IsHistory(done, calls, events[..|events| - 1], org, clock, d)
    requires !done.rejected && events[|events| - 1].Validates()
    ensures var n := |events| - 1;
            IsHistory(Step(done, events[n], org, clock(n), d), calls, events, org, clock, d)
  {
    var n := |events| - 1;
    var before, asked := Asks(events[..n], clock), Dedup.Asked(events[n].requestId, clock(n));
    assert Asks(events, clock) == before + [asked];
    StepIsHistory(calls + before, done, events[n], org, clock(n), d);
    ConcatAssociates(calls, before, [asked]);
    KeptMore(calls, events, org, clock, d);
  }

  lemma CheckOneMore(done: Progress, calls: seq<Dedup.Call>, events: seq<Event>, org: Bytes,
        clock: nat -> int, d: Dedup.Params)
    requires events != [] && IsHistory(done, calls, events[..|events| - 1], org, clock, d)
    ensures var n := |events| - 1;
            IsHistory(Step(done, events[n], org, clock(n), d), calls, events, org, clock, d)
  {
    if !done.rejected && events[|events| - 1].Validates() {
      CheckGoesOn(done, calls, events, org, clock, d);
    } else {
      CheckStops(done, calls, events, org, clock, d);
    }
  }

  lemma CheckNothing(calls: seq<Dedup.Call>, org: Bytes, clock: nat -> int, d: Dedup.Params)
    ensures IsHistory(Check(Dedup.After(calls, d), [], org, clock, d), calls, [], org, clock, d)
  {
    assert calls + [] == calls;
  }

  /** The loop's result is a function of the history: it stops at the first
      invalid event, and otherwise keeps exactly the events not answered
      "seen". */
  lemma {:induction false} CheckIsHistory(calls: seq<Dedup.Call>, events: seq<Event>, org: Bytes, clock: nat -> int,
        d: Dedup.Params)
    ensures IsHistory(Check(Dedup.After(calls, d), events, org, clock, d), calls, events, org, clock, d)
  {
    if events == [] {
      CheckNothing(calls, org, clock, d);
    } else {
      var init := events[..|events| - 1];
      CheckIsHistory(calls, init, org, clock, d);
      CheckOneMore(Check(Dedup.After(calls, d), init, org, clock, d), calls, events, org, clock, d);
    }
  }

  // ---------------------------------------------------------- whole histories

  datatype Op = Post(r: Request) | Evict(now: int) | FlushBuffer

  function Apply(cfg: Config, s: State, op: Op): (s': State)
    requires |s.shards| == Dedup.SHARD_COUNT
    ensures |s'.shards| == Dedup.SHARD_COUNT
  {
    match op
    case Post(r) => Handle(cfg, s, r).0
    case Evict(now) => s.(shards := Dedup.Swept(s.shards, now, cfg.dedup))
    case FlushBuffer => s.(buf := [])
  }

  ghost function StateAfter(cfg: Config, ops: seq<Op>): (s: State)
    ensures |s.shards| == Dedup.SHARD_COUNT
  {
    if ops == [] then State(Dedup.EmptyShards(), [])
    else
      var n := |ops| - 1;
      Apply(cfg, StateAfter(cfg, ops[..n]), ops[n])
  }

  function CallsOf(cfg: Config, op: Op): seq<Dedup.Call>
  {
    match op
    case Post(r) => if ReachesLoop(cfg, r) then Asks(r.body.value, r.clock) else []
    case Evict(now) => [Dedup.Sweep(now)]
    case FlushBuffer => []
  }

  ghost function History(cfg: Config, ops: seq<Op>): seq<Dedup.Call>
  {
    if ops == [] then []
    else
      var n := |ops| - 1;
      History(cfg, ops[..n]) + CallsOf(cfg, ops[n])
  }

  lemma {:induction false} ApplyIsHistory(cfg: Config, s: State, calls: seq<Dedup.Call>, op: Op)
    requires s.shards == Dedup.After(calls, cfg.dedup)
    ensures Apply(cfg, s, op).shards == Dedup.After(calls + CallsOf(cfg, op), cfg.dedup)
  {
    match op {
      case Post(r) =>
        if ReachesLoop(cfg, r) {
          CheckIsHistory(calls, r.body.value, r.org.value, r.clock, cfg.dedup);
        } else {
          assert calls + [] == calls;
        }
      case Evict(now) =>
        Dedup.AfterOneMore(calls, Dedup.Sweep(now), cfg.dedup);
      case FlushBuffer =>
        assert calls + [] == calls;
    }
  }

  lemma {:induction false} StateIsHistory(cfg: Config, ops: seq<Op>)
    ensures StateAfter(cfg, ops).shards == Dedup.After(History(cfg, ops), cfg.dedup)
  {
    if ops != [] {
      var n := |ops| - 1;
      StateIsHistory(cfg, ops[..n]);
      ApplyIsHistory(cfg, StateAfter(cfg, ops[..n]), History(cfg, ops[..n]), ops[n]);
    }
  }

  lemma HistoryOneMore(cfg: Config, ops: seq<Op>, op: Op)
    ensures History(cfg, ops + [op]) == History(cfg, ops) + CallsOf(cfg, op)
  {
  }

  lemma {:induction false} HistoryConcat(cfg: Config, ops: seq<Op>, more: seq<Op>)
    ensures History(cfg, ops + more) == History(cfg, ops) + History(cfg, more)
  {
    if more == [] {
      assert ops + more == ops;
    } else {
      var n := |more| - 1;
      var init, last := more[..n], more[n];
      assert more == init + [last] && ops + more == ops + init + [last];
      HistoryConcat(cfg, ops, init);
      HistoryOneMore(cfg, ops + init, last);
      HistoryOneMore(cfg, init, last);
      ConcatAssociates(History(cfg, ops), History(cfg, init), CallsOf(cfg, last));
    }
  }

  // ------------------------------------------------------ resending a request

  ghost predicate DistinctIds(events: seq<Event>) {
    forall i, j :: 0 <= i < j < |events| ==> events[i].requestId != events[j].requestId
  }

  // Is a recording of the event's id still fresh when its turn comes?
  ghost predicate RecordedWithin(calls: seq<Dedup.Call>, e: Event, now: int, d: Dedup.Params) {
    Dedup.Within(Dedup.LatestRecording(calls, e.requestId, d), now, d)
  }

  lemma {:induction false} OtherIdsDoNotMatter(calls: seq<Dedup.Call>, more: seq<Dedup.Call>, key: Dedup.Key,
        d: Dedup.Params)
    requires forall i :: 0 <= i < |more| ==> more[i].Asked? && more[i].key != key
    ensures Dedup.LatestRecording(calls + more, key, d) == Dedup.LatestRecording(calls, key, d)
  {
    if more == [] {
      assert calls + more == calls;
    } else {
      var n := |more| - 1;
      OtherIdsDoNotMatter(calls, more[..n], key, d);
      assert (calls + more)[..|calls| + n] == calls + more[..n];
    }
  }

  lemma AsksPrefixIsPrefix(events: seq<Event>, clock: nat -> int, i: nat)
    requires AllValid(events) && i <= |events|
    ensures |Asks(events, clock)| == |events|
    ensures Asks(events[..i], clock) == Asks(events, clock)[..i]
  {
    AsksAll(events, clock);
    AsksPrefix(events, clock, i);
  }

  // The clock of the whole history, this request included, never goes back.
  ghost predicate InOrder(calls: seq<Dedup.Call>, events: seq<Event>, clock: nat -> int) {
    Dedup.Nondecreasing(calls + Asks(events, clock))
  }

  lemma {:induction false} QuestionsUpTo(calls: seq<Dedup.Call>, events: seq<Event>, clock: nat -> int, i: nat)
    requires AllValid(events) && i < |events|
    ensures |Asks(events, clock)| == |events|
    ensures (calls + Asks(events, clock))[..|calls| + i] == calls + Asks(events[..i], clock)
    ensures (calls + Asks(events, clock))[|calls| + i] == Dedup.Asked(events[i].requestId, clock(i))
  {
    AsksPrefixIsPrefix(events, clock, i);
  }

  lemma InOrderUpTo(calls: seq<Dedup.Call>, events: seq<Event>, clock: nat -> int, i: nat)
    requires AllValid(events) && i < |events| && InOrder(calls, events, clock)
    ensures Dedup.Nondecreasing(calls + Asks(events[..i], clock) + [Dedup.Asked(events[i].requestId, clock(i))])
  {
    var all := calls + Asks(events, clock);
    var at := |calls| + i;
    QuestionsUpTo(calls, events, clock, i);
    Dedup.NondecreasingPrefix(all, at + 1);
    assert all[..at + 1] == all[..at] + [all[at]];
    assert all[..at] == calls + Asks(events[..i], clock);
  }

  lemma SeenMeansRecorded(calls: seq<Dedup.Call>, events: seq<Event>, clock: nat -> int, i: nat,
        d: Dedup.Params)
    requires AllValid(events) && i < |events| && InOrder(calls, events, clock)
    ensures SeenAt(calls, events, clock, i, d)
        <==> RecordedWithin(calls + Asks(events[..i], clock), events[i], clock(i), d)
  {
    InOrderUpTo(calls, events, clock, i);
    Dedup.SeenInOrder(calls + Asks(events[..i], clock), events[i].requestId, clock(i), d);
  }

  // No event's id, when its turn comes, has been recorded within the last ttl: not
  // by the history and not by an earlier event of the same batch.
  ghost predicate NoneRecorded(calls: seq<Dedup.Call>, events: seq<Event>, clock: nat -> int, d: Dedup.Params) {
    forall i :: 0 <= i < |events| ==> !RecordedWithin(calls + Asks(events[..i], clock), events[i], clock(i), d)
  }

  ghost predicate AllRecorded(calls: seq<Dedup.Call>, events: seq<Event>, clock: nat -> int, d: Dedup.Params) {
    forall i :: 0 <= i < |events| ==> RecordedWithin(calls + Asks(events[..i], clock), events[i], clock(i), d)
  }

  /** For a batch that repeats no id only the history before it matters. */
  lemma DistinctIdsNeedHistoryOnly(calls: seq<Dedup.Call>, events: seq<Event>, clock: nat -> int,
        d: Dedup.Params)
    requires AllValid(events) && DistinctIds(events)
    ensures NoneRecorded(calls, events, clock, d)
        <==> forall i :: 0 <= i < |events| ==> !RecordedWithin(calls, events[i], clock(i), d)
    ensures AllRecorded(calls, events, clock, d)
        <==> forall i :: 0 <= i < |events| ==> RecordedWithin(calls, events[i], clock(i), d)
  {
    forall i | 0 <= i < |events|
      ensures RecordedWithin(calls + Asks(events[..i], clock), events[i], clock(i), d)
          <==> RecordedWithin(calls, events[i], clock(i), d)
    {
      OtherIdsDoNotMatter(calls, Asks(events[..i], clock), events[i].requestId, d);
    }
  }

  /** A batch that repeats an id within ttl is never new as a whole. */
  lemma RepeatedIdIsRecorded(calls: seq<Dedup.Call>, events: seq<Event>, clock: nat -> int,
        d: Dedup.Params, i: nat, j: nat)
    requires AllValid(events) && InOrder(calls, events, clock)
    requires i < j < |events| && events[i].requestId == events[j].requestId && clock(j) - clock(i) < d.ttl
    ensures !NoneRecorded(calls, events, clock, d)
  {
    var before, e := calls + Asks(events[..i], clock), events[i];
    if !RecordedWithin(before, e, clock(i), d) {
      InOrderUpTo(calls, events, clock, j);
      var rest := SplitAtQuestion(calls, events[..j], clock, [], i);
      var upTo := calls + Asks(events[..j], clock);
      assert events[..j][..i] == events[..i] && upTo + [] == upTo;
      Dedup.NondecreasingPrefix(upTo + [Dedup.Asked(events[j].requestId, clock(j))], |upTo|);
      assert (upTo + [Dedup.Asked(events[j].requestId, clock(j))])[..|upTo|] == upTo;
      Dedup.RecordingOutlives(before, e.requestId, clock(i), rest, clock(j), d);
      assert RecordedWithin(upTo, events[j], clock(j), d);
    }
  }

  lemma FlagsAreRecordings(calls: seq<Dedup.Call>, events: seq<Event>, clock: nat -> int,
        d: Dedup.Params)
    requires AllValid(events) && InOrder(calls, events, clock)
    ensures true !in Flags(calls, events, clock, d) <==> NoneRecorded(calls, events, clock, d)
    ensures false !in Flags(calls, events, clock, d) <==> AllRecorded(calls, events, clock, d)
  {
    var flags := Flags(calls, events, clock, d);
    forall i | 0 <= i < |events|
      ensures flags[i] <==> RecordedWithin(calls + Asks(events[..i], clock), events[i], clock(i), d)
    {
      SeenMeansRecorded(calls, events, clock, i, d);
    }
  }

  // A request that gets as far as the loop and carries a well-formed batch.
  ghost predicate GoodPost(cfg: Config, calls: seq<Dedup.Call>, r: Request) {
    && ReachesLoop(cfg, r)
    && AllValid(r.body.value)
    && InOrder(calls, r.body.value, r.clock)
  }

  /** When does a batch, sent for the first time or resent, reach the buffer?
      Exactly when no id of it has been recorded within the last ttl, be it by an
      earlier event of the batch, and the whole of it fits.  Otherwise some of it is counted as duplicates, or it
      is answered 429. */
  lemma BatchReachesBuffer(cfg: Config, ops: seq<Op>, r: Request)
    requires GoodPost(cfg, History(cfg, ops), r)
    ensures var events := r.body.value;
            var calls := History(cfg, ops);
            var s := StateAfter(cfg, ops);
            var (s', answer) := Handle(cfg, s, r);
            var unrecorded := NoneRecorded(calls, events, r.clock, cfg.dedup);
            && (s'.buf == s.buf + StampAll(events, r.org.value) <==> unrecorded && Batch.Fits(cfg.opts, s.buf, events))
            && (unrecorded && !Batch.Fits(cfg.opts, s.buf, events) ==> answer == BufferFull && s'.buf == s.buf)
            && (AllRecorded(calls, events, r.clock, cfg.dedup) <==> answer == Accepted(0, |events|))
            && (answer == Accepted(0, |events|) ==> s'.buf == s.buf)
            && (!unrecorded ==>
                  || answer == BufferFull
                  || (answer.Accepted? && answer.duplicates > 0 && answer.accepted + answer.duplicates == |events|))
  {
    var events := r.body.value;
    var calls := History(cfg, ops);
    var flags := Flags(calls, events, r.clock, cfg.dedup);
    StateIsHistory(cfg, ops);
    CheckIsHistory(calls, events, r.org.value, r.clock, cfg.dedup);
    AsksAll(events, r.clock);
    FlagsAreRecordings(calls, events, r.clock, cfg.dedup);
    UnflaggedAllOrNone(events, flags, r.org.value);
  }

  // The best case.
  lemma NewBatchIsBuffered(cfg: Config, ops: seq<Op>, r: Request)
    requires GoodPost(cfg, History(cfg, ops), r)
    requires NoneRecorded(History(cfg, ops), r.body.value, r.clock, cfg.dedup)
    requires Batch.Fits(cfg.opts, StateAfter(cfg, ops).buf, r.body.value)
    ensures Handle(cfg, StateAfter(cfg, ops), r).0.buf
         == StateAfter(cfg, ops).buf + StampAll(r.body.value, r.org.value)
  {
    BatchReachesBuffer(cfg, ops, r);
  }

  // The history around the i-th question of a request.
  lemma SplitAtQuestion(calls: seq<Dedup.Call>, events: seq<Event>, clock: nat -> int,
        between: seq<Dedup.Call>, i: nat)
      returns (rest: seq<Dedup.Call>)
    requires AllValid(events) && i < |events|
    ensures calls + Asks(events, clock) + between
         == calls + Asks(events[..i], clock) + [Dedup.Asked(events[i].requestId, clock(i))] + rest
  {
    AsksPrefixIsPrefix(events, clock, i);
    var asks := Asks(events, clock);
    rest := asks[i + 1..] + between;
    SplitAround(calls, asks, between, i);
  }

  // Once a request has recorded an event's id, the recording is still there,
  // and no older, after whatever follows.
  lemma {:induction false} RecordedStaysRecorded(
    calls: seq<Dedup.Call>, events: seq<Event>, clock: nat -> int, between: seq<Dedup.Call>, i: nat, now: int,
    d: Dedup.Params)
    requires AllValid(events) && i < |events|
    requires Dedup.Nondecreasing(calls + Asks(events, clock) + between)
    requires InOrder(calls, events, clock)
    requires !SeenAt(calls, events, clock, i, d)
    requires now - clock(i) < d.ttl
    ensures RecordedWithin(calls + Asks(events, clock) + between, events[i], now, d)
  {
    SeenMeansRecorded(calls, events, clock, i, d);
    var rest := SplitAtQuestion(calls, events, clock, between, i);
    Dedup.RecordingOutlives(calls + Asks(events[..i], clock), events[i].requestId, clock(i), rest, now, d);
  }

  // Earlier events of a batch leave a fresh recording as it is.
  lemma StillRecorded(calls: seq<Dedup.Call>, events: seq<Event>, clock: nat -> int, i: nat,
        d: Dedup.Params)
    requires AllValid(events) && i < |events| && InOrder(calls, events, clock)
    requires RecordedWithin(calls, events[i], clock(i), d)
    ensures RecordedWithin(calls + Asks(events[..i], clock), events[i], clock(i), d)
  {
    var asks := Asks(events[..i], clock);
    var all := calls + asks + [Dedup.Asked(events[i].requestId, clock(i))];
    InOrderUpTo(calls, events, clock, i);
    forall k | 0 <= k < |asks|
      ensures asks[k].now <= clock(i)
    {
      assert all[|calls| + k] == asks[k] && all[|calls| + |asks|].now == clock(i);
    }
    Dedup.FreshStaysFresh(calls, asks, events[i].requestId, clock(i), d);
  }

  lemma HistoryThroughPost(cfg: Config, ops: seq<Op>, r: Request, between: seq<Op>)
    requires ReachesLoop(cfg, r)
    ensures History(cfg, ops + [Post(r)] + between)
         == History(cfg, ops) + Asks(r.body.value, r.clock) + History(cfg, between)
  {
    HistoryOneMore(cfg, ops, Post(r));
    HistoryConcat(cfg, ops + [Post(r)], between);
  }

  // The same batch sent twice, with anything in between: requests, sweeps,
  // flushes.  The second copy of every event is asked about less than ttl
  // after the first.
  ghost predicate Resent(cfg: Config, ops: seq<Op>, r1: Request, between: seq<Op>, r2: Request) {
    && GoodPost(cfg, History(cfg, ops), r1)
    && GoodPost(cfg, History(cfg, ops + [Post(r1)] + between), r2)
    && r1.body == r2.body
    && forall i :: 0 <= i < |r1.body.value| ==> r2.clock(i) - r1.clock(i) < cfg.dedup.ttl
  }

  /** The set records an id before the buffer is asked for room, so an event
      that a request let through - even one that was then refused with 429 -
      is a duplicate when its batch is resent within ttl. */
  lemma ResentEventIsSeen(cfg: Config, ops: seq<Op>, r1: Request, between: seq<Op>, r2: Request,
        i: nat)
    requires Resent(cfg, ops, r1, between, r2) && i < |r1.body.value|
    requires !SeenAt(History(cfg, ops), r1.body.value, r1.clock, i, cfg.dedup)
    ensures RecordedWithin(History(cfg, ops + [Post(r1)] + between), r2.body.value[i], r2.clock(i), cfg.dedup)
  {
    HistoryThroughPost(cfg, ops, r1, between);
    var calls := History(cfg, ops + [Post(r1)] + between);
    Dedup.NondecreasingPrefix(calls + Asks(r2.body.value, r2.clock), |calls|);
    assert (calls + Asks(r2.body.value, r2.clock))[..|calls|] == calls;
    RecordedStaysRecorded(History(cfg, ops), r1.body.value, r1.clock, History(cfg, between), i, r2.clock(i), cfg.dedup);
  }

  /** A client that resends a refused batch within ttl is told 202 with every
      event a duplicate, and nothing of the batch ever reaches the buffer. */
  lemma ResendAfter429IsLost(cfg: Config, ops: seq<Op>, r1: Request, between: seq<Op>, r2: Request)
    requires Resent(cfg, ops, r1, between, r2)
    requires NoneRecorded(History(cfg, ops), r1.body.value, r1.clock, cfg.dedup)
    requires !Batch.Fits(cfg.opts, StateAfter(cfg, ops).buf, r1.body.value)
    ensures var (s1, answer1) := Handle(cfg, StateAfter(cfg, ops), r1);
            answer1 == BufferFull && s1.buf == StateAfter(cfg, ops).buf
    ensures var before := StateAfter(cfg, ops + [Post(r1)] + between);
            var (s2, answer2) := Handle(cfg, before, r2);
            answer2 == Accepted(0, |r2.body.value|) && s2.buf == before.buf
  {
    var events := r1.body.value;
    var calls := History(cfg, ops + [Post(r1)] + between);
    BatchReachesBuffer(cfg, ops, r1);
    forall i | 0 <= i < |events|
      ensures RecordedWithin(calls + Asks(events[..i], r2.clock), events[i], r2.clock(i), cfg.dedup)
    {
      SeenMeansRecorded(History(cfg, ops), events, r1.clock, i, cfg.dedup);
      ResentEventIsSeen(cfg, ops, r1, between, r2, i);
      StillRecorded(calls, events, r2.clock, i, cfg.dedup);
    }
    BatchReachesBuffer(cfg, ops + [Post(r1)] + between, r2);
  }

  // ------------------------------------------------------------- what is answered

  ghost predicate AnyInvalid(body: seq<Event>, n: nat)
    requires n <= |body|
  {
    exists k :: 0 <= k < n && !body[k].Validates()
  }

  ghost predicate Counts(p: Progress, body: seq<Event>, n: nat)
    requires n <= |body|
  {
    (p.rejected <==> AnyInvalid(body, n)) && (!p.rejected ==> |p.kept| + p.duplicates == n)
  }

  lemma StepCounts(p: Progress, body: seq<Event>, n: nat, org: Bytes, now: int, d: Dedup.Params)
    requires |p.shards| == Dedup.SHARD_COUNT && n < |body| && Counts(p, body, n)
    ensures Counts(Step(p, body[n], org, now, d), body, n + 1)
  {
    assert AnyInvalid(body, n + 1) <==> AnyInvalid(body, n) || !body[n].Validates();
  }

  lemma {:induction false} CheckCounts(shards: seq<Dedup.Shard>, body: seq<Event>, org: Bytes, clock: nat -> int,
        d: Dedup.Params, n: nat)
    requires |shards| == Dedup.SHARD_COUNT && n <= |body|
    ensures Counts(Check(shards, body[..n], org, clock, d), body, n)
  {
    if n == 0 {
      assert body[..0] == [];
    } else {
      CheckCounts(shards, body, org, clock, d, n - 1);
      var p := Check(shards, body[..n - 1], org, clock, d);
      StepCounts(p, body, n - 1, org, clock(n - 1), d);
      CheckUpTo(shards, body, org, clock, d, n - 1);
      assert Check(shards, body[..n], org, clock, d) == Step(p, body[n - 1], org, clock(n - 1), d);
    }
  }

  /** Which answer a request gets: 401 exactly without a valid key; 400 exactly for a
      body that does not decode, is empty or too large, or holds an invalid event;
      202 with the number of events that joined the buffer and the rest as
      duplicates; and 429 only if at least one event found no room. */
  lemma AnswersTellWhat(cfg: Config, s: State, r: Request)
    requires |s.shards| == Dedup.SHARD_COUNT
    ensures var (s', answer) := Handle(cfg, s, r);
            && (answer == Unauthorized <==> r.org.None?)
            && (answer == BadRequest <==>
                  r.org.Some? && (r.body.None? || r.body.value == [] || |r.body.value| > cfg.maxBatch
                                  || AnyInvalid(r.body.value, |r.body.value|)))
            && (answer.Accepted? ==>
                  && |s'.buf| == |s.buf| + answer.accepted
                  && answer.accepted + answer.duplicates == |r.body.value|)
            && (!answer.Accepted? ==> s'.buf == s.buf)
            && (answer == BufferFull ==> |s.buf| + |r.body.value| > cfg.opts.capacity)
  {
    if ReachesLoop(cfg, r) {
      assert r.body.value[..|r.body.value|] == r.body.value;
      CheckCounts(s.shards, r.body.value, r.org.value, r.clock, cfg.dedup, |r.body.value|);
    }
  }

  // ------------------------------------------------------------- whose events

  // An event of the body under the org, in every other field as it was sent.
  ghost predicate SentUnder(x: Event, body: seq<Event>, org: Bytes) {
    x.orgId == org && exists k :: 0 <= k < |body| && x == body[k].(orgId := org)
  }

  lemma {:induction false} KeptUnderOrg(shards: seq<Dedup.Shard>, body: seq<Event>, org: Bytes, clock: nat -> int,
        d: Dedup.Params, n: nat)
    requires |shards| == Dedup.SHARD_COUNT && n <= |body|
    ensures forall x :: x in Check(shards, body[..n], org, clock, d).kept ==> SentUnder(x, body, org)
  {
    if n > 0 {
      KeptUnderOrg(shards, body, org, clock, d, n - 1);
      CheckUpTo(shards, body, org, clock, d, n - 1);
      assert SentUnder(body[n - 1].(orgId := org), body, org);
    }
  }

  /** Everything that a request adds to the buffer is an event of its body, stored
      under the org of the request's own key, whatever org the client wrote. */
  lemma BufferedUnderOrg(cfg: Config, s: State, r: Request)
    requires |s.shards| == Dedup.SHARD_COUNT
    ensures var s' := Handle(cfg, s, r).0;
            && s.buf <= s'.buf
            && (s'.buf != s.buf ==> r.org.Some? && r.body.Some?)
            && (forall i :: |s.buf| <= i < |s'.buf| ==> SentUnder(s'.buf[i], r.body.value, r.org.value))
  {
    if ReachesLoop(cfg, r) {
      assert r.body.value[..|r.body.value|] == r.body.value;
      KeptUnderOrg(s.shards, r.body.value, r.org.value, r.clock, cfg.dedup, |r.body.value|);
    }
  }

  // The bodies differ at most in the orgs that the client wrote.
  ghost predicate SameButOrgs(a: seq<Event>, b: seq<Event>) {
    |a| == |b| && forall k :: 0 <= k < |a| ==> exists org: Bytes :: a[k].(orgId := org) == b[k]
  }

  lemma {:induction false} OrgsDoNotMatter(shards: seq<Dedup.Shard>, a: seq<Event>, b: seq<Event>, org: Bytes,
        clock: nat -> int, d: Dedup.Params, n: nat)
    requires |shards| == Dedup.SHARD_COUNT && SameButOrgs(a, b) && n <= |a|
    ensures Check(shards, a[..n], org, clock, d) == Check(shards, b[..n], org, clock, d)
  {
    if n > 0 {
      OrgsDoNotMatter(shards, a, b, org, clock, d, n - 1);
      CheckUpTo(shards, a, org, clock, d, n - 1);
      CheckUpTo(shards, b, org, clock, d, n - 1);
    }
  }

  /** Two requests that differ only in the orgs that their clients wrote get the same
      answer and leave the same state. */
  lemma ClientOrgIsIgnored(cfg: Config, s: State, r: Request, body: seq<Event>)
    requires |s.shards| == Dedup.SHARD_COUNT && r.body.Some? && SameButOrgs(r.body.value, body)
    ensures Handle(cfg, s, r) == Handle(cfg, s, r.(body := Some(body)))
  {
    if ReachesLoop(cfg, r) {
      assert r.body.value[..|body|] == r.body.value && body[..|body|] == body;
      OrgsDoNotMatter(s.shards, r.body.value, body, r.org.value, r.clock, cfg.dedup, |body|);
    }
  }

  // ------------------------------------------------------------- the handler

  class Server {
    const cfg: Config
    const dedup: Dedup.Set
    const buffer: Batch.Buffer
    var eventsReceived: nat
    var eventsDropped: nat
    var authFailures: nat

    ghost predicate Valid()
      reads this, dedup, dedup.shards, buffer
    {
      && dedup.Valid() && dedup.p == cfg.dedup
      && buffer.Valid() && buffer.opts == cfg.opts
    }

    ghost function Now(): State
      reads this, dedup, dedup.shards, buffer
    {
      State(dedup.shards[..], buffer.buf)
    }

    constructor (ttl: int, maxBatch: int, o: Batch.Options)
      ensures Valid() && fresh(dedup) && fresh(dedup.shards) && fresh(buffer)
      ensures cfg.dedup.ttl == ttl && cfg.opts == Batch.Normalized(o)
      ensures cfg.maxBatch == if maxBatch <= 0 then 10000 else maxBatch
      ensures Now() == StateAfter(cfg, [])
      ensures eventsReceived == eventsDropped == authFailures == 0
    {
      cfg := Config(Dedup.Params(Dedup.FNV, ttl), if maxBatch <= 0 then 10000 else maxBatch, Batch.Normalized(o));
      dedup := new Dedup.Set(ttl);
      buffer := new Batch.Buffer(o);
      eventsReceived, eventsDropped, authFailures := 0, 0, 0;
    }

    // One turn of the loop over a decoded body.
    method CheckEvent(e: Event, org: Bytes, now: int, accepted: seq<Event>) returns (kept: seq<Event>, rejected: bool)
      requires Valid()
      modifies dedup.shards, this`eventsDropped
      ensures Valid()
      ensures eventsDropped >= old(eventsDropped)
      ensures forall n: nat {:trigger Progress(old(dedup.shards[..]), accepted, n, false)} ::
                (Step(Progress(old(dedup.shards[..]), accepted, n, false), e, org, now, cfg.dedup)
                  == Progress(dedup.shards[..], kept, n + (eventsDropped - old(eventsDropped)), rejected))
    {
      if !e.Validates() {
        return accepted, true;
      }
      var dup := dedup.Seen(e.requestId, now);
      if dup {
        eventsDropped := eventsDropped + 1;
        return accepted, false;
      }
      return accepted + [e.Stamped(org)], false;
    }

    method CheckEvents(events: seq<Event>, org: Bytes, clock: nat -> int) returns (accepted: seq<Event>, rejected: bool)
      requires Valid()
      modifies dedup.shards, this`eventsDropped
      ensures Valid()
      ensures eventsDropped >= old(eventsDropped)
      ensures Progress(dedup.shards[..], accepted, eventsDropped - old(eventsDropped), rejected)
           == Check(old(dedup.shards[..]), events, org, clock, cfg.dedup)
      ensures !rejected ==> |accepted| + (eventsDropped - old(eventsDropped)) == |events|
    {
      accepted, rejected := [], false;
      ghost var before := dedup.shards[..];
      ghost var done := Progress(before, [], 0, false);
      var i := 0;
      while i < |events|
        invariant 0 <= i <= |events|
        invariant Valid()
        invariant eventsDropped >= old(eventsDropped)
        invariant !rejected
        invariant done == Progress(dedup.shards[..], accepted, eventsDropped - old(eventsDropped), rejected)
        invariant done == Check(before, events[..i], org, clock, cfg.dedup)
        invariant |accepted| + done.duplicates == i
      {
        CheckUpTo(before, events, org, clock, cfg.dedup, i);
        accepted, rejected := CheckEvent(events[i], org, clock(i), accepted);
        done := Step(done, events[i], org, clock(i), cfg.dedup);
        i := i + 1;
        if rejected {
          RejectedStays(before, events, org, clock, cfg.dedup, i);
          return;
        }
      }
      assert events[..i] == events;
    }

    /** One request.  The dropped metric counts the duplicates it meets and the
        events of a refused batch; what a 400 throws away is counted nowhere. */
    method HandleEvents(r: Request) returns (answer: Response)
      requires Valid()
      modifies this, dedup.shards, buffer`buf, buffer`flushReq
      ensures Valid()
      ensures (Now(), answer) == Handle(cfg, old(Now()), r)
      ensures forall i :: |old(buffer.buf)| <= i < |buffer.buf| ==>
                r.org.Some? && r.body.Some? && SentUnder(buffer.buf[i], r.body.value, r.org.value)
      ensures eventsReceived == old(eventsReceived) + if ReachesLoop(cfg, r) then |r.body.value| else 0
      ensures answer.Accepted? ==> eventsDropped == old(eventsDropped) + answer.duplicates
      ensures answer.BufferFull? ==> eventsDropped == old(eventsDropped) + |r.body.value|
      ensures authFailures == old(authFailures) + if answer.Unauthorized? then 1 else 0
    {
      BufferedUnderOrg(cfg, Now(), r);
      if r.org.None? {
        authFailures := authFailures + 1;
        return Unauthorized;
      }
      if r.body.None? {
        return BadRequest;
      }
      var events := r.body.value;
      if |events| == 0 || |events| > cfg.maxBatch {
        return BadRequest;
      }
      eventsReceived := eventsReceived + |events|;
      var accepted, rejected := CheckEvents(events, r.org.value, r.clock);
      if rejected {
        return BadRequest;
      }
      if |accepted| == 0 {
        return Accepted(0, |events|);
      }
      var n, full := buffer.Add(accepted);
      if full {
        eventsDropped := eventsDropped + |accepted|;
        return BufferFull;
      }
      return Accepted(|accepted|, |events| - |accepted|);
    }
  }
}
