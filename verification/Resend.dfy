/** An SDK queue and the ingest service together: what a client makes of the
    answers when it resends a batch that was refused. */
module Resend {
  import opened Common
  import opened Ingest
  import Batch
  import Dedup
  import Events
  import Shipping

  function StatusOf(answer: Response): Shipping.Status {
    match answer
    case Unauthorized => Some(401)
    case BadRequest => Some(400)
    case Accepted(_, _) => Some(202)
    case BufferFull => Some(429)
  }

  /** What the client's loop makes of each answer: 202 delivers the batch, 401 and 400
      give it up for good, and 429 is the only one after which it is sent again. */
  lemma AnswersAreUnderstood(answer: Response)
    ensures Shipping.Retryable(StatusOf(answer)) <==> answer == BufferFull
    ensures answer != BufferFull ==>
              Shipping.Final(StatusOf(answer)) == (if answer.Accepted? then Shipping.Delivered
                                                   else if answer == Unauthorized then Shipping.AuthFailed
                                                   else Shipping.Rejected)
    ensures answer == BufferFull ==> StatusOf(answer) == Some(429)
    ensures answer == BadRequest ==> StatusOf(answer) == Some(400)
  {
  }

  /** A batch of new events meets a full buffer and is resent less than ttl
      later.  The client sees 429, then 202, and files the batch as delivered;
      yet neither attempt put a single event of it into the buffer, and the
      second answer counts all of them as duplicates. */
  lemma {:induction false} DeliveredButNeverStored(
    cfg: Config, ops: seq<Op>, r1: Request, between: seq<Op>, r2: Request, attempts: int)
    requires Resent(cfg, ops, r1, between, r2)
    requires NoneRecorded(History(cfg, ops), r1.body.value, r1.clock, cfg.dedup)
    requires !Batch.Fits(cfg.opts, StateAfter(cfg, ops).buf, r1.body.value)
    requires attempts >= 2
    ensures var s1 := StateAfter(cfg, ops);
            var s2 := StateAfter(cfg, ops + [Post(r1)] + between);
            var statuses := [StatusOf(Handle(cfg, s1, r1).1), StatusOf(Handle(cfg, s2, r2).1)];
            && Shipping.Explains(statuses, Shipping.Delivered, attempts)
            && Handle(cfg, s1, r1).0.buf == s1.buf
            && Handle(cfg, s2, r2).0.buf == s2.buf
  {
    ResendAfter429IsLost(cfg, ops, r1, between, r2);
    Shipping.FinalExplains([Some(429)], Some(202), attempts);
    assert [Some(429)] + [Some(202)] == [Some(429), Some(202)];
  }

  const AT_ZERO: nat -> int := _ => 0

  // A request made in one instant.
  function AtOnce(org: Bytes, events: seq<Events.Event>): Request {
    Request(Some(org), Some(events), AT_ZERO)
  }

  ghost predicate AllAtZero(calls: seq<Dedup.Call>) {
    forall i :: 0 <= i < |calls| ==> calls[i].now == 0
  }

  lemma {:induction false} GoodAtOnce(cfg: Config, calls: seq<Dedup.Call>, org: Bytes, events: seq<Events.Event>)
    requires 0 < |events| <= cfg.maxBatch && AllValid(events) && AllAtZero(calls)
    ensures GoodPost(cfg, calls, AtOnce(org, events))
    ensures AllAtZero(Asks(events, AtOnce(org, events).clock))
  {
    AsksAll(events, AtOnce(org, events).clock);
  }

  // Requests that are new in every event and fill the buffer to the last place.
  ghost predicate Fills(cfg: Config, events: seq<Events.Event>) {
    AllValid(events) && DistinctIds(events) && 0 < |events| == cfg.opts.capacity <= cfg.maxBatch
  }

  lemma {:induction false} FillHistory(cfg: Config, org: Bytes, events: seq<Events.Event>)
    requires Fills(cfg, events)
    ensures var r := AtOnce(org, events);
            History(cfg, [Post(r)]) == Asks(events, r.clock) && AllAtZero(History(cfg, [Post(r)]))
  {
    var r := AtOnce(org, events);
    GoodAtOnce(cfg, [], org, events);
    HistoryThroughPost(cfg, [], r, []);
    assert [] + [Post(r)] + [] == [Post(r)] && [] + Asks(events, r.clock) + [] == Asks(events, r.clock);
  }

  lemma NewAfterNothing(cfg: Config, events: seq<Events.Event>, clock: nat -> int)
    requires AllValid(events) && DistinctIds(events)
    ensures NoneRecorded([], events, clock, cfg.dedup)
  {
    DistinctIdsNeedHistoryOnly([], events, clock, cfg.dedup);
  }

  // The first request a service gets finds room for as many new events.
  lemma {:induction false} FilledBuffer(cfg: Config, org: Bytes, events: seq<Events.Event>)
    requires Fills(cfg, events)
    ensures StateAfter(cfg, [Post(AtOnce(org, events))]).buf == Events.StampAll(events, org)
  {
    var r := AtOnce(org, events);
    GoodAtOnce(cfg, [], org, events);
    assert History(cfg, []) == [] && StateAfter(cfg, []).buf == [];
    NewAfterNothing(cfg, events, r.clock);
    NewBatchIsBuffered(cfg, [], r);
    assert [] + Events.StampAll(events, org) == Events.StampAll(events, org);
    AfterOnePost(cfg, r);
  }

  lemma {:induction false} AfterOnePost(cfg: Config, r: Request)
    ensures StateAfter(cfg, [Post(r)]) == Handle(cfg, StateAfter(cfg, []), r).0
  {
    assert [Post(r)][..0] == [];
  }

  lemma {:induction false} StillAtZero(cfg: Config, before: seq<Op>, org: Bytes, events: seq<Events.Event>)
    requires 0 < |events| <= cfg.maxBatch && AllValid(events) && AllAtZero(History(cfg, before))
    ensures AllAtZero(History(cfg, before + [Post(AtOnce(org, events))] + [FlushBuffer]))
  {
    GoodAtOnce(cfg, [], org, events);
    HistoryThroughPost(cfg, before, AtOnce(org, events), [FlushBuffer]);
    assert [FlushBuffer][..0] == [] && History(cfg, [FlushBuffer]) == [];
  }

  // An event with an id of its own, sent twice with a flush in between.
  lemma {:induction false} SentTwice(cfg: Config, before: seq<Op>, org: Bytes, e: Events.Event)
    requires cfg.maxBatch >= 1 && cfg.dedup.ttl > 0 && e.Validates()
    requires AllAtZero(History(cfg, before))
    ensures Resent(cfg, before, AtOnce(org, [e]), [FlushBuffer], AtOnce(org, [e]))
  {
    var r := AtOnce(org, [e]);
    GoodAtOnce(cfg, History(cfg, before), org, [e]);
    StillAtZero(cfg, before, org, [e]);
    GoodAtOnce(cfg, History(cfg, before + [Post(r)] + [FlushBuffer]), org, [e]);
  }

  lemma NewAfterOthers(cfg: Config, calls: seq<Dedup.Call>, e: Events.Event, clock: nat -> int)
    requires e.Validates() && forall i :: 0 <= i < |calls| ==> calls[i].Asked? && calls[i].key != e.requestId
    ensures NoneRecorded(calls, [e], clock, cfg.dedup)
  {
    assert [] + calls == calls;
    OtherIdsDoNotMatter([], calls, e.requestId, cfg.dedup);
    DistinctIdsNeedHistoryOnly(calls, [e], clock, cfg.dedup);
  }

  lemma FlushEmpties(cfg: Config, ops: seq<Op>)
    ensures StateAfter(cfg, ops + [FlushBuffer]).buf == []
  {
  }

  /** Such a batch is easy to come by, and it is the recorded id alone that undoes
      it: a new event meets a buffer that another request has just filled, and is
      sent again after a flush, when the buffer is empty.  It would fit, but is
      answered 202 as a duplicate and is not buffered. */
  lemma {:induction false} OneEventCanBeLost(cfg: Config, fillers: seq<Events.Event>, org: Bytes, e: Events.Event)
    requires Fills(cfg, fillers) && e.Validates() && cfg.dedup.ttl > 0
    requires forall i :: 0 <= i < |fillers| ==> fillers[i].requestId != e.requestId
    ensures var r, before := AtOnce(org, [e]), [Post(AtOnce(org, fillers))];
            var between := before + [Post(r)] + [FlushBuffer];
            && Resent(cfg, before, r, [FlushBuffer], r)
            && NoneRecorded(History(cfg, before), [e], r.clock, cfg.dedup)
            && Handle(cfg, StateAfter(cfg, before), r).1 == BufferFull
            && StateAfter(cfg, between).buf == [] && Batch.Fits(cfg.opts, [], [e])
            && Handle(cfg, StateAfter(cfg, between), r).1 == Accepted(0, 1)
            && Handle(cfg, StateAfter(cfg, between), r).0.buf == []
  {
    var r, before := AtOnce(org, [e]), [Post(AtOnce(org, fillers))];
    FillHistory(cfg, org, fillers);
    FilledBuffer(cfg, org, fillers);
    SentTwice(cfg, before, org, e);
    NewAfterOthers(cfg, History(cfg, before), e, r.clock);
    ResendAfter429IsLost(cfg, before, r, [FlushBuffer], r);
    FlushEmpties(cfg, before + [Post(r)]);
  }
}
