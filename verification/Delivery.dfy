/** The TypeScript queue and the ingest service joined into one system: what a
    delivered event has come to at the service, in every run of the two. */
module Delivery {
  import opened Common
  import opened Events
  import opened Ingest
  import opened Resend
  import Batch
  import Dedup
  import Shipping
  import TsQueue

  // ------------------------------------------------- what the service has done

  // The events that a request is let through with.
  function KeptOf(cfg: Config, s: State, r: Request): seq<Event>
    requires |s.shards| == Dedup.SHARD_COUNT
  {
    if ReachesLoop(cfg, r) then Check(s.shards, r.body.value, r.org.value, r.clock, cfg.dedup).kept else []
  }

  // Everything that was ever appended to the buffer.
  ghost function Buffered(cfg: Config, ops: seq<Op>): seq<Event> {
    if ops == [] then []
    else
      var n := |ops| - 1;
      Buffered(cfg, ops[..n]) +
      if ops[n].Post? && Handle(cfg, StateAfter(cfg, ops[..n]), ops[n].r).1.Accepted?
      then KeptOf(cfg, StateAfter(cfg, ops[..n]), ops[n].r) else []
  }

  // Everything that was let through in a request that was then refused, be it for
  // want of room or for an invalid event behind it.
  ghost function Refused(cfg: Config, ops: seq<Op>): seq<Event> {
    if ops == [] then []
    else
      var n := |ops| - 1;
      Refused(cfg, ops[..n]) +
      if ops[n].Post? && !Handle(cfg, StateAfter(cfg, ops[..n]), ops[n].r).1.Accepted?
      then KeptOf(cfg, StateAfter(cfg, ops[..n]), ops[n].r) else []
  }

  ghost predicate HasId(events: seq<Event>, id: Dedup.Key) {
    exists i :: 0 <= i < |events| && events[i].requestId == id
  }

  ghost predicate Recorded(shards: seq<Dedup.Shard>, id: Dedup.Key) {
    exists i :: 0 <= i < |shards| && id in shards[i]
  }

  // An event with the id was buffered, or let through and refused.
  ghost predicate Accounted(cfg: Config, ops: seq<Op>, id: Dedup.Key) {
    HasId(Buffered(cfg, ops), id) || HasId(Refused(cfg, ops), id)
  }

  lemma HasIdGrows(a: seq<Event>, b: seq<Event>, id: Dedup.Key)
    ensures HasId(a + b, id) <==> HasId(a, id) || HasId(b, id)
  {
    if HasId(a, id) {
      var i :| 0 <= i < |a| && a[i].requestId == id;
      assert (a + b)[i].requestId == id;
    }
    if HasId(b, id) {
      var i :| 0 <= i < |b| && b[i].requestId == id;
      assert (a + b)[|a| + i].requestId == id;
    }
  }

  lemma AccountedGrows(cfg: Config, ops: seq<Op>, op: Op, id: Dedup.Key)
    ensures Accounted(cfg, ops, id) ==> Accounted(cfg, ops + [op], id)
    ensures op.Post? && HasId(KeptOf(cfg, StateAfter(cfg, ops), op.r), id) ==> Accounted(cfg, ops + [op], id)
  {
    LastIsLast(ops, op);
    var kept := if op.Post? then KeptOf(cfg, StateAfter(cfg, ops), op.r) else [];
    HasIdGrows(Buffered(cfg, ops), kept, id);
    HasIdGrows(Refused(cfg, ops), kept, id);
    assert Buffered(cfg, ops) + [] == Buffered(cfg, ops) && Refused(cfg, ops) + [] == Refused(cfg, ops);
  }

  lemma AskRecords(shards: seq<Dedup.Shard>, key: Dedup.Key, now: int, d: Dedup.Params, id: Dedup.Key)
    requires |shards| == Dedup.SHARD_COUNT
    ensures var (after, dup) := Dedup.Ask(shards, key, now, d);
            && (Recorded(after, id) ==> Recorded(shards, id) || (!dup && key == id))
            && (dup ==> Recorded(shards, key))
  {
  }

  // What is recorded after the loop was recorded before, or is kept.
  lemma {:induction false} CheckRecords(shards: seq<Dedup.Shard>, r: Request, n: nat, d: Dedup.Params, id: Dedup.Key)
    requires |shards| == Dedup.SHARD_COUNT && r.org.Some? && r.body.Some? && n <= |r.body.value|
    ensures var p := Check(shards, r.body.value[..n], r.org.value, r.clock, d);
            Recorded(p.shards, id) ==> Recorded(shards, id) || HasId(p.kept, id)
  {
    if n > 0 {
      var events := r.body.value;
      CheckRecords(shards, r, n - 1, d, id);
      CheckUpTo(shards, events, r.org.value, r.clock, d, n - 1);
      var p := Check(shards, events[..n - 1], r.org.value, r.clock, d);
      AskRecords(p.shards, events[n - 1].requestId, r.clock(n - 1), d, id);
      HasIdGrows(p.kept, [events[n - 1].Stamped(r.org.value)], id);
      assert [events[n - 1].Stamped(r.org.value)][0].requestId == events[n - 1].requestId;
    }
  }

  lemma StepCovers(p: Progress, e: Event, org: Bytes, now: int, d: Dedup.Params)
    requires |p.shards| == Dedup.SHARD_COUNT && !Step(p, e, org, now, d).rejected
    ensures Recorded(p.shards, e.requestId) || HasId(Step(p, e, org, now, d).kept, e.requestId)
  {
    AskRecords(p.shards, e.requestId, now, d, e.requestId);
    assert (p.kept + [e.Stamped(org)])[|p.kept|].requestId == e.requestId;
  }

  lemma StepKeeps(p: Progress, e: Event, org: Bytes, now: int, d: Dedup.Params, id: Dedup.Key)
    requires |p.shards| == Dedup.SHARD_COUNT
    ensures HasId(p.kept, id) ==> HasId(Step(p, e, org, now, d).kept, id)
    ensures !Step(p, e, org, now, d).rejected ==> !p.rejected
  {
    HasIdGrows(p.kept, [e.Stamped(org)], id);
  }

  ghost predicate Covered(shards: seq<Dedup.Shard>, kept: seq<Event>, id: Dedup.Key) {
    Recorded(shards, id) || HasId(kept, id)
  }

  // And every event of a batch that is not rejected is one or the other.
  lemma {:induction false} CheckCovers(shards: seq<Dedup.Shard>, r: Request, n: nat, d: Dedup.Params, i: nat)
    requires |shards| == Dedup.SHARD_COUNT && r.org.Some? && r.body.Some? && i < n <= |r.body.value|
    requires !Check(shards, r.body.value[..n], r.org.value, r.clock, d).rejected
    ensures Covered(shards, Check(shards, r.body.value[..n], r.org.value, r.clock, d).kept, r.body.value[i].requestId)
  {
    CheckUpTo(shards, r.body.value, r.org.value, r.clock, d, n - 1);
    if i < n - 1 {
      var p := Check(shards, r.body.value[..n - 1], r.org.value, r.clock, d);
      StepKeeps(p, r.body.value[n - 1], r.org.value, r.clock(n - 1), d, r.body.value[i].requestId);
      CheckCovers(shards, r, n - 1, d, i);
    } else {
      LastIsCovered(shards, r, i, d);
    }
  }

  lemma {:induction false} LastIsCovered(shards: seq<Dedup.Shard>, r: Request, i: nat, d: Dedup.Params)
    requires |shards| == Dedup.SHARD_COUNT && r.org.Some? && r.body.Some? && i < |r.body.value|
    requires var p := Check(shards, r.body.value[..i], r.org.value, r.clock, d);
             !Step(p, r.body.value[i], r.org.value, r.clock(i), d).rejected
    ensures var p := Check(shards, r.body.value[..i], r.org.value, r.clock, d);
            Covered(shards, Step(p, r.body.value[i], r.org.value, r.clock(i), d).kept, r.body.value[i].requestId)
  {
    var p, id := Check(shards, r.body.value[..i], r.org.value, r.clock, d), r.body.value[i].requestId;
    StepCovers(p, r.body.value[i], r.org.value, r.clock(i), d);
    StepKeeps(p, r.body.value[i], r.org.value, r.clock(i), d, id);
    CheckRecords(shards, r, i, d, id);
  }

  lemma SweptWasRecorded(shards: seq<Dedup.Shard>, now: int, d: Dedup.Params, id: Dedup.Key)
    requires Recorded(Dedup.Swept(shards, now, d), id)
    ensures Recorded(shards, id)
  {
  }

  /** Whatever is recorded as seen was buffered at some time, or was let through in
      a request that was then refused. */
  lemma {:induction false} RecordedIsAccounted(cfg: Config, ops: seq<Op>, id: Dedup.Key)
    requires Recorded(StateAfter(cfg, ops).shards, id)
    ensures Accounted(cfg, ops, id)
  {
    if ops != [] {
      var n := |ops| - 1;
      var before, op := ops[..n], ops[n];
      var s := StateAfter(cfg, before);
      assert ops == before + [op];
      AccountedGrows(cfg, before, op, id);
      if op.Post? && ReachesLoop(cfg, op.r) {
        assert op.r.body.value[..|op.r.body.value|] == op.r.body.value;
        CheckRecords(s.shards, op.r, |op.r.body.value|, cfg.dedup, id);
      } else if op.Evict? {
        SweptWasRecorded(s.shards, op.now, cfg.dedup, id);
      }
      if Recorded(s.shards, id) {
        RecordedIsAccounted(cfg, before, id);
      }
    }
  }

  /** So is every event of a batch that is answered 202. */
  lemma AcceptedIsAccounted(cfg: Config, ops: seq<Op>, r: Request, i: nat)
    requires Handle(cfg, StateAfter(cfg, ops), r).1.Accepted? && i < |r.body.value|
    ensures Accounted(cfg, ops + [Post(r)], r.body.value[i].requestId)
  {
    var s, id := StateAfter(cfg, ops), r.body.value[i].requestId;
    assert r.body.value[..|r.body.value|] == r.body.value;
    CheckCovers(s.shards, r, |r.body.value|, cfg.dedup, i);
    AccountedGrows(cfg, ops, Post(r), id);
    if Recorded(s.shards, id) {
      RecordedIsAccounted(cfg, ops, id);
    }
  }

  // ------------------------------------------------------------- the two joined

  // The client's queue holds numbers; wire says which event each stands for.
  datatype System = System(client: TsQueue.Config, service: Config, org: Option<Bytes>, wire: int -> Event)

  // The service is told by what has been done to it.
  datatype Joint = Joint(client: TsQueue.State, ops: seq<Op>)

  const START: Joint := Joint(TsQueue.Init(), [])

  // What becomes of a send: answered, handled but the answer lost, or lost itself.
  datatype Fate = Answered | Unanswered | Undelivered

  datatype Move =
    | Local(step: TsQueue.Step)              // the client on its own
    | Other(op: Op)                          // other clients, sweeps and flushes
    | Send(clock: nat -> int, fate: Fate)    // the client's request, up to its reply

  predicate Possible(j: Joint, m: Move) {
    match m
    case Local(step) => !step.Reply? && TsQueue.Enabled(j.client, step)
    case Other(_) => true
    case Send(_, _) => j.client.flight.Sending?
  }

  function OnWire(sys: System, batch: seq<int>): seq<Event> {
    seq(|batch|, i requires 0 <= i < |batch| => sys.wire(batch[i]))
  }

  function RequestOf(sys: System, batch: seq<int>, clock: nat -> int): Request {
    Request(sys.org, Some(OnWire(sys, batch)), clock)
  }

  ghost function After(sys: System, j: Joint, m: Move): Joint
    requires Possible(j, m)
  {
    match m
    case Local(step) => j.(client := TsQueue.Do(sys.client, j.client, step))
    case Other(op) => j.(ops := j.ops + [op])
    case Send(clock, fate) =>
      var r := RequestOf(sys, j.client.flight.batch, clock);
      var answer := StatusOf(Handle(sys.service, StateAfter(sys.service, j.ops), r).1);
      Joint(TsQueue.Replied(j.client, if fate.Answered? then answer else None),
            if fate.Undelivered? then j.ops else j.ops + [Post(r)])
  }

  ghost predicate IsRun(sys: System, moves: seq<Move>)
    decreases |moves|, 0
  {
    moves == [] || (
      var n := |moves| - 1;
      IsRun(sys, moves[..n]) && Possible(RunOf(sys, moves[..n]), moves[n]))
  }

  ghost function RunOf(sys: System, moves: seq<Move>): Joint
    requires IsRun(sys, moves)
    decreases |moves|, 1
  {
    if moves == [] then START else After(sys, RunOf(sys, moves[..|moves| - 1]), moves[|moves| - 1])
  }

  ghost predicate BatchAccounted(sys: System, ops: seq<Op>, batch: seq<int>) {
    forall i :: 0 <= i < |batch| ==> Accounted(sys.service, ops, sys.wire(batch[i]).requestId)
  }

  // Every batch filed as delivered has come to something at the service.
  ghost predicate DeliveriesAccounted(sys: System, j: Joint) {
    forall k :: 0 <= k < |j.client.settled| && j.client.settled[k].verdict.Delivered? ==>
      BatchAccounted(sys, j.ops, j.client.settled[k].batch)
  }

  ghost predicate Inv(sys: System, j: Joint) {
    TsQueue.Inv(sys.client, j.client) && DeliveriesAccounted(sys, j)
  }

  lemma DeliveriesStayAccounted(sys: System, j: Joint, op: Op)
    requires DeliveriesAccounted(sys, j)
    ensures DeliveriesAccounted(sys, j.(ops := j.ops + [op]))
  {
    forall k, i | 0 <= k < |j.client.settled| && j.client.settled[k].verdict.Delivered?
                  && 0 <= i < |j.client.settled[k].batch|
      ensures Accounted(sys.service, j.ops + [op], sys.wire(j.client.settled[k].batch[i]).requestId)
    {
      assert BatchAccounted(sys, j.ops, j.client.settled[k].batch);
      AccountedGrows(sys.service, j.ops, op, sys.wire(j.client.settled[k].batch[i]).requestId);
    }
  }

  // On its own the client settles nothing, or what it gave up.
  lemma LocalDeliversNothing(cfg: TsQueue.Config, s: TsQueue.State, step: TsQueue.Step)
    requires TsQueue.Enabled(s, step) && !step.Reply?
    ensures var s' := TsQueue.Do(cfg, s, step);
            || s'.settled == s.settled
            || exists r: Shipping.Record :: s'.settled == s.settled + [r] && r.verdict.Exhausted?
  {
  }

  lemma SendAccounts(sys: System, j: Joint, clock: nat -> int, fate: Fate)
    requires j.client.flight.Sending? && DeliveriesAccounted(sys, j)
    ensures DeliveriesAccounted(sys, After(sys, j, Send(clock, fate)))
  {
    var batch := j.client.flight.batch;
    var r := RequestOf(sys, batch, clock);
    DeliveriesStayAccounted(sys, j, Post(r));
    if fate.Answered? && Handle(sys.service, StateAfter(sys.service, j.ops), r).1.Accepted? {
      forall i | 0 <= i < |batch|
        ensures Accounted(sys.service, j.ops + [Post(r)], sys.wire(batch[i]).requestId)
      {
        AcceptedIsAccounted(sys.service, j.ops, r, i);
      }
    }
  }

  lemma SendKeepsClient(sys: System, j: Joint, clock: nat -> int, fate: Fate)
    requires TsQueue.Inv(sys.client, j.client) && j.client.flight.Sending?
    ensures TsQueue.Inv(sys.client, After(sys, j, Send(clock, fate)).client)
  {
    var r := RequestOf(sys, j.client.flight.batch, clock);
    var answer := StatusOf(Handle(sys.service, StateAfter(sys.service, j.ops), r).1);
    TsQueue.StepKeepsInv(sys.client, j.client, TsQueue.Reply(if fate.Answered? then answer else None));
  }

  lemma LocalKeepsInv(sys: System, j: Joint, step: TsQueue.Step)
    requires Inv(sys, j) && Possible(j, Local(step))
    ensures Inv(sys, After(sys, j, Local(step)))
  {
    TsQueue.StepKeepsInv(sys.client, j.client, step);
    LocalDeliversNothing(sys.client, j.client, step);
    GivenUpNeedsNoAccount(sys, j, After(sys, j, Local(step)));
  }

  lemma GivenUpNeedsNoAccount(sys: System, j: Joint, j': Joint)
    requires DeliveriesAccounted(sys, j) && j'.ops == j.ops
    requires j'.client.settled == j.client.settled
          || exists r: Shipping.Record :: j'.client.settled == j.client.settled + [r] && r.verdict.Exhausted?
    ensures DeliveriesAccounted(sys, j')
  {
  }

  lemma MoveKeepsInv(sys: System, j: Joint, m: Move)
    requires Inv(sys, j) && Possible(j, m)
    ensures Inv(sys, After(sys, j, m))
  {
    match m {
      case Local(step) => LocalKeepsInv(sys, j, step);
      case Other(op) => DeliveriesStayAccounted(sys, j, op);
      case Send(clock, fate) =>
        SendKeepsClient(sys, j, clock, fate);
        SendAccounts(sys, j, clock, fate);
    }
  }

  lemma {:induction false} RunKeepsInv(sys: System, moves: seq<Move>)
    requires IsRun(sys, moves)
    ensures Inv(sys, RunOf(sys, moves))
  {
    if moves != [] {
      var n := |moves| - 1;
      RunKeepsInv(sys, moves[..n]);
      MoveKeepsInv(sys, RunOf(sys, moves[..n]), moves[n]);
    }
  }

  /** In every run of client and service together, whatever other clients do and
      whatever the network loses: the id of an event in a batch that the client
      filed as delivered was buffered by the service at some time, or let through in
      a request that it then refused.  Once flush answers true, every event ever
      accepted is in a batch that has been settled. */
  lemma DeliveredIsAccounted(sys: System, moves: seq<Move>)
    requires IsRun(sys, moves)
    ensures var j := RunOf(sys, moves);
            && DeliveriesAccounted(sys, j)
            && (TsQueue.FlushReturnsTrue(j.client) ==> j.client.accepted == Shipping.Batches(j.client.settled))
  {
    RunKeepsInv(sys, moves);
  }

  /** So as long as the service refuses nothing that it has let through, every
      delivered event has been in its buffer. */
  lemma WithoutRefusalsDeliveredIsBuffered(sys: System, moves: seq<Move>, k: nat, i: nat)
    requires IsRun(sys, moves) && Refused(sys.service, RunOf(sys, moves).ops) == []
    requires var settled := RunOf(sys, moves).client.settled;
             k < |settled| && settled[k].verdict.Delivered? && i < |settled[k].batch|
    ensures var j := RunOf(sys, moves);
            HasId(Buffered(sys.service, j.ops), sys.wire(j.client.settled[k].batch[i]).requestId)
  {
    RunKeepsInv(sys, moves);
    assert BatchAccounted(sys, RunOf(sys, moves).ops, RunOf(sys, moves).client.settled[k].batch);
  }

  // ------------------------------------------------------------------- a loss

  const AT_ZERO: nat -> int := _ => 0

  lemma RunMore(sys: System, moves: seq<Move>, m: Move)
    requires IsRun(sys, moves) && Possible(RunOf(sys, moves), m)
    ensures IsRun(sys, moves + [m]) && RunOf(sys, moves + [m]) == After(sys, RunOf(sys, moves), m)
  {
    LastIsLast(moves, m);
  }

  // The client with one event accepted, which is being sent for the next time.
  function Sending(x: int, statuses: seq<Shipping.Status>): TsQueue.State {
    TsQueue.State([], true, false, 1, 0, TsQueue.Sending([x], statuses), [x], [], 0)
  }

  lemma QueueOne(cfg: TsQueue.Config, x: int)
    requires cfg.maxQueue >= 1 && cfg.batchSize >= 1 && cfg.maxRetries >= 2
    ensures TsQueue.Do(cfg, TsQueue.Do(cfg, TsQueue.Init(), TsQueue.Enqueue(x)), TsQueue.Tick) == Sending(x, [])
  {
    assert [] + [x] == [x] && [x][..1] == [x] && [x][1..] == [];
  }

  // The client has queued one event, which the service has yet to be sent, and
  // another client has filled the service's buffer.
  lemma UpToFirstSend(sys: System, fill: Request, x: int) returns (moves: seq<Move>)
    requires sys.client.maxQueue >= 1 && sys.client.batchSize >= 1 && sys.client.maxRetries >= 2
    ensures IsRun(sys, moves)
    ensures var j := RunOf(sys, moves);
            && j.ops == [Post(fill)]
            && j.client == Sending(x, [])
  {
    QueueOne(sys.client, x);
    RunMore(sys, [], Other(Post(fill)));
    RunMore(sys, [] + [Other(Post(fill))], Local(TsQueue.Enqueue(x)));
    moves := [] + [Other(Post(fill))] + [Local(TsQueue.Enqueue(x))];
    RunMore(sys, moves, Local(TsQueue.Tick));
    moves := moves + [Local(TsQueue.Tick)];
  }

  // A send that is refused, a flush, and the end of the backoff.
  lemma RefusedOnce(sys: System, before: seq<Move>, x: int) returns (moves: seq<Move>)
    requires IsRun(sys, before) && sys.client.maxRetries >= 2
    requires RunOf(sys, before).client == Sending(x, [])
    requires var j := RunOf(sys, before);
             Handle(sys.service, StateAfter(sys.service, j.ops), RequestOf(sys, [x], AT_ZERO)).1 == BufferFull
    ensures IsRun(sys, moves)
    ensures var j, j' := RunOf(sys, before), RunOf(sys, moves);
            && j'.ops == j.ops + [Post(RequestOf(sys, [x], AT_ZERO))] + [FlushBuffer]
            && j'.client == Sending(x, [Some(429)])
  {
    assert [] + [Some(429)] == [Some(429)];
    RunMore(sys, before, Send(AT_ZERO, Answered));
    moves := before + [Send(AT_ZERO, Answered)];
    RunMore(sys, moves, Other(FlushBuffer));
    moves := moves + [Other(FlushBuffer)];
    RunMore(sys, moves, Local(TsQueue.Wake));
    moves := moves + [Local(TsQueue.Wake)];
  }

  // A send that is accepted, after which the tick is over.
  lemma AcceptedThen(sys: System, before: seq<Move>, x: int) returns (moves: seq<Move>)
    requires IsRun(sys, before)
    requires RunOf(sys, before).client == Sending(x, [Some(429)])
    requires var j := RunOf(sys, before);
             Handle(sys.service, StateAfter(sys.service, j.ops), RequestOf(sys, [x], AT_ZERO)).1 == Accepted(0, 1)
    ensures IsRun(sys, moves)
    ensures var j, j' := RunOf(sys, before), RunOf(sys, moves);
            && j'.ops == j.ops + [Post(RequestOf(sys, [x], AT_ZERO))]
            && j'.client.settled == [Shipping.Record([x], [Some(429), Some(202)], Shipping.Delivered)]
            && j'.client.dropped == 0 && TsQueue.FlushReturnsTrue(j'.client)
  {
    assert [Some(429)] + [Some(202)] == [Some(429), Some(202)];
    RunMore(sys, before, Send(AT_ZERO, Answered));
    moves := before + [Send(AT_ZERO, Answered)];
    RunMore(sys, moves, Local(TsQueue.Resume));
    moves := moves + [Local(TsQueue.Resume)];
  }

  // What a request is let through with are events of its own.
  lemma {:induction false} KeptAreSent(shards: seq<Dedup.Shard>, r: Request, n: nat, d: Dedup.Params, id: Dedup.Key)
    requires |shards| == Dedup.SHARD_COUNT && r.org.Some? && r.body.Some? && n <= |r.body.value|
    ensures HasId(Check(shards, r.body.value[..n], r.org.value, r.clock, d).kept, id) ==> HasId(r.body.value, id)
  {
    if n > 0 {
      KeptAreSent(shards, r, n - 1, d, id);
      CheckUpTo(shards, r.body.value, r.org.value, r.clock, d, n - 1);
      var last := [r.body.value[n - 1].Stamped(r.org.value)];
      HasIdGrows(Check(shards, r.body.value[..n - 1], r.org.value, r.clock, d).kept, last, id);
    }
  }

  // A request that is refused or all duplicates, and a flush, buffer nothing.
  lemma NothingBuffered(cfg: Config, ops: seq<Op>, op: Op)
    requires op.Post? ==>
               || !Handle(cfg, StateAfter(cfg, ops), op.r).1.Accepted?
               || KeptOf(cfg, StateAfter(cfg, ops), op.r) == []
    ensures Buffered(cfg, ops + [op]) == Buffered(cfg, ops)
  {
    LastIsLast(ops, op);
  }

  lemma FillBuffersOwn(cfg: Config, fill: Request, id: Dedup.Key)
    requires fill.org.Some? && fill.body.Some? && !HasId(fill.body.value, id)
    ensures !HasId(Buffered(cfg, [Post(fill)]), id)
  {
    assert [Post(fill)][..0] == [] && Buffered(cfg, []) == [];
    assert fill.body.value[..|fill.body.value|] == fill.body.value;
    KeptAreSent(StateAfter(cfg, []).shards, fill, |fill.body.value|, cfg.dedup, id);
  }

  // `Resend.OneEventCanBeLost` for the client's own request.
  lemma RefusedThenDuplicate(sys: System, fillers: seq<Event>, x: int)
    requires sys.org.Some? && sys.service.dedup.ttl > 0 && sys.wire(x).Validates()
    requires Fills(sys.service, fillers) && !HasId(fillers, sys.wire(x).requestId)
    ensures var cfg, r := sys.service, RequestOf(sys, [x], AT_ZERO);
            var before := [Post(AtOnce(sys.org.value, fillers))];
            var between := before + [Post(r)] + [FlushBuffer];
            && Handle(cfg, StateAfter(cfg, before), r).1 == BufferFull
            && Handle(cfg, StateAfter(cfg, between), r).1 == Accepted(0, 1)
            && !HasId(Buffered(cfg, between + [Post(r)]), sys.wire(x).requestId)
  {
    var cfg, fill, r := sys.service, AtOnce(sys.org.value, fillers), RequestOf(sys, [x], AT_ZERO);
    assert OnWire(sys, [x]) == [sys.wire(x)];
    OneEventCanBeLost(cfg, fillers, sys.org.value, sys.wire(x));
    FillBuffersOwn(cfg, fill, sys.wire(x).requestId);
    NothingBuffered(cfg, [Post(fill)], Post(r));
    NothingBuffered(cfg, [Post(fill)] + [Post(r)], FlushBuffer);
    DuplicatesBufferNothing(cfg, [Post(fill)] + [Post(r)] + [FlushBuffer], r);
  }

  lemma {:induction false} DuplicatesBufferNothing(cfg: Config, ops: seq<Op>, r: Request)
    requires var (s', answer) := Handle(cfg, StateAfter(cfg, ops), r);
             answer.Accepted? && answer.accepted == 0
    ensures Buffered(cfg, ops + [Post(r)]) == Buffered(cfg, ops)
  {
    assert KeptOf(cfg, StateAfter(cfg, ops), r) == [];
    NothingBuffered(cfg, ops, Post(r));
  }

  /** The joint run of `Resend.OneEventCanBeLost`: the client ends with its one event
      delivered, nothing dropped and a flush that answers true, and no event with its
      id was ever in the service's buffer. */
  lemma DeliveredAndLost(sys: System, fillers: seq<Event>, x: int) returns (moves: seq<Move>)
    requires sys.client.maxQueue >= 1 && sys.client.batchSize >= 1 && sys.client.maxRetries >= 2
    requires sys.org.Some? && sys.service.dedup.ttl > 0 && sys.wire(x).Validates()
    requires Fills(sys.service, fillers) && !HasId(fillers, sys.wire(x).requestId)
    ensures IsRun(sys, moves)
    ensures var j := RunOf(sys, moves);
            && j.client.settled == [Shipping.Record([x], [Some(429), Some(202)], Shipping.Delivered)]
            && j.client.dropped == 0 && TsQueue.FlushReturnsTrue(j.client)
            && !HasId(Buffered(sys.service, j.ops), sys.wire(x).requestId)
  {
    var fill := AtOnce(sys.org.value, fillers);
    RefusedThenDuplicate(sys, fillers, x);
    moves := UpToFirstSend(sys, fill, x);
    moves := RefusedOnce(sys, moves, x);
    moves := AcceptedThen(sys, moves, x);
  }
}
