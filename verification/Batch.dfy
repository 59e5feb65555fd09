/** The ingest service's bounded event buffer, one method per critical section.

    The concurrent behaviour of these sections is the subject of
    IngestProtocol; here each is proved against the function of the old state
    that the protocol uses for the same step. */
module Batch {
  import opened Common
  import opened Events
  import RetryInsert

  // Durations are in nanoseconds.
  datatype Options = Options(
    maxEvents: int,
    maxInterval: int,
    capacity: int,
    retryAttempts: int,
    retryBackoff: int,
    flushTimeout: int)

  const MILLISECOND: int := 1_000_000

  ghost predicate Normal(o: Options) {
    && 1 <= o.maxEvents <= o.capacity
    && o.maxInterval > 0
    && o.retryAttempts >= 1
    && o.retryBackoff > 0
    && o.flushTimeout > 0
  }

  // The defaults and clamps that New applies.
  function Normalized(o: Options): (r: Options)
    ensures Normal(r)
    ensures Normal(o) ==> r == o
  {
    var maxEvents := if o.maxEvents <= 0 then 1000 else o.maxEvents;
    var capacity := if o.capacity <= 0 then maxEvents * 2 else o.capacity;
    Options(
      maxEvents,
      if o.maxInterval <= 0 then 2000 * MILLISECOND else o.maxInterval,
      if capacity < maxEvents then maxEvents else capacity,
      if o.retryAttempts <= 0 then 5 else o.retryAttempts,
      if o.retryBackoff <= 0 then 100 * MILLISECOND else o.retryBackoff,
      if o.flushTimeout <= 0 then 30_000 * MILLISECOND else o.flushTimeout)
  }

  /** What is set to something positive stays as it is, but a capacity below MaxEvents
      is raised to it; what is not gets its default. */
  lemma DefaultsAreFilledIn(o: Options)
    ensures var n := Normalized(o);
            && (o.maxEvents > 0 ==> n.maxEvents == o.maxEvents) && (o.maxEvents <= 0 ==> n.maxEvents == 1000)
            && (o.capacity > 0 ==>
                  (n.capacity == o.capacity || (o.capacity < n.maxEvents && n.capacity == n.maxEvents)))
            && (o.capacity <= 0 ==> n.capacity == n.maxEvents + n.maxEvents)
            && n.maxInterval == (if o.maxInterval > 0 then o.maxInterval else 2_000_000_000)
            && n.retryAttempts == (if o.retryAttempts > 0 then o.retryAttempts else 5)
            && n.retryBackoff == (if o.retryBackoff > 0 then o.retryBackoff else 100_000_000)
            && n.flushTimeout == (if o.flushTimeout > 0 then o.flushTimeout else 30_000_000_000)
  {
  }

  predicate Fits(opts: Options, buf: seq<Event>, events: seq<Event>) {
    |buf| + |events| <= opts.capacity
  }

  // The buffer after one call of Add: all of the events or none of them.
  function Appended(opts: Options, buf: seq<Event>, events: seq<Event>): seq<Event> {
    if Fits(opts, buf, events) then buf + events else buf
  }

  predicate ReachesMax(opts: Options, buf: seq<Event>, events: seq<Event>) {
    Fits(opts, buf, events) && |buf| + |events| >= opts.maxEvents
  }

  class Buffer {
    const opts: Options
    var buf: seq<Event>
    var flushReq: bool          // the one-slot channel holds a token
    var inserted: seq<Event>    // what the writer stored, in order
    var lost: seq<Event>        // what was dropped after its retries, in order
    var eventsInserted: nat     // the two metrics
    var eventsDropped: nat

    ghost predicate Valid()
      reads this
    {
      && Normal(opts)
      && |buf| <= opts.capacity
      && eventsInserted == |inserted|
      && eventsDropped == |lost|
    }

    constructor (o: Options)
      ensures Valid() && opts == Normalized(o)
      ensures buf == [] && !flushReq && inserted == [] && lost == []
    {
      opts := Normalized(o);
      buf, flushReq, inserted, lost := [], false, [], [];
      eventsInserted, eventsDropped := 0, 0;
    }

    // The part of Add that holds the lock.
    method Append(events: seq<Event>) returns (full: bool, reachedMax: bool)
      requires Valid() && events != []
      modifies this`buf
      ensures Valid()
      ensures buf == Appended(opts, old(buf), events)
      ensures full == !Fits(opts, old(buf), events)
      ensures reachedMax == ReachesMax(opts, old(buf), events)
    {
      if |buf| + |events| > opts.capacity {
        return true, false;
      }
      buf := buf + events;
      return false, |buf| >= opts.maxEvents;
    }

    method SignalFlush()
      requires Valid()
      modifies this`flushReq
      ensures Valid() && flushReq
    {
      if !flushReq {
        flushReq := true;
      }
    }

    /** All or nothing: either every event is at the end of the buffer, or
        nothing moved and the caller is told the buffer is full. */
    method Add(events: seq<Event>) returns (accepted: nat, full: bool)
      requires Valid()
      modifies this`buf, this`flushReq
      ensures Valid()
      ensures full <==> events != [] && |old(buf)| + |events| > opts.capacity
      ensures buf == if full then old(buf) else old(buf) + events
      ensures accepted == |buf| - |old(buf)|
      ensures flushReq <==> old(flushReq) || (!full && events != [] && |buf| >= opts.maxEvents)
    {
      if events == [] {
        return 0, false;
      }
      var isFull, reachedMax := Append(events);
      if isFull {
        return 0, true;
      }
      if reachedMax {
        SignalFlush();
      }
      return |events|, false;
    }

    method Swap() returns (out: seq<Event>)
      requires Valid()
      modifies this`buf
      ensures Valid()
      ensures buf == [] && out == old(buf)
    {
      out := buf;
      if |buf| != 0 {
        buf := [];
      }
    }

    /** The whole buffer leaves together, and every event of it ends up stored
        or lost, as the retry loop decided. */
    method Flush(o: RetryInsert.Oracle)
      requires Valid()
      modifies this
      ensures Valid()
      ensures buf == [] && flushReq == old(flushReq)
      ensures old(buf) == [] || RetryInsert.Stored(o, opts.retryAttempts)
        ==> inserted == old(inserted) + old(buf) && lost == old(lost)
      ensures old(buf) != [] && !RetryInsert.Stored(o, opts.retryAttempts)
        ==> inserted == old(inserted) && lost == old(lost) + old(buf)
    {
      var events := Swap();
      if |events| == 0 {
        return;
      }
      var result, calls, waits := RetryInsert.Run(o, opts.retryAttempts, opts.retryBackoff);
      if result.Err? {
        eventsDropped := eventsDropped + |events|;
        lost := lost + events;
        return;
      }
      eventsInserted := eventsInserted + |events|;
      inserted := inserted + events;
    }

    /** The drain that Shutdown runs once the flush loop has stopped, when
        nobody adds any more: the buffer ends up empty, and what it held is
        stored or lost by a single flush. */
    method Drain(o: RetryInsert.Oracle)
      requires Valid()
      modifies this
      ensures Valid()
      ensures buf == []
      ensures old(buf) == [] || RetryInsert.Stored(o, opts.retryAttempts)
        ==> inserted == old(inserted) + old(buf) && lost == old(lost)
      ensures old(buf) != [] && !RetryInsert.Stored(o, opts.retryAttempts)
        ==> inserted == old(inserted) && lost == old(lost) + old(buf)
    {
      while |buf| > 0
        invariant Valid()
        invariant buf == [] || (buf == old(buf) && inserted == old(inserted) && lost == old(lost))
        invariant buf == [] && (old(buf) == [] || RetryInsert.Stored(o, opts.retryAttempts))
          ==> inserted == old(inserted) + old(buf) && lost == old(lost)
        invariant buf == [] && old(buf) != [] && !RetryInsert.Stored(o, opts.retryAttempts)
          ==> inserted == old(inserted) && lost == old(lost) + old(buf)
        decreases |buf|
      {
        var before := |buf|;
        Flush(o);
        if |buf| >= before {
          break;
        }
      }
    }
  }
}
