/** The wire event, reduced to what the ingest service looks at. */
module Events {
  import opened Common

  // A zero timestamp is None; everything the service passes through unread
  // is in payload.
  datatype Event = Event(
    requestId: Bytes,
    ts: Option<int>,
    provider: Bytes,
    model: Bytes,
    operation: Bytes,
    status: Bytes,
    pricingVersion: Bytes,
    sdkLang: Bytes,
    sdkVersion: Bytes,
    orgId: Bytes,
    payload: int)
  {
    predicate Validates() {
      && requestId != []
      && ts.Some?
      && provider != []
      && model != []
      && operation != []
      && status != []
      && pricingVersion != []
      && sdkLang != []
      && sdkVersion != []
    }

    function Stamped(org: Bytes): Event {
      this.(orgId := org)
    }
  }

  /** An event is valid exactly if it has a timestamp and none of the eight required
      texts is empty; whatever else it carries is not looked at. */
  lemma RequiredFields(e: Event)
    ensures e.Validates() <==>
              && e.ts != None
              && [] !in {e.requestId, e.provider, e.model, e.operation,
                         e.status, e.pricingVersion, e.sdkLang, e.sdkVersion}
    ensures forall org, payload :: e.(orgId := org, payload := payload).Validates() <==> e.Validates()
  {
  }

  function StampAll(events: seq<Event>, org: Bytes): (r: seq<Event>)
    ensures |r| == |events|
    ensures forall i :: 0 <= i < |events| ==> r[i] == events[i].Stamped(org)
  {
    seq(|events|, i requires 0 <= i < |events| => events[i].Stamped(org))
  }
}
