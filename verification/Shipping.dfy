/** Shipping one batch: the retry loop that the three SDKs share.

    The sender is an oracle that answers each send with an HTTP status, or None
    for a transport error. */
module Shipping {
  import opened Arith
  import opened Common

  type Status = Option<int>

  datatype Verdict =
    | Delivered          // 202
    | AuthFailed         // 401, the batch is dropped without being counted
    | Rejected           // any other status, likewise
    | Exhausted          // every attempt was answered 429 or not at all; counted as dropped
    | Unsendable         // Go only: the batch could not be encoded

  predicate Retryable(status: Status) {
    status == None || status == Some(429)
  }

  function Final(status: Status): Verdict
    requires !Retryable(status)
  {
    if status == Some(202) then Delivered
    else if status == Some(401) then AuthFailed
    else Rejected
  }

  function Times(attempts: int): nat {
    if attempts < 0 then 0 else attempts
  }

  // The statuses so far leave the loop running.
  ghost predicate Underway(statuses: seq<Status>, attempts: int) {
    && |statuses| <= Times(attempts)
    && forall i :: 0 <= i < |statuses| ==> Retryable(statuses[i])
  }

  // The answers received explain the verdict, and there were no more sends
  // than allowed.
  ghost predicate Explains(statuses: seq<Status>, verdict: Verdict, attempts: int) {
    match verdict
    case Exhausted => Underway(statuses, attempts) && |statuses| == Times(attempts)
    case Unsendable => statuses == []
    case _ =>
      && 0 < |statuses| <= Times(attempts)
      && Underway(statuses[..|statuses| - 1], attempts)
      && !Retryable(statuses[|statuses| - 1])
      && verdict == Final(statuses[|statuses| - 1])
  }

  lemma FinalExplains(before: seq<Status>, status: Status, attempts: int)
    requires Underway(before, attempts) && |before| < attempts && !Retryable(status)
    ensures Explains(before + [status], Final(status), attempts)
  {
  }

  // Events are opaque to a queue; a number stands for one.
  type Event = int

  // A batch that left a queue, the answers it got, and what became of it.
  datatype Record = Record(batch: seq<Event>, statuses: seq<Status>, verdict: Verdict)

  function Batches(rs: seq<Record>): seq<Event> {
    if rs == [] then [] else Batches(rs[..|rs| - 1]) + rs[|rs| - 1].batch
  }

  function ExhaustedEvents(rs: seq<Record>): nat {
    if rs == [] then 0
    else
      var r := rs[|rs| - 1];
      ExhaustedEvents(rs[..|rs| - 1]) + if r.verdict == Exhausted then |r.batch| else 0
  }

  function Least(a: int, b: int): int {
    if a < b then a else b
  }

  // Milliseconds to wait after the given answer to the given attempt, in the
  // TypeScript and Python SDKs.
  function Backoff(status: Status, attempt: nat): int {
    if status == Some(429) then Least(Pow2(attempt) * 250, 5000) else Least(Pow2(attempt) * 100, 2000)
  }

  // The same in the Go SDK, where the kind of failure makes no difference.
  function GoBackoff(attempt: nat): int {
    Least(Pow2(attempt) * 100, 2000)
  }

  lemma GoBackoffDoubles(attempt: nat)
    ensures GoBackoff(attempt + 1) == Least(GoBackoff(attempt) * 2, 2000)
  {
  }

  // Twice as long, up to the longest.
  function Doubled(wait: int, longest: int): int {
    if wait + wait > longest then longest else wait + wait
  }

  /** The pauses: a quarter of a second after a first 429, a tenth after a first failure
      to get an answer, doubled for each further attempt up to five and two seconds.
      Go's are the latter, whatever the answer. */
  lemma PausesDouble(attempt: nat)
    ensures Backoff(Some(429), 0) == 250 && Backoff(None, 0) == 100 == GoBackoff(0)
    ensures Backoff(Some(429), attempt + 1) == Doubled(Backoff(Some(429), attempt), 5000)
    ensures Backoff(None, attempt + 1) == Doubled(Backoff(None, attempt), 2000)
    ensures GoBackoff(attempt) == Backoff(None, attempt)
  {
  }

  /** The loop as the TypeScript and Python SDKs write it, on a non-empty
      batch. */
  method Ship(reply: nat -> Status, attempts: int) returns (verdict: Verdict, statuses: seq<Status>, waits: seq<int>)
    ensures verdict != Unsendable && Explains(statuses, verdict, attempts)
    ensures forall i :: 0 <= i < |statuses| ==> statuses[i] == reply(i)
    ensures |waits| == if verdict == Exhausted then |statuses| else |statuses| - 1
    ensures forall i :: 0 <= i < |waits| ==> waits[i] == Backoff(statuses[i], i)
  {
    statuses, waits := [], [];
    var attempt := 0;
    while attempt < attempts
      invariant 0 <= attempt <= Times(attempts)
      invariant |statuses| == |waits| == attempt && Underway(statuses, attempts)
      invariant forall i :: 0 <= i < attempt ==> waits[i] == Backoff(statuses[i], i)
      invariant forall i :: 0 <= i < attempt ==> statuses[i] == reply(i)
    {
      var status := reply(attempt);
      if !Retryable(status) {
        FinalExplains(statuses, status, attempts);
        return Final(status), statuses + [status], waits;
      }
      statuses := statuses + [status];
      waits := waits + [Backoff(status, attempt)];
      attempt := attempt + 1;
    }
    verdict := Exhausted;
  }

  /** The loop as the Go SDK writes it: the same sends and the same verdict for
      the same answers. */
  method ShipGo(encodes: bool, reply: nat -> Status, attempts: int) returns (verdict: Verdict, statuses: seq<Status>,
        waits: seq<int>)
    ensures Explains(statuses, verdict, attempts) && (verdict == Unsendable <==> !encodes)
    ensures forall i :: 0 <= i < |statuses| ==> statuses[i] == reply(i)
    ensures |waits| == if verdict == Exhausted || verdict == Unsendable then |statuses| else |statuses| - 1
    ensures forall i :: 0 <= i < |waits| ==> waits[i] == GoBackoff(i)
  {
    statuses, waits := [], [];
    if !encodes {
      return Unsendable, statuses, waits;
    }
    var backoff := 100;
    var attempt := 0;
    while attempt < attempts
      invariant 0 <= attempt <= Times(attempts)
      invariant |statuses| == |waits| == attempt && Underway(statuses, attempts)
      invariant backoff == GoBackoff(attempt)
      invariant forall i :: 0 <= i < attempt ==> waits[i] == GoBackoff(i)
      invariant forall i :: 0 <= i < attempt ==> statuses[i] == reply(i)
    {
      var status := reply(attempt);
      if !Retryable(status) {
        FinalExplains(statuses, status, attempts);
      }
      statuses := statuses + [status];
      if status.Some? {
        if status.value == 202 {
          return Delivered, statuses, waits;
        } else if status.value == 401 {
          return AuthFailed, statuses, waits;
        } else if status.value != 429 {
          return Rejected, statuses, waits;
        }
      }
      waits := waits + [backoff];
      GoBackoffDoubles(attempt);
      backoff := backoff * 2;
      if backoff > 2000 {
        backoff := 2000;
      }
      attempt := attempt + 1;
    }
    verdict := Exhausted;
  }

  /** The sender's answers determine everything: two loops that ship the same
      batch and get the same answers, whichever SDK they belong to, make the
      same sends and reach the same verdict. */
  lemma ShippingIsDetermined(
    reply: nat -> Status, s1: seq<Status>, v1: Verdict, s2: seq<Status>, v2: Verdict, attempts: int)
    requires Explains(s1, v1, attempts) && Explains(s2, v2, attempts)
    requires v1 != Unsendable && v2 != Unsendable
    requires forall i :: 0 <= i < |s1| ==> s1[i] == reply(i)
    requires forall i :: 0 <= i < |s2| ==> s2[i] == reply(i)
    ensures s1 == s2 && v1 == v2
  {
  }

  /** What a verdict says about the answers: a batch is delivered, or not authorised, or
      rejected, as the last answer is 202, 401, or anything else that is not retried;
      it is given up if every attempt there may be was answered 429 or not at all. */
  lemma VerdictIsLastAnswer(statuses: seq<Status>, verdict: Verdict, attempts: int)
    requires Explains(statuses, verdict, attempts) && verdict != Unsendable
    ensures verdict == Delivered <==> statuses != [] && statuses[|statuses| - 1] == Some(202)
    ensures verdict == AuthFailed <==> statuses != [] && statuses[|statuses| - 1] == Some(401)
    ensures verdict == Exhausted <==>
              && |statuses| == (if attempts < 0 then 0 else attempts)
              && forall i :: 0 <= i < |statuses| ==> statuses[i] == None || statuses[i] == Some(429)
    ensures forall i :: 0 <= i < |statuses| - 1 ==> statuses[i] == None || statuses[i] == Some(429)
  {
    if statuses != [] {
      assert statuses[|statuses| - 1] == statuses[..][|statuses| - 1];
    }
  }
}
