/** chwriter.RetryInsert: bounded attempts with doubling, capped waits. */
module RetryInsert {
  import opened Arith
  import opened Common

  const MAX_BACKOFF: int := 5_000_000_000

  // The writer and the context are oracles: writes(i) says whether the i-th
  // insert succeeds, cancelled(i) whether the context ends during the wait
  // that follows it.
  datatype Oracle = Oracle(writes: nat -> bool, cancelled: nat -> bool)

  datatype Failure = InsertFailed(attempt: nat) | Cancelled

  // The i-th wait: the configured base first, uncapped; capped after that.
  function Wait(base: int, i: nat): int {
    if i == 0 then base
    else if base * Pow2(i) > MAX_BACKOFF then MAX_BACKOFF
    else base * Pow2(i)
  }

  lemma DoublingReachesWait(base: int, i: nat)
    ensures var next := Wait(base, i) * 2;
            Wait(base, i + 1) == if next > MAX_BACKOFF then MAX_BACKOFF else next
  {
  }

  // Attempt i is made and the loop goes on past it.
  predicate GoesOn(o: Oracle, attempts: int, i: nat) {
    !o.writes(i) && i < attempts - 1 && !o.cancelled(i)
  }

  // The calls the loop makes, as a function of the oracle.
  function Calls(o: Oracle, attempts: int, from: nat): (n: nat)
    requires from < attempts
    ensures from < n <= attempts
    ensures forall i :: from <= i < n - 1 ==> GoesOn(o, attempts, i)
    ensures !GoesOn(o, attempts, n - 1)
    decreases attempts - from
  {
    if GoesOn(o, attempts, from) then Calls(o, attempts, from + 1) else from + 1
  }

  predicate Stored(o: Oracle, attempts: int) {
    attempts <= 0 || o.writes(Calls(o, attempts, 0) - 1)
  }

  /** calls counts the inserts made, waits the pauses between them.  With no
      attempts at all the source returns nil, so the batch passes for stored
      although the writer was never called. */
  method Run(o: Oracle, attempts: int, base: int)
    returns (result: Result<(), Failure>, calls: nat, waits: seq<int>)
    ensures calls <= (if attempts < 0 then 0 else attempts)
    ensures attempts > 0 ==> calls > 0
    ensures forall i :: 0 <= i < calls - 1 ==> GoesOn(o, attempts, i)
    ensures calls > 0 ==> !GoesOn(o, attempts, calls - 1)
    ensures attempts > 0 ==> calls == Calls(o, attempts, 0)
    ensures result.Ok? <==> Stored(o, attempts)
    ensures result.Ok? <==> attempts <= 0 || o.writes(calls - 1)
    ensures result == Err(Cancelled) <==>
              calls > 0 && !o.writes(calls - 1) && calls < attempts && o.cancelled(calls - 1)
    ensures result.Err? && result.error.InsertFailed? ==>
              result.error.attempt == calls - 1 && calls == attempts
    ensures |waits| == (if result == Err(Cancelled) then calls else if calls == 0 then 0 else calls - 1)
    ensures forall i :: 0 <= i < |waits| ==> waits[i] == Wait(base, i)
  {
    result, calls, waits := Ok(()), 0, [];
    var backoff := base;
    var i := 0;
    while i < attempts
      invariant 0 <= i && (attempts > 0 ==> i <= attempts)
      invariant calls == i == |waits|
      invariant i < attempts || i == 0
      invariant i < attempts ==> Calls(o, attempts, 0) == Calls(o, attempts, i)
      invariant backoff == Wait(base, i)
      invariant i > 0 ==> result.Err?
      invariant i == 0 ==> result == Ok(())
      invariant forall k :: 0 <= k < i ==> GoesOn(o, attempts, k)
      invariant forall k :: 0 <= k < i ==> waits[k] == Wait(base, k)
    {
      calls := calls + 1;
      if o.writes(i) {
        result := Ok(());
        return;
      }
      result := Err(InsertFailed(i));
      if i == attempts - 1 {
        break;
      }
      waits := waits + [backoff];
      if o.cancelled(i) {
        result := Err(Cancelled);
        return;
      }
      DoublingReachesWait(base, i);
      backoff := backoff * 2;
      if backoff > MAX_BACKOFF {
        backoff := MAX_BACKOFF;
      }
      i := i + 1;
    }
  }

  /** With at least one attempt a batch is stored exactly when some insert
      within the limit succeeds before the context ends. */
  lemma StoredMeansAnInsertSucceeded(o: Oracle, attempts: int)
    requires attempts > 0
    ensures Stored(o, attempts) <==>
              exists k: nat :: k < attempts && o.writes(k)
                && forall j: nat :: j < k ==> !o.cancelled(j)
  {
    var n := Calls(o, attempts, 0);
    if Stored(o, attempts) {
      // The attempts before the successful one went on.
      forall j: nat | j < n - 1
        ensures !o.cancelled(j)
      {
        assert GoesOn(o, attempts, j);
      }
    } else {
      forall k: nat | k < attempts && o.writes(k)
        ensures exists j: nat :: j < k && o.cancelled(j)
      {
        assert k < n - 1 ==> GoesOn(o, attempts, k);
        assert n - 1 < k && o.cancelled(n - 1);
      }
    }
  }
}
