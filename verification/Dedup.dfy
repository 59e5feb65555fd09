/** The ingest service's sharded TTL set of request ids.

    The set is modelled twice: as the sharded, lazily expiring maps that the
    service keeps, and as a plain history of calls with no shards and no
    eviction.  The lemmas show that nobody can tell the two apart. */
module Dedup {
  import opened Arith
  import opened Common

  type Key = Bytes
  type Shard = map<Key, int>

  const SHARD_COUNT: nat := 32

  // Exclusive or of two numbers of the given width in bits.
  function Xor(a: nat, b: nat, bits: nat): nat {
    if bits == 0 then 0
    else 2 * Xor(a / 2, b / 2, bits - 1) + (if a % 2 == b % 2 then 0 else 1)
  }

  // FNV-1a, 32 bit, with the multiplication wrapping as uint32 does.  A byte
  // only touches the low eight bits of the running hash.
  function Fnv1a(key: Key, h: nat): nat {
    if key == [] then h
    else
      var mixed := h / 256 * 256 + Xor(h % 256, key[0] as int, 8);
      Fnv1a(key[1..], mixed * 16777619 % 0x1_0000_0000)
  }

  const FNV: Key -> nat := key => Fnv1a(key, 2166136261)

  // Within the width, exclusive or undoes itself.
  lemma {:induction false} XorTwice(a: nat, b: nat, bits: nat)
    requires a < Pow2(bits) && b < Pow2(bits)
    ensures Xor(a, b, bits) < Pow2(bits) && Xor(Xor(a, b, bits), b, bits) == a
    ensures Xor(a, b, bits) == 0 <==> a == b
  {
    if bits > 0 {
      XorTwice(a / 2, b / 2, bits - 1);
      var x := Xor(a / 2, b / 2, bits - 1);
      assert Xor(a, b, bits) / 2 == x;
    }
  }

  /** The set's parameters.  The hash is a parameter so that the results below
      hold for every way of spreading the keys over the shards. */
  datatype Params = Params(hash: Key -> nat, ttl: int) {
    function ShardFor(key: Key): (i: nat)
      ensures i < SHARD_COUNT
    {
      hash(key) % SHARD_COUNT
    }
  }

  // Every entry sits in the shard its hash selects.
  ghost predicate WellSharded(shards: seq<Shard>, p: Params) {
    && |shards| == SHARD_COUNT
    && forall i, k :: 0 <= i < |shards| && k in shards[i] ==> p.ShardFor(k) == i
  }

  function EmptyShards(): (r: seq<Shard>)
    ensures |r| == SHARD_COUNT
    ensures forall i :: 0 <= i < SHARD_COUNT ==> r[i] == map[]
  {
    var none: Shard := map[];
    seq(SHARD_COUNT, _ => none)
  }

  predicate Live(shard: Shard, key: Key, now: int, p: Params) {
    key in shard && now - shard[key] < p.ttl
  }

  // One call of Seen: the shards it leaves, and its answer.
  function Ask(shards: seq<Shard>, key: Key, now: int, p: Params): (r: (seq<Shard>, bool))
    requires |shards| == SHARD_COUNT
    ensures |r.0| == SHARD_COUNT
  {
    var i := p.ShardFor(key);
    if key == [] then (shards, false)
    else if Live(shards[i], key, now, p) then (shards, true)
    else (shards[i := shards[i][key := now]], false)
  }

  function Fresh(shard: Shard, now: int, p: Params): Shard {
    map k | k in shard && now - shard[k] < p.ttl :: shard[k]
  }

  // One call of evict.
  function Swept(shards: seq<Shard>, now: int, p: Params): (r: seq<Shard>)
    ensures |r| == |shards|
    ensures forall i :: 0 <= i < |shards| ==> r[i] == Fresh(shards[i], now, p)
  {
    seq(|shards|, i requires 0 <= i < |shards| => Fresh(shards[i], now, p))
  }

  // ---------------------------------------------------------------- histories

  datatype Call = Asked(key: Key, now: int) | Sweep(now: int)

  function Next(shards: seq<Shard>, c: Call, p: Params): (r: seq<Shard>)
    requires |shards| == SHARD_COUNT
    ensures |r| == SHARD_COUNT
  {
    match c
    case Asked(key, now) => Ask(shards, key, now, p).0
    case Sweep(now) => Swept(shards, now, p)
  }

  // The sharded set after a history of calls.
  ghost function After(calls: seq<Call>, p: Params): (r: seq<Shard>)
    ensures |r| == SHARD_COUNT
  {
    if calls == [] then EmptyShards()
    else Next(After(calls[..|calls| - 1], p), calls[|calls| - 1], p)
  }

  lemma AfterOneMore(calls: seq<Call>, c: Call, p: Params)
    ensures After(calls + [c], p) == Next(After(calls, p), c, p)
  {
  }

  // What the service answered to the i-th call.
  ghost predicate Answer(calls: seq<Call>, i: nat, p: Params)
    requires i < |calls| && calls[i].Asked?
  {
    Ask(After(calls[..i], p), calls[i].key, calls[i].now, p).1
  }

  // The plain history: when was the key last recorded?  Neither shards nor
  // sweeps play any part in it.
  ghost function LatestRecording(calls: seq<Call>, key: Key, p: Params): Option<int> {
    if calls == [] then None
    else
      var before := LatestRecording(calls[..|calls| - 1], key, p);
      var c := calls[|calls| - 1];
      if c.Asked? && c.key == key && !Within(before, c.now, p) then Some(c.now) else before
  }

  predicate Within(recorded: Option<int>, now: int, p: Params) {
    recorded.Some? && now - recorded.value < p.ttl
  }

  // No question is asked at a time before a sweep that ran earlier.
  ghost predicate NotBeforeSweeps(calls: seq<Call>, now: int) {
    forall i :: 0 <= i < |calls| && calls[i].Sweep? ==> calls[i].now <= now
  }

  ghost predicate ClockKept(calls: seq<Call>) {
    forall j :: 0 <= j < |calls| && calls[j].Asked? ==> NotBeforeSweeps(calls[..j], calls[j].now)
  }

  ghost predicate Nondecreasing(calls: seq<Call>) {
    forall i, j :: 0 <= i < j < |calls| ==> calls[i].now <= calls[j].now
  }

  lemma NondecreasingKeepsClock(calls: seq<Call>)
    requires Nondecreasing(calls)
    ensures ClockKept(calls)
  {
  }

  lemma ClockKeptPrefix(calls: seq<Call>, n: nat)
    requires ClockKept(calls) && n <= |calls|
    ensures ClockKept(calls[..n])
  {
    forall j | 0 <= j < n && calls[..n][j].Asked?
      ensures NotBeforeSweeps(calls[..n][..j], calls[..n][j].now)
    {
      assert calls[..n][..j] == calls[..j];
      assert calls[..n][j] == calls[j];
    }
  }

  // The set agrees with the plain history on a key, except that a sweep may
  // have removed a recording that had already expired when it ran.
  ghost predicate Agrees(calls: seq<Call>, key: Key, p: Params) {
    var shard := After(calls, p)[p.ShardFor(key)];
    var last := LatestRecording(calls, key, p);
    if key in shard then last == Some(shard[key])
    else last.Some? ==> ExpiredAtSweep(calls, last.value, p)
  }

  ghost predicate ExpiredAtSweep(calls: seq<Call>, recorded: int, p: Params) {
    exists i :: 0 <= i < |calls| && calls[i].Sweep? && calls[i].now - recorded >= p.ttl
  }

  lemma {:induction false} AfterWellSharded(calls: seq<Call>, p: Params)
    ensures WellSharded(After(calls, p), p)
  {
    if calls != [] {
      AfterWellSharded(calls[..|calls| - 1], p);
    }
  }

  lemma {:induction false} SetAgreesWithHistory(calls: seq<Call>, key: Key, p: Params)
    requires ClockKept(calls) && key != []
    ensures Agrees(calls, key, p)
  {
    if calls != [] {
      var n := |calls| - 1;
      var before := calls[..n];
      ClockKeptPrefix(calls, n);
      SetAgreesWithHistory(before, key, p);
      var shard := After(before, p)[p.ShardFor(key)];
      var last := LatestRecording(before, key, p);
      if key !in shard && last.Some? {
        var i :| 0 <= i < n && before[i].Sweep? && before[i].now - last.value >= p.ttl;
        assert calls[i] == before[i];
      }
      if calls[n].Asked? {
        assert NotBeforeSweeps(before, calls[n].now);
      } else {
        assert calls[n].Sweep?;
      }
    }
  }

  /** Seen answers true exactly when the latest recording of the key is less
      than ttl old, whatever the shards and the sweeps. */
  lemma SeenRefinesHistory(calls: seq<Call>, key: Key, now: int, p: Params)
    requires ClockKept(calls) && NotBeforeSweeps(calls, now)
    ensures Ask(After(calls, p), key, now, p).1
        <==> key != [] && Within(LatestRecording(calls, key, p), now, p)
  {
    if key != [] {
      SetAgreesWithHistory(calls, key, p);
    }
  }

  // The same for a clock that never goes back, the next question included.
  lemma SeenInOrder(calls: seq<Call>, key: Key, now: int, p: Params)
    requires Nondecreasing(calls + [Asked(key, now)])
    ensures Ask(After(calls, p), key, now, p).1
        <==> key != [] && Within(LatestRecording(calls, key, p), now, p)
  {
    var all := calls + [Asked(key, now)];
    forall i, j | 0 <= i < j < |calls|
      ensures calls[i].now <= calls[j].now
    {
      assert all[i] == calls[i] && all[j] == calls[j];
    }
    NondecreasingKeepsClock(calls);
    forall i | 0 <= i < |calls|
      ensures calls[i].now <= now
    {
      assert all[i] == calls[i] && all[|calls|] == Asked(key, now);
    }
    SeenRefinesHistory(calls, key, now, p);
  }

  lemma NondecreasingPrefix(calls: seq<Call>, n: nat)
    requires Nondecreasing(calls) && n <= |calls|
    ensures Nondecreasing(calls[..n])
  {
  }

  // Has a sweep removed the latest recording since it was made?
  ghost predicate Forgotten(calls: seq<Call>, key: Key, p: Params) {
    calls != [] && (
      var n := |calls| - 1;
      var last := LatestRecording(calls[..n], key, p);
      match calls[n]
      case Asked(k, now) => Forgotten(calls[..n], key, p) && !(k == key && !Within(last, now, p))
      case Sweep(now) => Forgotten(calls[..n], key, p) || (last.Some? && now - last.value >= p.ttl))
  }

  // All questions about the key so far were answered as the history would.
  ghost predicate AnsweredRight(calls: seq<Call>, key: Key, p: Params) {
    calls == [] || (
      var n := |calls| - 1;
      && AnsweredRight(calls[..n], key, p)
      && (calls[n] == Asked(key, calls[n].now) ==>
            (Answer(calls, n, p) <==> Within(LatestRecording(calls[..n], key, p), calls[n].now, p))))
  }

  // No question about the key met a recording that was fresh but forgotten.
  ghost predicate NeverMissed(calls: seq<Call>, key: Key, p: Params) {
    calls == [] || (
      var n := |calls| - 1;
      && NeverMissed(calls[..n], key, p)
      && (calls[n] == Asked(key, calls[n].now) ==>
            !(Forgotten(calls[..n], key, p) && Within(LatestRecording(calls[..n], key, p), calls[n].now, p))))
  }

  // The shard holds the latest recording, unless it has been forgotten.
  ghost predicate Holds(calls: seq<Call>, key: Key, p: Params) {
    var shard := After(calls, p)[p.ShardFor(key)];
    var last := LatestRecording(calls, key, p);
    && (key in shard <==> last.Some? && !Forgotten(calls, key, p))
    && (key in shard ==> last == Some(shard[key]))
  }

  lemma CallKeepsHolds(calls: seq<Call>, c: Call, key: Key, p: Params)
    requires key != [] && Holds(calls, key, p)
    requires c == Asked(key, c.now) ==> !(Forgotten(calls, key, p) && Within(LatestRecording(calls, key, p), c.now, p))
    ensures Holds(calls + [c], key, p)
  {
    LastIsLast(calls, c);
  }

  /** For any clock whatever: every question about a key was answered as the plain
      history would if and only if none met a recording that was still fresh but
      had been swept, by a sweep that read a later clock. */
  lemma {:induction false} AnsweredRightExactly(calls: seq<Call>, key: Key, p: Params)
    requires key != []
    ensures AnsweredRight(calls, key, p) <==> NeverMissed(calls, key, p)
    ensures NeverMissed(calls, key, p) ==> Holds(calls, key, p)
  {
    if calls != [] {
      var n := |calls| - 1;
      AnsweredRightExactly(calls[..n], key, p);
      if NeverMissed(calls, key, p) {
        CallKeepsHolds(calls[..n], calls[n], key, p);
        assert calls[..n] + [calls[n]] == calls;
      }
    }
  }

  /** Such a question can be met: the swept recording is forgotten although it is
      still fresh. */
  lemma SweepAheadOfClockIsObservable(key: Key, p: Params)
    requires key != [] && p.ttl > 0
    ensures var calls := [Asked(key, 0), Sweep(p.ttl)];
            && Within(LatestRecording(calls, key, p), 0, p)
            && !Ask(After(calls, p), key, 0, p).1
  {
    var calls := [Asked(key, 0), Sweep(p.ttl)];
    assert calls[..1] == [Asked(key, 0)];
    assert calls[..1][..0] == [];
    assert After(calls[..1], p) == Ask(EmptyShards(), key, 0, p).0;
    assert LatestRecording(calls[..1], key, p) == Some(0);
  }

  // Once a key has been recorded, its latest recording never moves back.
  lemma {:induction false} RecordingMovesForward(calls: seq<Call>, i: nat, j: nat, p: Params)
    requires i < j <= |calls| && Nondecreasing(calls)
    requires calls[i].Asked? && !Within(LatestRecording(calls[..i], calls[i].key, p), calls[i].now, p)
    ensures var last := LatestRecording(calls[..j], calls[i].key, p);
            last.Some? && calls[i].now <= last.value
  {
    assert calls[..j][..j - 1] == calls[..j - 1];
    if i + 1 < j {
      RecordingMovesForward(calls, i, j - 1, p);
    }
  }

  // What is fresh at a time was fresh at every time before, so it is not
  // recorded anew.
  lemma {:induction false} FreshStaysFresh(calls: seq<Call>, more: seq<Call>, key: Key, now: int, p: Params)
    requires forall i :: 0 <= i < |more| ==> more[i].now <= now
    requires Within(LatestRecording(calls, key, p), now, p)
    ensures LatestRecording(calls + more, key, p) == LatestRecording(calls, key, p)
  {
    if more == [] {
      assert calls + more == calls;
    } else {
      var n := |more| - 1;
      FreshStaysFresh(calls, more[..n], key, now, p);
      assert (calls + more)[..|calls| + n] == calls + more[..n];
    }
  }

  // A key recorded at some point of a history is still fresh less than ttl
  // later, whatever happened in between.
  lemma RecordingOutlives(before: seq<Call>, key: Key, at: int, rest: seq<Call>, now: int, p: Params)
    requires Nondecreasing(before + [Asked(key, at)] + rest)
    requires !Within(LatestRecording(before, key, p), at, p)
    requires now - at < p.ttl
    ensures Within(LatestRecording(before + [Asked(key, at)] + rest, key, p), now, p)
  {
    var calls := before + [Asked(key, at)] + rest;
    assert calls[..|before|] == before;
    assert calls[..|calls|] == calls;
    RecordingMovesForward(calls, |before|, |calls|, p);
  }

  /** Two calls that both let the same non-empty key through are at least ttl
      apart. */
  lemma LetThroughAtLeastTtlApart(calls: seq<Call>, i: nat, j: nat, p: Params)
    requires i < j < |calls| && Nondecreasing(calls)
    requires calls[i].Asked? && calls[j].Asked? && calls[i].key == calls[j].key != []
    requires !Answer(calls, i, p) && !Answer(calls, j, p)
    ensures calls[j].now - calls[i].now >= p.ttl
  {
    NondecreasingKeepsClock(calls);
    ClockKeptPrefix(calls, i);
    ClockKeptPrefix(calls, j);
    SeenRefinesHistory(calls[..i], calls[i].key, calls[i].now, p);
    SeenRefinesHistory(calls[..j], calls[j].key, calls[j].now, p);
    RecordingMovesForward(calls, i, j, p);
  }

  // The i-th call asks about the key and is let through.
  ghost predicate LetThroughAt(calls: seq<Call>, i: nat, key: Key, p: Params)
    requires i < |calls|
  {
    calls[i] == Asked(key, calls[i].now) && !Answer(calls, i, p)
  }

  ghost function LetThrough(calls: seq<Call>, key: Key, p: Params): nat {
    if calls == [] then 0
    else LetThrough(calls[..|calls| - 1], key, p) + if LetThroughAt(calls, |calls| - 1, key, p) then 1 else 0
  }

  lemma LetThroughOneMore(calls: seq<Call>, c: Call, key: Key, p: Params)
    ensures LetThrough(calls + [c], key, p)
         == LetThrough(calls, key, p)
          + if c == Asked(key, c.now) && !Ask(After(calls, p), key, c.now, p).1 then 1 else 0
  {
    LastIsLast(calls, c);
  }

  /** A key that is let through n times takes n - 1 times ttl for it. */
  lemma {:induction false} LetThroughTakesTime(calls: seq<Call>, key: Key, p: Params) returns (a: nat, b: nat)
    requires Nondecreasing(calls) && key != [] && LetThrough(calls, key, p) >= 1
    ensures a <= b < |calls| && LetThroughAt(calls, a, key, p) && LetThroughAt(calls, b, key, p)
    ensures (LetThrough(calls, key, p) - 1) * p.ttl <= calls[b].now - calls[a].now
  {
    var n := |calls| - 1;
    var init := calls[..n];
    if LetThrough(init, key, p) == 0 {
      return n, n;
    }
    a, b := LetThroughTakesTime(init, key, p);
    assert init[..a] == calls[..a] && init[..b] == calls[..b];
    if LetThroughAt(calls, n, key, p) {
      LetThroughAtLeastTtlApart(calls, b, n, p);
      OneMoreTtl(LetThrough(init, key, p), p.ttl);
      b := n;
    }
  }

  lemma SomeLetThroughTakeTime(calls: seq<Call>, n: nat, key: Key, p: Params)
      returns (a: nat, b: nat)
    requires Nondecreasing(calls) && key != [] && 1 <= n <= LetThrough(calls, key, p)
    ensures a <= b < |calls| && LetThroughAt(calls, a, key, p) && LetThroughAt(calls, b, key, p)
    ensures (n - 1) * p.ttl <= calls[b].now - calls[a].now
  {
    a, b := LetThroughTakesTime(calls, key, p);
    FewerTakeLess(n - 1, LetThrough(calls, key, p) - 1, p.ttl, calls[b].now - calls[a].now);
  }

  lemma FewerTakeLess(m: nat, n: nat, ttl: int, time: nat)
    requires m <= n && n * ttl <= time
    ensures m * ttl <= time
  {
    if ttl > 0 {
      assert (n - m) * ttl >= 0;
    } else {
      assert m * ttl <= 0;
    }
  }

  lemma OneMoreTtl(n: nat, ttl: int)
    ensures n * ttl == (n - 1) * ttl + ttl
  {
  }

  // -------------------------------------------------------------------- class

  /** The set itself.  Each method is one locked section (Seen) or one sweep;
      the clock reading is its argument. */
  class Set {
    const p: Params
    const shards: array<Shard>

    ghost predicate Valid()
      reads this, shards
    {
      WellSharded(shards[..], p)
    }

    constructor (ttl: int)
      ensures Valid() && fresh(shards) && p == Params(FNV, ttl)
      ensures shards[..] == EmptyShards() == After([], p)
    {
      p := Params(FNV, ttl);
      shards := new Shard[SHARD_COUNT](_ => map[]);
      new;
      assert shards[..] == EmptyShards();
    }

    method Seen(key: Key, now: int) returns (dup: bool)
      requires Valid()
      modifies shards
      ensures Valid()
      ensures (shards[..], dup) == Ask(old(shards[..]), key, now, p)
    {
      if key == [] {
        return false;
      }
      var i := p.ShardFor(key);
      if key in shards[i] && now - shards[i][key] < p.ttl {
        return true;
      }
      shards[i] := shards[i][key := now];
      return false;
    }

    method Evict(now: int)
      requires Valid()
      modifies shards
      ensures Valid()
      ensures shards[..] == Swept(old(shards[..]), now, p)
    {
      var i := 0;
      while i < shards.Length
        invariant 0 <= i <= shards.Length
        invariant forall k :: 0 <= k < i ==> shards[k] == Fresh(old(shards[..])[k], now, p)
        invariant forall k :: i <= k < shards.Length ==> shards[k] == old(shards[..])[k]
      {
        var kept := SweepShard(shards[i], now);
        shards[i] := kept;
        i := i + 1;
      }
    }

    // The deletion loop over one shard, in whatever order the map yields keys.
    method SweepShard(shard: Shard, now: int) returns (kept: Shard)
      ensures kept == Fresh(shard, now, p)
    {
      kept := shard;
      var todo := shard.Keys;
      while todo != {}
        invariant todo <= shard.Keys
        invariant kept == map k | k in shard && (k in todo || now - shard[k] < p.ttl) :: shard[k]
        decreases |todo|
      {
        var k :| k in todo;
        if now - shard[k] >= p.ttl {
          kept := kept - {k};
        }
        todo := todo - {k};
      }
    }
  }
}
