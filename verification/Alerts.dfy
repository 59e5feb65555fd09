/** alertd's evaluation loop: rules are loaded afresh in every cycle, a rule in
    cooldown is skipped, and a fire is recorded for the next cycle to see. */
module Alerts {
  import opened Common

  // The store keeps microseconds, the clock counts nanoseconds.
  const MICROSECOND: nat := 1000

  function Stored(t: int): (s: int)
    ensures s <= t < s + MICROSECOND
  {
    t / MICROSECOND * MICROSECOND
  }

  // What evaluating a rule comes to; marked says whether a fire could be recorded.
  datatype Attempt =
    | InvalidConfig
    | EvaluationFailed
    | Quiet
    | Breached(marked: bool)

  // A row of alert_rules.  Its scope and its config are JSON, which need not be of
  // the shape that the program decodes them into.
  datatype Row = Row(id: int, enabled: bool, cooldown: int, scopeDecodes: bool, configDecodes: bool, attempt: Attempt)

  // A row of alert_targets, and whether it would take an alert.
  datatype Target = Target(rule: int, decodes: bool, takes: bool)

  // One tick: the clock may show anything, and either of the two queries may fail.
  datatype Tick = Tick(now: int, rows: Option<seq<Row>>, targets: Option<seq<Target>>)

  datatype Loaded = Loaded(id: int, cooldown: int, attempt: Attempt, targets: seq<Target>)

  // What the tick's load comes to.
  datatype Cycle = LoadFailed | Cycle(now: int, rules: seq<Loaded>)

  datatype Fire = Fire(id: int, at: int, cooldown: int, marked: bool)

  datatype State = State(lastFired: map<int, int>, fires: seq<Fire>)

  const START: State := State(map[], [])

  function Lookup(m: map<int, int>, id: int): Option<int> {
    if id in m then Some(m[id]) else None
  }

  // rules.go InCooldown.
  predicate InCooldown(last: Option<int>, cooldown: int, now: int) {
    last.Some? && now - last.value < cooldown
  }

  predicate Fires(last: Option<int>, now: int, r: Loaded) {
    !InCooldown(last, r.cooldown, now) && r.attempt.Breached?
  }

  function AfterFire(s: State, now: int, r: Loaded): State
    requires r.attempt.Breached?
  {
    State(if r.attempt.marked then s.lastFired[r.id := Stored(now)] else s.lastFired,
          s.fires + [Fire(r.id, now, r.cooldown, r.attempt.marked)])
  }

  // A rule's last fire is the one that was loaded at the start of the cycle.
  function AfterRule(loaded: map<int, int>, s: State, now: int, r: Loaded): State {
    if Fires(Lookup(loaded, r.id), now, r) then AfterFire(s, now, r) else s
  }

  function AfterRules(loaded: map<int, int>, s: State, now: int, rules: seq<Loaded>): State {
    if rules == [] then s
    else AfterRule(loaded, AfterRules(loaded, s, now, rules[..|rules| - 1]), now, rules[|rules| - 1])
  }

  function AfterCycle(s: State, c: Cycle): State {
    if c.LoadFailed? then s else AfterRules(s.lastFired, s, c.now, c.rules)
  }

  function AfterCycles(cycles: seq<Cycle>): State {
    if cycles == [] then START else AfterCycle(AfterCycles(cycles[..|cycles| - 1]), cycles[|cycles| - 1])
  }

  function Loads(ticks: seq<Tick>): seq<Cycle> {
    seq(|ticks|, i requires 0 <= i < |ticks| => Load(ticks[i]))
  }

  function AfterTicks(ticks: seq<Tick>): State {
    AfterCycles(Loads(ticks))
  }

  function Failures(targets: seq<Target>): nat {
    if targets == [] then 0
    else Failures(targets[..|targets| - 1]) + if targets[|targets| - 1].takes then 0 else 1
  }

  // ------------------------------------------------------------------- loading

  function EnabledIn(rows: seq<Row>): seq<Row> {
    Filter(rows, (r: Row) => r.enabled)
  }

  function TargetsOf(targets: seq<Target>, id: int): seq<Target> {
    Filter(targets, (x: Target) => x.rule == id)
  }

  function LoadedOf(r: Row, targets: seq<Target>): Loaded {
    Loaded(r.id, r.cooldown, r.attempt, TargetsOf(targets, r.id))
  }

  predicate RowDecodes(r: Row) {
    r.scopeDecodes && r.configDecodes
  }

  predicate TargetsDecode(targets: seq<Target>, id: int) {
    forall x :: x in targets && x.rule == id ==> x.decodes
  }

  // pgstore.go LoadEnabledRules.  Targets are asked for only if a rule is enabled,
  // and only those of the enabled rules.
  function Load(t: Tick): Cycle {
    if t.rows.None? then LoadFailed
    else
      var rows := EnabledIn(t.rows.value);
      if exists r :: r in rows && !RowDecodes(r) then LoadFailed
      else if rows == [] then Cycle(t.now, [])
      else if t.targets.None? || exists r :: r in rows && !TargetsDecode(t.targets.value, r.id) then LoadFailed
      else Cycle(t.now, seq(|rows|, i requires 0 <= i < |rows| => LoadedOf(rows[i], t.targets.value)))
  }

  // Rule ids are the primary key, and rows come in its order.
  predicate Keyed(rows: seq<Row>) {
    forall i, j :: 0 <= i < j < |rows| ==> rows[i].id < rows[j].id
  }

  predicate KeyedTick(t: Tick) {
    t.rows.Some? ==> Keyed(t.rows.value)
  }

  lemma {:induction false} FilterKeyed(rows: seq<Row>, keep: Row -> bool)
    requires Keyed(rows)
    ensures Keyed(Filter(rows, keep))
  {
    if rows != [] {
      var n := |rows| - 1;
      FilterKeyed(rows[..n], keep);
      FilterKeeps(rows[..n], keep);
      var before := Filter(rows[..n], keep);
      forall i | 0 <= i < |before|
        ensures before[i].id < rows[n].id
      {
        assert before[i] in rows[..n];
      }
    }
  }

  lemma EnabledAreKeyed(rows: seq<Row>)
    requires Keyed(rows)
    ensures Keyed(EnabledIn(rows))
    ensures forall r :: r in EnabledIn(rows) <==> r in rows && r.enabled
  {
    FilterKeyed(rows, (r: Row) => r.enabled);
    FilterKeeps(rows, (r: Row) => r.enabled);
  }

  // The rules with what they have of the targets.
  ghost predicate Attached(rows: seq<Row>, targets: seq<Target>, rules: seq<Loaded>) {
    |rules| == |rows| && forall k :: 0 <= k < |rows| ==> rules[k] == LoadedOf(rows[k], targets)
  }


  // Targets that decode, attached to their rules, make the load.
  lemma LoadedIsLoad(t: Tick, rows: seq<Row>, found: seq<Target>, ids: set<int>, out: seq<Loaded>)
    requires t.rows.Some? && t.targets.Some? && rows == EnabledIn(t.rows.value) != []
    requires (forall r :: r in rows ==> RowDecodes(r)) && ids == set r | r in rows :: r.id
    requires found == Filter(t.targets.value, (x: Target) => x.rule in ids) && forall x :: x in found ==> x.decodes
    requires Attached(rows, found, out)
    ensures Cycle(t.now, out) == Load(t)
  {
    FilterKeeps(t.targets.value, (x: Target) => x.rule in ids);
    forall k | 0 <= k < |rows|
      ensures out[k] == LoadedOf(rows[k], t.targets.value)
    {
      assert rows[k] in rows;
      FilterTwice(t.targets.value, (x: Target) => x.rule == rows[k].id, (x: Target) => x.rule in ids);
    }
    assert forall r, x :: r in rows && x in t.targets.value && x.rule == r.id ==> x in found;
  }

  // Every rule's place in the list of rules.
  ghost predicate Indexes(byId: map<int, nat>, rows: seq<Row>) {
    && (forall k :: 0 <= k < |rows| ==> rows[k].id in byId && byId[rows[k].id] == k)
    && (forall id :: id in byId ==> byId[id] < |rows| && rows[byId[id]].id == id)
  }

  /** The load: the enabled rules in order of their ids, each with its own targets,
      or nothing at all if a query fails or anything in them does not decode. */
  method LoadEnabledRules(t: Tick) returns (c: Cycle)
    requires KeyedTick(t)
    ensures c == Load(t)
  {
    if t.rows.None? {
      return LoadFailed;
    }
    var rows := EnabledIn(t.rows.value);
    EnabledAreKeyed(t.rows.value);
    var scanned, out, byId := ScanRules(rows);
    if !scanned {
      return LoadFailed;
    }
    if |out| == 0 {
      return Cycle(t.now, []);
    }
    if t.targets.None? {
      return LoadFailed;
    }
    ghost var ids := set r | r in rows :: r.id;
    KeysAreIds(byId, rows);
    var found := Filter(t.targets.value, (x: Target) => x.rule in byId.Keys);
    FilterKeeps(t.targets.value, (x: Target) => x.rule in byId.Keys);
    scanned, out := AttachTargets(rows, out, byId, found);
    if !scanned {
      var x :| x in found && !x.decodes;
      assert rows[byId[x.rule]] in rows;
      return LoadFailed;
    }
    LoadedIsLoad(t, rows, found, ids, out);
    c := Cycle(t.now, out);
  }

  lemma KeysAreIds(byId: map<int, nat>, rows: seq<Row>)
    requires Indexes(byId, rows)
    ensures byId.Keys == set r | r in rows :: r.id
  {
    forall r | r in rows
      ensures r.id in byId
    {
      var i :| 0 <= i < |rows| && rows[i] == r;
    }
    forall id | id in byId
      ensures id in set r | r in rows :: r.id
    {
      assert rows[byId[id]] in rows;
    }
  }

  lemma AttachOneMore(rows: seq<Row>, found: seq<Target>, j: nat, byId: map<int, nat>, rules: seq<Loaded>)
    requires j < |found| && Indexes(byId, rows) && found[j].rule in byId && Attached(rows, found[..j], rules)
    ensures var k := byId[found[j].rule];
            Attached(rows, found[..j + 1], rules[k := rules[k].(targets := rules[k].targets + [found[j]])])
  {
    assert found[..j + 1][..j] == found[..j];
  }

  // Its loop over the rules, which fails at the first that does not decode.
  method ScanRules(rows: seq<Row>) returns (ok: bool, out: seq<Loaded>, byId: map<int, nat>)
    requires Keyed(rows)
    ensures ok <==> forall r :: r in rows ==> RowDecodes(r)
    ensures ok ==> Attached(rows, [], out) && Indexes(byId, rows)
  {
    ok, out, byId := false, [], map[];
    for i := 0 to |rows|
      invariant |out| == i && forall k :: 0 <= k < i ==> out[k] == LoadedOf(rows[k], [])
      invariant forall k :: 0 <= k < i ==> RowDecodes(rows[k])
      invariant Indexes(byId, rows[..i])
    {
      if !rows[i].scopeDecodes || !rows[i].configDecodes {
        assert rows[i] in rows;
        return;
      }
      byId := byId[rows[i].id := |out|];
      out := out + [Loaded(rows[i].id, rows[i].cooldown, rows[i].attempt, [])];
    }
    assert rows[..|rows|] == rows;
    ok := true;
  }

  // Its loop over the targets, likewise.
  method AttachTargets(ghost rows: seq<Row>, rules: seq<Loaded>, byId: map<int, nat>, found: seq<Target>)
      returns (ok: bool, out: seq<Loaded>)
    requires Attached(rows, [], rules) && Indexes(byId, rows) && forall x :: x in found ==> x.rule in byId
    ensures ok <==> forall x :: x in found ==> x.decodes
    ensures ok ==> Attached(rows, found, out)
  {
    ok, out := false, rules;
    for j := 0 to |found|
      invariant Attached(rows, found[..j], out)
      invariant forall k :: 0 <= k < j ==> found[k].decodes
    {
      if !found[j].decodes {
        assert found[j] in found;
        return;
      }
      var k := byId[found[j].rule];
      AttachOneMore(rows, found, j, byId, out);
      out := out[k := out[k].(targets := out[k].targets + [found[j]])];
    }
    assert found[..|found|] == found;
    ok := true;
  }

  class Worker {
    // alert_rules.last_fired_at, and the alerts sent.
    var lastFired: map<int, int>
    var fires: seq<Fire>
    var rulesEvaluated: nat
    var deliveriesFailed: nat

    ghost function Current(): State
      reads this
    {
      State(lastFired, fires)
    }

    constructor ()
      ensures Current() == START && rulesEvaluated == 0 && deliveriesFailed == 0
    {
      lastFired := map[];
      fires := [];
      rulesEvaluated := 0;
      deliveriesFailed := 0;
    }

    /** One cycle: load, then every loaded rule in turn, none of which stops the
        others. */
    method EvaluateOnce(t: Tick)
      requires KeyedTick(t)
      modifies this
      ensures Current() == AfterCycle(old(Current()), Load(t))
      ensures rulesEvaluated == old(rulesEvaluated) + if Load(t).LoadFailed? then 0 else |Load(t).rules|
    {
      var c := LoadEnabledRules(t);
      if c.LoadFailed? {
        return;
      }
      var loaded := lastFired;
      for i := 0 to |c.rules|
        invariant Current() == AfterRules(loaded, old(Current()), c.now, c.rules[..i])
        invariant rulesEvaluated == old(rulesEvaluated) + i
      {
        assert c.rules[..i + 1][..i] == c.rules[..i];
        EvaluateRule(Lookup(loaded, c.rules[i].id), c.rules[i], c.now);
      }
      assert c.rules[..|c.rules|] == c.rules;
    }

    method EvaluateRule(last: Option<int>, r: Loaded, now: int)
      modifies this
      ensures Current() == if Fires(last, now, r) then AfterFire(old(Current()), now, r) else old(Current())
      ensures rulesEvaluated == old(rulesEvaluated) + 1
      ensures deliveriesFailed
           == old(deliveriesFailed) + if Fires(last, now, r) then Failures(r.targets) else 0
    {
      rulesEvaluated := rulesEvaluated + 1;
      if InCooldown(last, r.cooldown, now) {
        return;
      }
      if r.attempt.InvalidConfig? || r.attempt.EvaluationFailed? || r.attempt.Quiet? {
        return;
      }
      for i := 0 to |r.targets|
        invariant deliveriesFailed == old(deliveriesFailed) + Failures(r.targets[..i])
        invariant Current() == old(Current()) && rulesEvaluated == old(rulesEvaluated) + 1
      {
        assert r.targets[..i + 1][..i] == r.targets[..i];
        if !r.targets[i].takes {
          deliveriesFailed := deliveriesFailed + 1;
        }
      }
      assert r.targets[..|r.targets|] == r.targets;
      // The fire is recorded even if deliveries failed.
      if r.attempt.marked {
        lastFired := lastFired[r.id := Stored(now)];
      }
      fires := fires + [Fire(r.id, now, r.cooldown, r.attempt.marked)];
    }
  }

  // ------------------------------------------------------------------- spacing

  // The stored time of the last recorded fire of a rule.
  function LastMarked(fires: seq<Fire>, id: int): Option<int> {
    if fires == [] then None
    else
      var f := fires[|fires| - 1];
      if f.id == id && f.marked then Some(Stored(f.at)) else LastMarked(fires[..|fires| - 1], id)
  }

  // Fire j comes a cooldown after the last recorded fire of its rule.
  ghost predicate SpacedAt(fires: seq<Fire>, j: nat)
    requires j < |fires|
  {
    !InCooldown(LastMarked(fires[..j], fires[j].id), fires[j].cooldown, fires[j].at)
  }

  ghost predicate Spaced(fires: seq<Fire>) {
    forall j :: 0 <= j < |fires| ==> SpacedAt(fires, j)
  }

  ghost predicate Remembers(s: State) {
    forall id :: Lookup(s.lastFired, id) == LastMarked(s.fires, id)
  }

  predicate Distinct(rules: seq<Loaded>) {
    forall i, j :: 0 <= i < j < |rules| ==> rules[i].id != rules[j].id
  }

  predicate WellLoaded(cycles: seq<Cycle>) {
    forall i :: 0 <= i < |cycles| ==> cycles[i].LoadFailed? || Distinct(cycles[i].rules)
  }

  // The ids in a table are distinct, so all that follows holds in every run of ticks.
  lemma LoadsAreWellLoaded(ticks: seq<Tick>)
    requires forall i :: 0 <= i < |ticks| ==> KeyedTick(ticks[i])
    ensures WellLoaded(Loads(ticks))
  {
    forall i | 0 <= i < |ticks|
      ensures Loads(ticks)[i].LoadFailed? || Distinct(Loads(ticks)[i].rules)
    {
      if Load(ticks[i]).Cycle? {
        EnabledAreKeyed(ticks[i].rows.value);
      }
    }
  }

  lemma FireKeeps(s: State, now: int, r: Loaded)
    requires Spaced(s.fires) && Remembers(s) && Fires(Lookup(s.lastFired, r.id), now, r)
    ensures Spaced(AfterFire(s, now, r).fires) && Remembers(AfterFire(s, now, r))
  {
    var f := Fire(r.id, now, r.cooldown, r.attempt.marked);
    var fires := s.fires + [f];
    LastIsLast(s.fires, f);
    forall j | 0 <= j < |fires|
      ensures SpacedAt(fires, j)
    {
      if j < |s.fires| {
        assert SpacedAt(s.fires, j);
        assert fires[..j] == s.fires[..j];
      }
    }
    assert Lookup(s.lastFired, r.id) == LastMarked(s.fires, r.id);
  }

  // Rules with other ids do not touch a rule's record.
  lemma {:induction false} OthersLeaveRecord(loaded: map<int, int>, s: State, now: int, rules: seq<Loaded>, id: int)
    requires forall i :: 0 <= i < |rules| ==> rules[i].id != id
    ensures Lookup(AfterRules(loaded, s, now, rules).lastFired, id) == Lookup(s.lastFired, id)
  {
    if rules != [] {
      OthersLeaveRecord(loaded, s, now, rules[..|rules| - 1], id);
    }
  }

  lemma {:induction false} RulesKeep(s: State, now: int, rules: seq<Loaded>)
    requires Spaced(s.fires) && Remembers(s) && Distinct(rules)
    ensures var s' := AfterRules(s.lastFired, s, now, rules);
            Spaced(s'.fires) && Remembers(s')
  {
    if rules != [] {
      var n := |rules| - 1;
      RulesKeep(s, now, rules[..n]);
      OthersLeaveRecord(s.lastFired, s, now, rules[..n], rules[n].id);
      var before := AfterRules(s.lastFired, s, now, rules[..n]);
      if Fires(Lookup(s.lastFired, rules[n].id), now, rules[n]) {
        FireKeeps(before, now, rules[n]);
      }
    }
  }

  /** In every run, whatever the clock shows and whatever fails, each fire comes at
      least its cooldown after the rule's last recorded fire. */
  lemma {:induction false} FiresAreSpaced(cycles: seq<Cycle>)
    requires WellLoaded(cycles)
    ensures Spaced(AfterCycles(cycles).fires) && Remembers(AfterCycles(cycles))
  {
    if cycles != [] {
      var n := |cycles| - 1;
      FiresAreSpaced(cycles[..n]);
      if cycles[n].Cycle? {
        RulesKeep(AfterCycles(cycles[..n]), cycles[n].now, cycles[n].rules);
      }
    }
  }

  // Fire i is the last one of its rule before fire j.
  ghost predicate Consecutive(fires: seq<Fire>, i: nat, j: nat) {
    && i < j < |fires| && fires[i].id == fires[j].id
    && forall k :: i < k < j ==> fires[k].id != fires[j].id
  }

  lemma {:induction false} LastMarkedIs(fires: seq<Fire>, i: nat, n: nat)
    requires i < n <= |fires| && fires[i].marked && forall k :: i < k < n ==> fires[k].id != fires[i].id
    ensures LastMarked(fires[..n], fires[i].id) == Some(Stored(fires[i].at))
  {
    assert fires[..n][..n - 1] == fires[..n - 1];
    if i < n - 1 {
      LastMarkedIs(fires, i, n - 1);
    }
  }

  /** If the first of two consecutive fires of a rule was recorded, the second
      comes no earlier than the cooldown after it, up to what the store rounds
      off. */
  lemma ConsecutiveFiresAreApart(cycles: seq<Cycle>, i: nat, j: nat)
    requires WellLoaded(cycles)
    requires var fires := AfterCycles(cycles).fires; Consecutive(fires, i, j) && fires[i].marked
    ensures var fires := AfterCycles(cycles).fires;
            fires[j].at - Stored(fires[i].at) >= fires[j].cooldown
            && fires[j].at - fires[i].at > fires[j].cooldown - MICROSECOND
            && (fires[i].at % MICROSECOND == 0 ==> fires[j].at - fires[i].at >= fires[j].cooldown)
  {
    var fires := AfterCycles(cycles).fires;
    FiresAreSpaced(cycles);
    assert SpacedAt(fires, j);
    LastMarkedIs(fires, i, j);
  }

  // A rule that breaches with the given cooldown, its fire recorded or not.
  function Breach(cooldown: int, marked: bool): Loaded {
    Loaded(1, cooldown, Breached(marked), [])
  }

  /** Rounding in the store can cut every cooldown short: after a recorded fire at
      any time that is not a whole microsecond, a cycle at the stored time plus the
      cooldown fires again. */
  lemma CooldownCanFallShort(t: int, cooldown: int)
    requires t % MICROSECOND != 0
    ensures var r, again := Breach(cooldown, true), Stored(t) + cooldown;
            && again - t < cooldown
            && AfterCycles([Cycle(t, [r]), Cycle(again, [r])]).fires
               == [Fire(1, t, cooldown, true), Fire(1, again, cooldown, true)]
  {
    var r := Breach(cooldown, true);
    TwoCycles(t, r, Stored(t) + cooldown, r);
  }

  /** A fire that could not be recorded holds nothing back: whatever the cooldown,
      a cycle at any other time fires again. */
  lemma UnrecordedFireHoldsNothingBack(t: int, cooldown: int, again: int)
    ensures var r := Breach(cooldown, false);
            AfterCycles([Cycle(t, [r]), Cycle(again, [r])]).fires
            == [Fire(1, t, cooldown, false), Fire(1, again, cooldown, false)]
  {
    var r := Breach(cooldown, false);
    TwoCycles(t, r, again, r);
  }

  // In some run a fire at t is followed by the next fire of its rule too early.
  ghost predicate FiresTooEarly(cycles: seq<Cycle>, i: nat, j: nat, t: int, cooldown: int, marked: bool) {
    && WellLoaded(cycles)
    && (var fires := AfterCycles(cycles).fires;
        && Consecutive(fires, i, j)
        && fires[i].at == t && fires[i].marked == marked && fires[j].cooldown == cooldown
        && fires[j].at - t < cooldown)
  }

  // A fire at t is followed by no other of its rule within the cooldown, in no run.
  ghost predicate CooldownIsKept(t: int, cooldown: int, marked: bool) {
    forall cycles, i, j :: !FiresTooEarly(cycles, i, j, t, cooldown, marked)
  }

  /** The cooldown after a fire is kept in every run if and only if the fire could
      be recorded and its time is a whole microsecond. */
  lemma CooldownIsKeptExactly(t: int, cooldown: int, marked: bool)
    ensures CooldownIsKept(t, cooldown, marked) <==> marked && t % MICROSECOND == 0
  {
    if marked && t % MICROSECOND == 0 {
      forall cycles, i: nat, j: nat
        ensures !FiresTooEarly(cycles, i, j, t, cooldown, marked)
      {
        KeptAfterWhole(cycles, i, j, t, cooldown);
      }
    } else {
      var again := if marked then Stored(t) + cooldown else t + cooldown - 1;
      var r := Breach(cooldown, marked);
      var cycles := [Cycle(t, [r]), Cycle(again, [r])];
      TwoCycles(t, r, again, r);
      assert FiresTooEarly(cycles, 0, 1, t, cooldown, marked);
    }
  }

  lemma KeptAfterWhole(cycles: seq<Cycle>, i: nat, j: nat, t: int, cooldown: int)
    requires t % MICROSECOND == 0
    ensures !FiresTooEarly(cycles, i, j, t, cooldown, true)
  {
    if WellLoaded(cycles) {
      var fires := AfterCycles(cycles).fires;
      if Consecutive(fires, i, j) && fires[i].marked && fires[i].at == t {
        ConsecutiveFiresAreApart(cycles, i, j);
      }
    }
  }

  lemma TwoCycles(t: int, r: Loaded, u: int, q: Loaded)
    ensures var first := AfterRule(map[], START, t, r);
            AfterCycles([Cycle(t, [r]), Cycle(u, [q])]) == AfterRule(first.lastFired, first, u, q)
  {
    var cycles := [Cycle(t, [r]), Cycle(u, [q])];
    assert cycles[..1] == [Cycle(t, [r])] && cycles[..1][..0] == [];
    OneRule(map[], START, t, r);
    var first := AfterRule(map[], START, t, r);
    OneRule(first.lastFired, first, u, q);
    assert AfterCycles(cycles[..1]) == AfterCycle(AfterCycles([]), Cycle(t, [r]));
  }

  lemma OneRule(loaded: map<int, int>, s: State, now: int, r: Loaded)
    ensures AfterRules(loaded, s, now, [r]) == AfterRule(loaded, s, now, r)
  {
  }

  // -------------------------------------------------------------- what is loaded

  // Something about the enabled rule, or about a target of it, does not decode.
  ghost predicate Garbled(t: Tick, r: Row) {
    !r.scopeDecodes || !r.configDecodes
    || (t.targets.Some? && exists x :: x in t.targets.value && x.rule == r.id && !x.decodes)
  }

  /** The load fails exactly if the first query does, or an enabled rule or a target of
      it does not decode, or there is an enabled rule and the second query fails. */
  lemma LoadFailsExactly(t: Tick)
    requires KeyedTick(t)
    ensures Load(t).LoadFailed? <==>
              || t.rows.None?
              || (t.targets.None? && exists r :: r in t.rows.value && r.enabled)
              || exists r :: r in t.rows.value && r.enabled && Garbled(t, r)
  {
    if t.rows.Some? {
      EnabledAreKeyed(t.rows.value);
      var rows := EnabledIn(t.rows.value);
      if rows != [] {
        assert rows[0] in rows;
      }
    }
  }

  /** And what it loads are the enabled rules and no other, each with the targets that
      bear its id. */
  lemma LoadedAsStored(t: Tick, x: Loaded)
    requires KeyedTick(t) && Load(t).Cycle? && x in Load(t).rules
    ensures exists r :: r in t.rows.value && r.enabled
                        && x.id == r.id && x.cooldown == r.cooldown && x.attempt == r.attempt
    ensures forall y :: y in x.targets <==> y in t.targets.value && y.rule == x.id
    ensures Load(t).now == t.now
  {
    EnabledAreKeyed(t.rows.value);
    var rows := EnabledIn(t.rows.value);
    var i :| 0 <= i < |Load(t).rules| && Load(t).rules[i] == x;
    assert rows[i] in rows;
    FilterKeeps(t.targets.value, (y: Target) => y.rule == rows[i].id);
  }

  lemma EnabledAreLoaded(t: Tick, r: Row)
    requires KeyedTick(t) && Load(t).Cycle? && r in t.rows.value && r.enabled
    ensures exists x :: x in Load(t).rules && x.id == r.id
  {
    EnabledAreKeyed(t.rows.value);
    var i :| 0 <= i < |EnabledIn(t.rows.value)| && EnabledIn(t.rows.value)[i] == r;
    assert Load(t).rules[i] in Load(t).rules;
  }

  /** The deliveries counted as failed are those of the targets that take nothing. */
  lemma {:induction false} FailuresAreRefusals(targets: seq<Target>)
    ensures Failures(targets) == |Filter(targets, (x: Target) => !x.takes)|
  {
    if targets != [] {
      FailuresAreRefusals(targets[..|targets| - 1]);
    }
  }
}
