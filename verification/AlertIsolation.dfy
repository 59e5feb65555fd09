/** Isolation of alert rules: what one rule's trouble can do to another.  Once rules
    are loaded, nothing; but they are loaded together or not at all. */
module AlertIsolation {
  import opened Common
  import opened Alerts

  function FiresOf(fires: seq<Fire>, id: int): seq<Fire> {
    if fires == [] then []
    else
      var n := |fires| - 1;
      FiresOf(fires[..n], id) + if fires[n].id == id then [fires[n]] else []
  }

  // What a cycle holds for one rule.
  datatype Turn = Absent | Turn(now: int, rule: Loaded)

  function TurnOf(c: Cycle, id: int): Turn {
    if c.LoadFailed? then Absent else TurnIn(c.now, c.rules, id)
  }

  function TurnIn(now: int, rules: seq<Loaded>, id: int): Turn {
    if rules == [] then Absent
    else if rules[|rules| - 1].id == id then Turn(now, rules[|rules| - 1])
    else TurnIn(now, rules[..|rules| - 1], id)
  }

  // One rule on its own: its record and its fires.
  datatype History = History(last: Option<int>, fires: seq<Fire>)

  function HistoryOf(s: State, id: int): History {
    History(Lookup(s.lastFired, id), FiresOf(s.fires, id))
  }

  function AfterTurn(h: History, t: Turn): History {
    if t.Absent? || !Fires(h.last, t.now, t.rule) then h
    else History(if t.rule.attempt.marked then Some(Stored(t.now)) else h.last,
                 h.fires + [Fire(t.rule.id, t.now, t.rule.cooldown, t.rule.attempt.marked)])
  }

  function OwnTurns(cycles: seq<Cycle>, id: int): History {
    if cycles == [] then History(None, [])
    else AfterTurn(OwnTurns(cycles[..|cycles| - 1], id), TurnOf(cycles[|cycles| - 1], id))
  }

  lemma RuleSeenBy(loaded: map<int, int>, s: State, now: int, r: Loaded, id: int)
    requires r.id == id ==> Lookup(loaded, id) == Lookup(s.lastFired, id)
    ensures HistoryOf(AfterRule(loaded, s, now, r), id)
         == AfterTurn(HistoryOf(s, id), if r.id == id then Turn(now, r) else Absent)
  {
    if Fires(Lookup(loaded, r.id), now, r) {
      LastIsLast(s.fires, Fire(r.id, now, r.cooldown, r.attempt.marked));
    }
  }

  lemma {:induction false} RulesSeenBy(s: State, now: int, rules: seq<Loaded>, id: int)
    requires Distinct(rules)
    ensures HistoryOf(AfterRules(s.lastFired, s, now, rules), id) == AfterTurn(HistoryOf(s, id), TurnIn(now, rules, id))
  {
    if rules != [] {
      var n := |rules| - 1;
      var before := AfterRules(s.lastFired, s, now, rules[..n]);
      RulesSeenBy(s, now, rules[..n], id);
      if rules[n].id == id {
        OthersLeaveRecord(s.lastFired, s, now, rules[..n], id);
        OthersTakeNoTurn(now, rules[..n], id);
      }
      RuleSeenBy(s.lastFired, before, now, rules[n], id);
    }
  }

  lemma {:induction false} OthersTakeNoTurn(now: int, rules: seq<Loaded>, id: int)
    requires forall i :: 0 <= i < |rules| ==> rules[i].id != id
    ensures TurnIn(now, rules, id) == Absent
  {
    if rules != [] {
      OthersTakeNoTurn(now, rules[..|rules| - 1], id);
    }
  }

  /** Once the rules are loaded, a rule's record and its fires come of its own turns
      alone: no other rule's failures, fires or changes reach them. */
  lemma {:induction false} HistoryIsOfOwnTurns(cycles: seq<Cycle>, id: int)
    requires WellLoaded(cycles)
    ensures HistoryOf(AfterCycles(cycles), id) == OwnTurns(cycles, id)
  {
    if cycles != [] {
      var n := |cycles| - 1;
      HistoryIsOfOwnTurns(cycles[..n], id);
      if cycles[n].Cycle? {
        RulesSeenBy(AfterCycles(cycles[..n]), cycles[n].now, cycles[n].rules, id);
      }
    }
  }

  /** Two runs that agree on a rule's own turns agree on its fires. */
  lemma OnlyOwnTurnsMatter(cycles: seq<Cycle>, others: seq<Cycle>, id: int)
    requires WellLoaded(cycles) && WellLoaded(others) && |cycles| == |others|
    requires forall i :: 0 <= i < |cycles| ==> TurnOf(cycles[i], id) == TurnOf(others[i], id)
    ensures FiresOf(AfterCycles(cycles).fires, id) == FiresOf(AfterCycles(others).fires, id)
  {
    HistoryIsOfOwnTurns(cycles, id);
    HistoryIsOfOwnTurns(others, id);
    SameTurns(cycles, others, id);
  }

  lemma {:induction false} SameTurns(cycles: seq<Cycle>, others: seq<Cycle>, id: int)
    requires |cycles| == |others|
    requires forall i :: 0 <= i < |cycles| ==> TurnOf(cycles[i], id) == TurnOf(others[i], id)
    ensures OwnTurns(cycles, id) == OwnTurns(others, id)
  {
    if cycles != [] {
      SameTurns(cycles[..|cycles| - 1], others[..|others| - 1], id);
    }
  }

  // ------------------------------------------------------------------ the load

  // The row and its targets can be loaded.
  predicate Readable(t: Tick, r: Row) {
    RowDecodes(r) && (t.targets.Some? ==> TargetsDecode(t.targets.value, r.id))
  }

  predicate OthersReadable(t: Tick, id: int) {
    t.rows.Some? ==> forall r :: r in t.rows.value && r.enabled && r.id != id ==> Readable(t, r)
  }

  // Would the rule be evaluated if it were the only one?
  predicate AloneTakesTurn(t: Tick, id: int) {
    t.rows.Some? && t.targets.Some? && exists r :: r in t.rows.value && r.enabled && r.id == id && Readable(t, r)
  }

  // The same tick, with every other rule and its targets deleted.
  function Only(t: Tick, id: int): Tick {
    Tick(t.now,
         if t.rows.None? then None else Some(Filter(t.rows.value, (r: Row) => r.id == id)),
         if t.targets.None? then None else Some(TargetsOf(t.targets.value, id)))
  }

  function OnlyInAll(ticks: seq<Tick>, id: int): seq<Tick> {
    seq(|ticks|, i requires 0 <= i < |ticks| => Only(ticks[i], id))
  }

  lemma {:induction false} FoundTurn(now: int, rules: seq<Loaded>, i: nat)
    requires i < |rules| && Distinct(rules)
    ensures TurnIn(now, rules, rules[i].id) == Turn(now, rules[i])
  {
    if i < |rules| - 1 {
      FoundTurn(now, rules[..|rules| - 1], i);
    }
  }

  // A row that can be loaded, beside others that can, takes its turn.
  lemma ReadableTakesTurn(t: Tick, r: Row)
    requires KeyedTick(t) && t.rows.Some? && t.targets.Some? && OthersReadable(t, r.id)
    requires r in t.rows.value && r.enabled && Readable(t, r)
    ensures TurnOf(Load(t), r.id) == Turn(t.now, LoadedOf(r, t.targets.value))
  {
    var rows := EnabledIn(t.rows.value);
    EnabledAreKeyed(t.rows.value);
    forall q | q in rows
      ensures Readable(t, q)
    {
      if q.id == r.id {
        assert q == r;
      }
    }
    var i :| 0 <= i < |rows| && rows[i] == r;
    FoundTurn(t.now, Load(t).rules, i);
  }

  lemma NoTurnOtherwise(t: Tick, id: int)
    requires KeyedTick(t) && !(AloneTakesTurn(t, id) && OthersReadable(t, id))
    ensures TurnOf(Load(t), id) == Absent
  {
    var c := Load(t);
    if c.Cycle? {
      var rows := EnabledIn(t.rows.value);
      EnabledAreKeyed(t.rows.value);
      forall i | 0 <= i < |c.rules|
        ensures c.rules[i].id != id
      {
        assert rows[i] in rows;
        assert rows[i] in t.rows.value && rows[i].enabled && Readable(t, rows[i]);
      }
      OthersTakeNoTurn(t.now, c.rules, id);
    }
  }

  lemma OnlyKeepsOwn(t: Tick, id: int)
    requires KeyedTick(t)
    ensures KeyedTick(Only(t, id)) && OthersReadable(Only(t, id), id)
    ensures t.rows.Some? ==> forall r :: r in Only(t, id).rows.value <==> r in t.rows.value && r.id == id
    ensures forall r: Row :: r.id == id ==> (Readable(Only(t, id), r) <==> Readable(t, r))
    ensures AloneTakesTurn(Only(t, id), id) <==> AloneTakesTurn(t, id)
    ensures t.targets.Some? ==> TargetsOf(Only(t, id).targets.value, id) == TargetsOf(t.targets.value, id)
  {
    var o := Only(t, id);
    if t.rows.Some? {
      FilterKeyed(t.rows.value, (r: Row) => r.id == id);
      FilterKeeps(t.rows.value, (r: Row) => r.id == id);
    }
    if t.targets.Some? {
      FilterKeeps(t.targets.value, (x: Target) => x.rule == id);
      FilterTwice(t.targets.value, (x: Target) => x.rule == id, (x: Target) => x.rule == id);
    }
  }

  // Does the rule's turn in this tick depend on itself alone?
  predicate Isolated(t: Tick, id: int) {
    OthersReadable(t, id) || !AloneTakesTurn(t, id)
  }

  /** A tick gives a rule the turn it would have as the only rule if and only if
      every other enabled rule can be loaded, or it would have had no turn. */
  lemma TurnIsOwnExactly(t: Tick, id: int)
    requires KeyedTick(t)
    ensures TurnOf(Load(t), id) == TurnOf(Load(Only(t, id)), id) <==> Isolated(t, id)
    ensures AloneTakesTurn(t, id) ==> TurnOf(Load(Only(t, id)), id).Turn?
    ensures !OthersReadable(t, id) ==> TurnOf(Load(t), id) == Absent
  {
    OnlyKeepsOwn(t, id);
    if AloneTakesTurn(t, id) {
      var r :| r in t.rows.value && r.enabled && r.id == id && Readable(t, r);
      ReadableTakesTurn(Only(t, id), r);
      if OthersReadable(t, id) {
        ReadableTakesTurn(t, r);
      } else {
        NoTurnOtherwise(t, id);
      }
    } else {
      NoTurnOtherwise(t, id);
      NoTurnOtherwise(Only(t, id), id);
    }
  }

  // The same tick, in which evaluating the rule comes to something else.
  function Retold(t: Tick, id: int, attempt: Attempt): Tick {
    if t.rows.None? then t
    else
      var rows := t.rows.value;
      t.(rows := Some(seq(|rows|, i requires 0 <= i < |rows| => RetoldRow(rows[i], id, attempt))))
  }

  function RetoldRow(r: Row, id: int, attempt: Attempt): Row {
    if r.id == id then r.(attempt := attempt) else r
  }

  function RetoldAll(ticks: seq<Tick>, id: int, attempts: seq<Attempt>): seq<Tick>
    requires |attempts| == |ticks|
  {
    seq(|ticks|, i requires 0 <= i < |ticks| => Retold(ticks[i], id, attempts[i]))
  }

  lemma RetoldRows(t: Tick, id: int, attempt: Attempt)
    requires t.rows.Some?
    ensures var u := Retold(t, id, attempt);
            && (forall r :: r in t.rows.value ==> RetoldRow(r, id, attempt) in u.rows.value)
            && (forall r :: r in u.rows.value && r.id != id ==> r in t.rows.value)
            && (forall r :: r in u.rows.value && r.id == id ==>
                  r.attempt == attempt && exists q :: q in t.rows.value && r == RetoldRow(q, id, attempt))
  {
    var u := Retold(t, id, attempt);
    forall r | r in t.rows.value
      ensures RetoldRow(r, id, attempt) in u.rows.value
    {
      var i :| 0 <= i < |t.rows.value| && t.rows.value[i] == r;
      assert u.rows.value[i] == RetoldRow(r, id, attempt);
    }
    forall r | r in u.rows.value
      ensures exists q :: q in t.rows.value && r == RetoldRow(q, id, attempt)
    {
      var i :| 0 <= i < |u.rows.value| && u.rows.value[i] == r;
      assert r == RetoldRow(t.rows.value[i], id, attempt);
    }
  }

  lemma RetoldStillTakesTurn(t: Tick, id: int, attempt: Attempt)
    ensures AloneTakesTurn(Retold(t, id, attempt), id) <==> AloneTakesTurn(t, id)
  {
    if t.rows.Some? {
      RetoldRows(t, id, attempt);
      if AloneTakesTurn(t, id) {
        var r :| r in t.rows.value && r.enabled && r.id == id && Readable(t, r);
        assert Readable(Retold(t, id, attempt), RetoldRow(r, id, attempt));
      }
    }
  }

  lemma RetoldStays(t: Tick, id: int, attempt: Attempt)
    requires KeyedTick(t)
    ensures var u := Retold(t, id, attempt);
            && KeyedTick(u)
            && (OthersReadable(u, id) <==> OthersReadable(t, id))
            && (AloneTakesTurn(u, id) <==> AloneTakesTurn(t, id))
  {
    RetoldStillTakesTurn(t, id, attempt);
    if t.rows.Some? {
      RetoldRows(t, id, attempt);
      forall r | r in t.rows.value && r.id != id
        ensures r in Retold(t, id, attempt).rows.value
      {
        assert RetoldRow(r, id, attempt) == r;
      }
    }
  }

  lemma RetoldTurn(t: Tick, id: int, attempt: Attempt)
    requires KeyedTick(t)
    ensures var u := Retold(t, id, attempt);
            && (TurnOf(Load(u), id).Turn? ==> TurnOf(Load(u), id).rule.attempt == attempt)
            && (TurnOf(Load(Only(u, id)), id).Turn? ==> TurnOf(Load(Only(u, id)), id).rule.attempt == attempt)
  {
    var u := Retold(t, id, attempt);
    RetoldStays(t, id, attempt);
    OnlyKeepsOwn(u, id);
    if t.rows.Some? {
      RetoldRows(t, id, attempt);
    }
    if TurnOf(Load(u), id).Turn? {
      TurnIsOfRow(u, id);
    }
    if TurnOf(Load(Only(u, id)), id).Turn? {
      TurnIsOfRow(Only(u, id), id);
    }
  }

  lemma TurnIsOfRow(t: Tick, id: int)
    requires KeyedTick(t) && TurnOf(Load(t), id).Turn?
    ensures t.rows.Some? && exists r :: r in t.rows.value && r.id == id && TurnOf(Load(t), id).rule.attempt == r.attempt
  {
    if !(AloneTakesTurn(t, id) && OthersReadable(t, id)) {
      NoTurnOtherwise(t, id);
    }
    var r :| r in t.rows.value && r.enabled && r.id == id && Readable(t, r);
    ReadableTakesTurn(t, r);
  }

  // -------------------------------------------------------------- whole runs

  predicate KeyedTicks(ticks: seq<Tick>) {
    forall i :: 0 <= i < |ticks| ==> KeyedTick(ticks[i])
  }

  // The rule's record and its fires are what they would be if it were the only rule.
  ghost predicate Unaffected(ticks: seq<Tick>, id: int) {
    HistoryOf(AfterTicks(ticks), id) == HistoryOf(AfterTicks(OnlyInAll(ticks, id)), id)
  }

  lemma OnlyIsKeyed(ticks: seq<Tick>, id: int)
    requires KeyedTicks(ticks)
    ensures KeyedTicks(OnlyInAll(ticks, id))
  {
    forall i | 0 <= i < |ticks|
      ensures KeyedTick(OnlyInAll(ticks, id)[i])
    {
      OnlyKeepsOwn(ticks[i], id);
    }
  }

  lemma TicksOfOwnTurns(ticks: seq<Tick>, id: int)
    requires KeyedTicks(ticks)
    ensures HistoryOf(AfterTicks(ticks), id) == OwnTurns(Loads(ticks), id)
    ensures HistoryOf(AfterTicks(OnlyInAll(ticks, id)), id) == OwnTurns(Loads(OnlyInAll(ticks, id)), id)
  {
    OnlyIsKeyed(ticks, id);
    LoadsAreWellLoaded(ticks);
    LoadsAreWellLoaded(OnlyInAll(ticks, id));
    HistoryIsOfOwnTurns(Loads(ticks), id);
    HistoryIsOfOwnTurns(Loads(OnlyInAll(ticks, id)), id);
  }

  lemma IsolatedTicksLeaveAlone(ticks: seq<Tick>, id: int)
    requires KeyedTicks(ticks) && forall i :: 0 <= i < |ticks| ==> Isolated(ticks[i], id)
    ensures Unaffected(ticks, id)
  {
    TicksOfOwnTurns(ticks, id);
    forall i | 0 <= i < |ticks|
      ensures TurnOf(Loads(ticks)[i], id) == TurnOf(Loads(OnlyInAll(ticks, id))[i], id)
    {
      TurnIsOwnExactly(ticks[i], id);
    }
    SameTurns(Loads(ticks), Loads(OnlyInAll(ticks, id)), id);
  }

  predicate Uneventful(t: Turn) {
    t.Absent? || !t.rule.attempt.Breached?
  }

  lemma {:induction false} UneventfulTurns(cycles: seq<Cycle>, m: nat, id: int)
    requires m <= |cycles| && forall i :: m <= i < |cycles| ==> Uneventful(TurnOf(cycles[i], id))
    ensures OwnTurns(cycles, id) == OwnTurns(cycles[..m], id)
  {
    if m == |cycles| {
      assert cycles[..m] == cycles;
    } else {
      var n := |cycles| - 1;
      UneventfulTurns(cycles[..n], m, id);
      assert cycles[..n][..m] == cycles[..m];
    }
  }

  // One breach, in tick k, and nothing else.
  function BreachAt(n: nat, k: nat): seq<Attempt> {
    seq(n, i => if i == k then Breached(true) else Quiet)
  }

  // A tick in which the rule is not isolated can cost it a fire.
  lemma FireIsLost(ticks: seq<Tick>, id: int, k: nat)
    requires KeyedTicks(ticks) && k < |ticks| && !Isolated(ticks[k], id)
    ensures !Unaffected(RetoldAll(ticks, id, BreachAt(|ticks|, k)), id)
  {
    var told := RetoldAll(ticks, id, BreachAt(|ticks|, k));
    var alone := OnlyInAll(told, id);
    forall i | 0 <= i < |ticks|
      ensures KeyedTick(told[i])
      ensures Uneventful(TurnOf(Loads(told)[i], id)) && (i != k ==> Uneventful(TurnOf(Loads(alone)[i], id)))
      ensures i == k ==> TurnOf(Loads(alone)[i], id).Turn? && !Uneventful(TurnOf(Loads(alone)[i], id))
    {
      RetoldStays(ticks[i], id, BreachAt(|ticks|, k)[i]);
      RetoldTurn(ticks[i], id, BreachAt(|ticks|, k)[i]);
      TurnIsOwnExactly(told[i], id);
    }
    TicksOfOwnTurns(told, id);
    UneventfulTurns(Loads(told), 0, id);
    UneventfulTurns(Loads(alone)[..k], 0, id);
    UneventfulTurns(Loads(alone), k + 1, id);
    assert Loads(alone)[..k][..0] == [] && Loads(told)[..0] == [];
    assert Loads(alone)[..k + 1][..k] == Loads(alone)[..k];
  }

  /** Whatever evaluating a rule comes to, its record and its fires are those it
      would have as the only rule, if and only if in every tick either every other
      enabled rule can be loaded or the rule would have had no turn anyway. */
  lemma RulesAreIsolatedExactly(ticks: seq<Tick>, id: int)
    requires KeyedTicks(ticks)
    ensures (forall attempts: seq<Attempt> :: |attempts| == |ticks| ==> Unaffected(RetoldAll(ticks, id, attempts), id))
       <==> (forall i :: 0 <= i < |ticks| ==> Isolated(ticks[i], id))
  {
    if forall i :: 0 <= i < |ticks| ==> Isolated(ticks[i], id) {
      forall attempts: seq<Attempt> | |attempts| == |ticks|
        ensures Unaffected(RetoldAll(ticks, id, attempts), id)
      {
        forall i | 0 <= i < |ticks|
          ensures KeyedTick(RetoldAll(ticks, id, attempts)[i]) && Isolated(RetoldAll(ticks, id, attempts)[i], id)
        {
          RetoldStays(ticks[i], id, attempts[i]);
        }
        IsolatedTicksLeaveAlone(RetoldAll(ticks, id, attempts), id);
      }
    } else {
      var k :| 0 <= k < |ticks| && !Isolated(ticks[k], id);
      FireIsLost(ticks, id, k);
      assert |BreachAt(|ticks|, k)| == |ticks|;
    }
  }

  // Some enabled rule cannot be loaded.
  predicate Spoiled(t: Tick) {
    t.rows.Some? && exists r :: r in t.rows.value && r.enabled && !Readable(t, r)
  }

  /** As long as one enabled rule cannot be loaded, no rule at all is evaluated. */
  lemma {:induction false} OneUnreadableRuleStopsAll(before: seq<Tick>, ticks: seq<Tick>)
    requires KeyedTicks(ticks) && forall i :: 0 <= i < |ticks| ==> Spoiled(ticks[i])
    ensures forall i :: 0 <= i < |ticks| ==> Load(ticks[i]).LoadFailed?
    ensures AfterTicks(before + ticks) == AfterTicks(before)
  {
    if ticks == [] {
      assert before + ticks == before;
    } else {
      var n := |ticks| - 1;
      OneUnreadableRuleStopsAll(before, ticks[..n]);
      assert Loads(before + ticks)[..|before| + n] == Loads(before + ticks[..n]);
      EnabledAreKeyed(ticks[n].rows.value);
      assert Load(ticks[n]).LoadFailed?;
    }
  }

  // A rule in order that breaches, and one whose config is, say, a JSON list.
  function TwoRules(now: int): Tick {
    Tick(now, Some([Row(1, true, 3600, true, true, Breached(true)), Row(2, true, 3600, true, false, Quiet)]), Some([]))
  }

  lemma FilterPair(rows: seq<Row>, keep: Row -> bool)
    requires 1 <= |rows| <= 2 && keep(rows[0]) && (|rows| == 2 ==> !keep(rows[1]))
    ensures Filter(rows, keep) == [rows[0]]
  {
    assert rows[..1] == [rows[0]] && rows[..1][..0] == [];
    assert Filter(rows[..1][..0], keep) == [];
    assert Filter(rows[..1], keep) == [rows[0]];
  }

  // The first of the two on its own.
  lemma FirstAloneFires(now: int)
    ensures AfterTicks([Only(TwoRules(now), 1)]).fires == [Fire(1, now, 3600, true)]
  {
    var r, q := Row(1, true, 3600, true, true, Breached(true)), Row(2, true, 3600, true, false, Quiet);
    var t := Only(TwoRules(now), 1);
    FilterPair([r, q], (x: Row) => x.id == 1);
    FilterPair([r], (x: Row) => x.enabled);
    assert t == Tick(now, Some([r]), Some([]));
    assert EnabledIn([r]) == [r] && RowDecodes(r) && r in [r];
    assert Load(t) == Cycle(now, [Loaded(1, 3600, Breached(true), [])]);
    OneRule(map[], START, now, Loaded(1, 3600, Breached(true), []));
    var c := Load(t);
    assert Loads([t]) == [c] && [c][..0] == [];
    assert AfterCycles([c]) == AfterCycle(AfterCycles([c][..0]), c);
  }

  /** Two rules that show it, at whatever times: the first fires if it is the only
      one, and never beside the second. */
  lemma UnreadableRuleSilencesAnother(times: seq<int>)
    requires times != []
    ensures var ticks := seq(|times|, i requires 0 <= i < |times| => TwoRules(times[i]));
            && AfterTicks(ticks).fires == []
            && AfterTicks(OnlyInAll(ticks, 1)[..1]).fires == [Fire(1, times[0], 3600, true)]
  {
    var ticks := seq(|times|, i requires 0 <= i < |times| => TwoRules(times[i]));
    forall i | 0 <= i < |ticks|
      ensures KeyedTick(ticks[i]) && Spoiled(ticks[i])
    {
      assert ticks[i].rows.value[1] in ticks[i].rows.value;
    }
    OneUnreadableRuleStopsAll([], ticks);
    assert [] + ticks == ticks;
    FirstAloneFires(times[0]);
    assert OnlyInAll(ticks, 1)[..1] == [Only(TwoRules(times[0]), 1)];
  }
}
