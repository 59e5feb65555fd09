/** What the breakdown query says about the events, told on their own columns: the
    groups by one dimension, and how the groups by two hang together. */
module Breakdown {
  import opened Common
  import opened Rollup

  // The events of the organisation on the days, by the plain arithmetic of dates.
  predicate InWindow(e: Event, org: string, from: int, to: int) {
    e.org == org && from <= e.ts / DAY <= to
  }

  lemma WindowIsDays(ts: int, from: int, to: int)
    ensures from * DAY <= ts < to * DAY + DAY <==> from <= ts / DAY <= to
  {
  }

  lemma SameEventsSameAnswer(events: seq<Event>, p: Event -> bool, q: Event -> bool)
    requires forall e :: p(e) == q(e)
    ensures FromEvents(events, p) == FromEvents(events, q)
  {
    EventSumOfSame(events, p, q, Cost);
    EventSumOfSame(events, p, q, Requests);
    assert AnyEvent(events, p) <==> AnyEvent(events, q);
  }

  // The answer for one dimension is about the events that pass the test.
  ghost predicate AnswersFor(s: Store, org: string, from: int, to: int, d: Dim, x: string, test: Event -> bool) {
    GetBreakdown(s, Query(org, from, to, d, None), Group(x, None))
    == FromEvents(s.events, (e: Event) => InWindow(e, org, from, to) && test(e))
  }

  /** By one dimension, a breakdown's group is the events of the days whose own
      column has the group's value. */
  lemma GroupsAreColumns(steps: seq<Step>, org: string, from: int, to: int, x: string)
    requires IsRun(steps)
    ensures var s := StoreOf(steps);
            && AnswersFor(s, org, from, to, Customer, x, (e: Event) => e.customer == x)
            && AnswersFor(s, org, from, to, Feature, x, (e: Event) => e.feature == x)
            && AnswersFor(s, org, from, to, Team, x, (e: Event) => e.team == x)
            && AnswersFor(s, org, from, to, Model, x, (e: Event) => e.model == x)
            && AnswersFor(s, org, from, to, Provider, x, (e: Event) => e.provider == x)
  {
    OneColumn(steps, org, from, to, Customer, x, (e: Event) => e.customer == x);
    OneColumn(steps, org, from, to, Feature, x, (e: Event) => e.feature == x);
    OneColumn(steps, org, from, to, Team, x, (e: Event) => e.team == x);
    OneColumn(steps, org, from, to, Model, x, (e: Event) => e.model == x);
    OneColumn(steps, org, from, to, Provider, x, (e: Event) => e.provider == x);
  }

  lemma OneColumn(steps: seq<Step>, org: string, from: int, to: int, d: Dim, x: string, test: Event -> bool)
    requires IsRun(steps) && forall e :: test(e) <==> EventDim(e, d) == x
    ensures AnswersFor(StoreOf(steps), org, from, to, d, x, test)
  {
    var q, g := Query(org, from, to, d, None), Group(x, None);
    BreakdownIsRaw(steps, q, g);
    forall e: Event
      ensures EventPick(q, g)(e) == (InWindow(e, org, from, to) && test(e))
    {
      WindowIsDays(e.ts, from, to);
    }
    SameEventsSameAnswer(StoreOf(steps).events, EventPick(q, g), (e: Event) => InWindow(e, org, from, to) && test(e));
  }

  // The events in a two-dimensional group.
  function InBoth(org: string, from: int, to: int, a: Dim, x: string, b: Dim, y: string): Event -> bool {
    (e: Event) => InWindow(e, org, from, to) && EventDim(e, a) == x && EventDim(e, b) == y
  }

  lemma TwoColumns(steps: seq<Step>, org: string, from: int, to: int, a: Dim, x: string, b: Dim, y: string)
    requires IsRun(steps)
    ensures GetBreakdown(StoreOf(steps), Query(org, from, to, a, Some(b)), Group(x, Some(y)))
         == FromEvents(StoreOf(steps).events, InBoth(org, from, to, a, x, b, y))
  {
    var q, g := Query(org, from, to, a, Some(b)), Group(x, Some(y));
    BreakdownIsRaw(steps, q, g);
    forall e: Event
      ensures EventPick(q, g)(e) == InBoth(org, from, to, a, x, b, y)(e)
    {
      WindowIsDays(e.ts, from, to);
    }
    SameEventsSameAnswer(StoreOf(steps).events, EventPick(q, g), InBoth(org, from, to, a, x, b, y));
  }

  /** Exchanging the two dimensions, and the two values of the group with them,
      changes no answer, although it may be taken from another table. */
  lemma DimensionsCommute(steps: seq<Step>, org: string, from: int, to: int, a: Dim, x: string, b: Dim, y: string)
    requires IsRun(steps)
    ensures GetBreakdown(StoreOf(steps), Query(org, from, to, a, Some(b)), Group(x, Some(y)))
         == GetBreakdown(StoreOf(steps), Query(org, from, to, b, Some(a)), Group(y, Some(x)))
  {
    TwoColumns(steps, org, from, to, a, x, b, y);
    TwoColumns(steps, org, from, to, b, y, a, x);
    SameEventsSameAnswer(StoreOf(steps).events, InBoth(org, from, to, a, x, b, y), InBoth(org, from, to, b, y, a, x));
  }

  function AmountIn(a: Option<Answer>, column: Column): int {
    if a.None? then 0 else if column.Cost? then a.value.cost else a.value.requests
  }

  ghost function GroupAmount(s: Store, org: string, from: int, to: int, a: Dim, x: string, b: Dim, y: string,
        column: Column): int
  {
    AmountIn(GetBreakdown(s, Query(org, from, to, a, Some(b)), Group(x, Some(y))), column)
  }

  // The answers by a and b for x and each of the values, added up.
  ghost function AddedUp(s: Store, org: string, from: int, to: int, a: Dim, x: string, b: Dim, values: seq<string>,
        column: Column): int
  {
    if values == [] then 0
    else
      var n := |values| - 1;
      AddedUp(s, org, from, to, a, x, b, values[..n], column)
      + GroupAmount(s, org, from, to, a, x, b, values[n], column)
  }

  lemma AmountOfEvents(events: seq<Event>, p: Event -> bool, column: Column)
    ensures AmountIn(FromEvents(events, p), column) == EventSum(events, p, column)
  {
    if !AnyEvent(events, p) {
      EventSumOfNone(events, p, column);
    }
  }

  // And in any of several.
  function InSome(org: string, from: int, to: int, a: Dim, x: string, b: Dim, values: seq<string>): Event -> bool {
    (e: Event) => InWindow(e, org, from, to) && EventDim(e, a) == x && EventDim(e, b) in values
  }

  lemma OneMoreGroup(e: Event, org: string, from: int, to: int, a: Dim, x: string, b: Dim, values: seq<string>,
        y: string)
    requires y !in values
    ensures SplitsOne(e, InSome(org, from, to, a, x, b, values), InBoth(org, from, to, a, x, b, y),
                      InSome(org, from, to, a, x, b, values + [y]))
  {
  }

  lemma OneMoreGroupSum(events: seq<Event>, org: string, from: int, to: int, a: Dim, x: string, b: Dim,
        values: seq<string>, y: string, column: Column)
    requires y !in values
    ensures EventSum(events, InSome(org, from, to, a, x, b, values + [y]), column)
         == EventSum(events, InSome(org, from, to, a, x, b, values), column)
          + EventSum(events, InBoth(org, from, to, a, x, b, y), column)
  {
    var before, last := InSome(org, from, to, a, x, b, values), InBoth(org, from, to, a, x, b, y);
    forall i | 0 <= i < |events|
      ensures SplitsOne(events[i], before, last, InSome(org, from, to, a, x, b, values + [y]))
    {
      OneMoreGroup(events[i], org, from, to, a, x, b, values, y);
    }
    EventSumSplits(events, before, last, InSome(org, from, to, a, x, b, values + [y]), column);
  }

  lemma {:induction false} AddedUpIsSum(steps: seq<Step>, org: string, from: int, to: int, a: Dim, x: string, b: Dim,
        values: seq<string>, column: Column)
    requires IsRun(steps) && forall i, j :: 0 <= i < j < |values| ==> values[i] != values[j]
    ensures AddedUp(StoreOf(steps), org, from, to, a, x, b, values, column)
         == EventSum(StoreOf(steps).events, InSome(org, from, to, a, x, b, values), column)
  {
    var s := StoreOf(steps);
    if values == [] {
      EventSumOfNone(s.events, InSome(org, from, to, a, x, b, []), column);
    } else {
      var n := |values| - 1;
      var init, y := values[..n], values[n];
      AddedUpIsSum(steps, org, from, to, a, x, b, init, column);
      GroupSum(steps, org, from, to, a, x, b, y, column);
      assert values == init + [y];
      OneMoreGroupSum(s.events, org, from, to, a, x, b, init, y, column);
      assert AddedUp(s, org, from, to, a, x, b, values, column)
          == AddedUp(s, org, from, to, a, x, b, init, column) + GroupAmount(s, org, from, to, a, x, b, y, column);
    }
  }

  lemma GroupSum(steps: seq<Step>, org: string, from: int, to: int, a: Dim, x: string, b: Dim, y: string,
        column: Column)
    requires IsRun(steps)
    ensures GroupAmount(StoreOf(steps), org, from, to, a, x, b, y, column)
         == EventSum(StoreOf(steps).events, InBoth(org, from, to, a, x, b, y), column)
  {
    TwoColumns(steps, org, from, to, a, x, b, y);
    AmountOfEvents(StoreOf(steps).events, InBoth(org, from, to, a, x, b, y), column);
  }

  /** The groups by two dimensions, added up over every value of the second, are the
      group by the first alone, in cost and in requests. */
  lemma SecondDimensionAddsUp(steps: seq<Step>, org: string, from: int, to: int, a: Dim, x: string, b: Dim,
        values: seq<string>, column: Column)
    requires IsRun(steps) && forall i, j :: 0 <= i < j < |values| ==> values[i] != values[j]
    requires forall e :: e in StoreOf(steps).events ==> EventDim(e, b) in values
    ensures AddedUp(StoreOf(steps), org, from, to, a, x, b, values, column)
         == AmountIn(GetBreakdown(StoreOf(steps), Query(org, from, to, a, None), Group(x, None)), column)
  {
    var events := StoreOf(steps).events;
    var one := (e: Event) => InWindow(e, org, from, to) && EventDim(e, a) == x;
    AddedUpIsSum(steps, org, from, to, a, x, b, values, column);
    OneColumn(steps, org, from, to, a, x, (e: Event) => EventDim(e, a) == x);
    var own := (e: Event) => InWindow(e, org, from, to) && ((e: Event) => EventDim(e, a) == x)(e);
    AmountOfEvents(events, own, column);
    EventSumOfSame(events, own, one, column);
    EventSumOfSame(events, one, InSome(org, from, to, a, x, b, values), column);
  }

  /** One event is one request at its own cost, and answers add up over events. */
  lemma AnswersCount(events: seq<Event>, e: Event, pick: Event -> bool)
    ensures FromEvents([e], pick) == if pick(e) then Some(Answer(e.cost, 1)) else None
    ensures AmountIn(FromEvents(events + [e], pick), Cost)
         == AmountIn(FromEvents(events, pick), Cost) + if pick(e) then e.cost else 0
    ensures AmountIn(FromEvents(events + [e], pick), Requests)
         == AmountIn(FromEvents(events, pick), Requests) + if pick(e) then 1 else 0
  {
    LastIsLast(events, e);
    assert [e][..0] == [] && [e][0] == e;
    forall column: Column
      ensures AmountIn(FromEvents(events + [e], pick), column) == EventSum(events + [e], pick, column)
      ensures AmountIn(FromEvents(events, pick), column) == EventSum(events, pick, column)
    {
      AmountOfEvents(events + [e], pick, column);
      AmountOfEvents(events, pick, column);
    }
    assert EventSum([e][..0], pick, Cost) == 0 == EventSum([e][..0], pick, Requests);
    assert AnyEvent([e], pick) <==> pick(e);
  }
}
