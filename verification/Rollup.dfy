/** The materialised rollups of the events table, and the breakdown query that
    chooses between them and the raw events.  Times are UTC. */
module Rollup {
  import opened Common

  const HOUR: int := 3_600_000
  const DAY: int := 86_400_000

  // ts in milliseconds, cost in units of 10^-10 dollars.
  datatype Event = Event(
    org: string,
    ts: int,
    provider: string,
    model: string,
    customer: string,
    feature: string,
    team: string,
    cost: int)

  // A rollup row: its key and its summing columns.
  datatype Row<K> = Row(key: K, cost: int, requests: int)

  datatype Column = Cost | Requests

  datatype DailyKey = DailyKey(org: string, date: int, provider: string, model: string)

  datatype AttrKey = AttrKey(org: string, hour: int, customer: string, feature: string, team: string)

  // toDate, as a day number, and toStartOfHour.
  function DailyKeyOf(e: Event): DailyKey {
    DailyKey(e.org, e.ts / DAY, e.provider, e.model)
  }

  function AttrKeyOf(e: Event): AttrKey {
    AttrKey(e.org, e.ts / HOUR * HOUR, e.customer, e.feature, e.team)
  }

  // -------------------------------------------------------------------- sums

  // An event counts as one request.
  function EventValue(e: Event, column: Column): int {
    if column.Cost? then e.cost else 1
  }

  function RowValue<K>(r: Row<K>, column: Column): int {
    if column.Cost? then r.cost else r.requests
  }

  // sum(cost_usd) or count() of the picked events.
  function EventSum(events: seq<Event>, pick: Event -> bool, column: Column): (v: int)
    ensures column.Requests? ==> v >= 0
  {
    if events == [] then 0
    else
      var n := |events| - 1;
      EventSum(events[..n], pick, column) + if pick(events[n]) then EventValue(events[n], column) else 0
  }

  // sum(cost_usd) or sum(requests) of the picked rows.
  function RowSum<K(!new)>(rows: seq<Row<K>>, pick: K -> bool, column: Column): int {
    if rows == [] then 0
    else
      var n := |rows| - 1;
      RowSum(rows[..n], pick, column) + if pick(rows[n].key) then RowValue(rows[n], column) else 0
  }

  // Picking events by their rollup key.
  function ByKey<K>(key: Event -> K, pick: K -> bool): Event -> bool {
    (e: Event) => pick(key(e))
  }

  // The rows that a view makes of one inserted batch, in any order: one for
  // every key, with the sums of the key's events.
  ghost predicate Groups<K(!new)>(batch: seq<Event>, key: Event -> K, rows: seq<Row<K>>) {
    && (forall i, j :: 0 <= i < j < |rows| ==> rows[i].key != rows[j].key)
    && (forall r :: r in rows ==> SumsKey(batch, key, r))
    && (forall e :: e in batch ==> HasKey(rows, key(e)))
  }

  ghost predicate SumsKey<K(!new)>(batch: seq<Event>, key: Event -> K, r: Row<K>) {
    && r.cost == EventSum(batch, (e: Event) => key(e) == r.key, Cost)
    && r.requests == EventSum(batch, (e: Event) => key(e) == r.key, Requests)
    && r.requests >= 1
  }

  ghost predicate HasKey<K(!new)>(rows: seq<Row<K>>, k: K) {
    exists r :: r in rows && r.key == k
  }

  lemma {:induction false} EventSumOfSame(events: seq<Event>, p: Event -> bool, q: Event -> bool, column: Column)
    requires forall i :: 0 <= i < |events| ==> p(events[i]) == q(events[i])
    ensures EventSum(events, p, column) == EventSum(events, q, column)
  {
    if events != [] {
      var init := events[..|events| - 1];
      assert forall i :: 0 <= i < |init| ==> init[i] == events[i];
      EventSumOfSame(init, p, q, column);
    }
  }

  // No event is picked twice, and r picks what p or q picks.
  ghost predicate Splits(events: seq<Event>, p: Event -> bool, q: Event -> bool, r: Event -> bool) {
    forall i :: 0 <= i < |events| ==> SplitsOne(events[i], p, q, r)
  }

  ghost predicate SplitsOne(e: Event, p: Event -> bool, q: Event -> bool, r: Event -> bool) {
    !(p(e) && q(e)) && r(e) == (p(e) || q(e))
  }

  lemma {:induction false} EventSumSplits(events: seq<Event>, p: Event -> bool, q: Event -> bool, r: Event -> bool,
        column: Column)
    requires Splits(events, p, q, r)
    ensures EventSum(events, r, column) == EventSum(events, p, column) + EventSum(events, q, column)
  {
    if events != [] {
      var n := |events| - 1;
      var init := events[..n];
      assert forall i :: 0 <= i < |init| ==> init[i] == events[i];
      assert SplitsOne(events[n], p, q, r);
      EventSumSplits(init, p, q, r, column);
    }
  }

  lemma {:induction false} EventSumOfNone(events: seq<Event>, p: Event -> bool, column: Column)
    requires forall i :: 0 <= i < |events| ==> !p(events[i])
    ensures EventSum(events, p, column) == 0
  {
    if events != [] {
      var init := events[..|events| - 1];
      assert forall i :: 0 <= i < |init| ==> init[i] == events[i];
      EventSumOfNone(init, p, column);
    }
  }

  lemma {:induction false} EventSumConcat(a: seq<Event>, b: seq<Event>, p: Event -> bool, column: Column)
    ensures EventSum(a + b, p, column) == EventSum(a, p, column) + EventSum(b, p, column)
  {
    if b == [] {
      assert a + b == a;
    } else {
      var n := |b| - 1;
      assert (a + b)[..|a| + n] == a + b[..n];
      EventSumConcat(a, b[..n], p, column);
    }
  }

  lemma {:induction false} RowSumConcat<K(!new)>(a: seq<Row<K>>, b: seq<Row<K>>, p: K -> bool, column: Column)
    ensures RowSum(a + b, p, column) == RowSum(a, p, column) + RowSum(b, p, column)
  {
    if b == [] {
      assert a + b == a;
    } else {
      var n := |b| - 1;
      assert (a + b)[..|a| + n] == a + b[..n];
      RowSumConcat(a, b[..n], p, column);
    }
  }

  // Rows with different keys, each the sum of its key's events, sum up to the
  // events that have one of the keys.
  lemma {:induction false} KeySums<K(!new)>(batch: seq<Event>, key: Event -> K, rows: seq<Row<K>>, pick: K -> bool,
        column: Column)
    requires forall i, j :: 0 <= i < j < |rows| ==> rows[i].key != rows[j].key
    requires forall r :: r in rows ==> SumsKey(batch, key, r)
    ensures RowSum(rows, pick, column) == EventSum(batch, (e: Event) => pick(key(e)) && HasKey(rows, key(e)), column)
    decreases |rows|
  {
    var all := (e: Event) => pick(key(e)) && HasKey(rows, key(e));
    if rows == [] {
      EventSumOfNone(batch, all, column);
    } else {
      var n := |rows| - 1;
      var init, last := rows[..n], rows[n];
      var old' := (e: Event) => pick(key(e)) && HasKey(init, key(e));
      var new' := (e: Event) => pick(last.key) && key(e) == last.key;
      assert last in rows && SumsKey(batch, key, last);
      assert forall r :: r in init ==> r in rows;
      KeySums(batch, key, init, pick, column);
      forall i | 0 <= i < |batch|
        ensures SplitsOne(batch[i], old', new', all)
      {
        HasKeyMore(rows, key(batch[i]));
        HasKeyBefore(rows, n, key(batch[i]));
      }
      EventSumSplits(batch, old', new', all, column);
      if pick(last.key) {
        EventSumOfSame(batch, new', (e: Event) => key(e) == last.key, column);
      } else {
        EventSumOfNone(batch, new', column);
      }
    }
  }

  // A key before the last row is not the last row's.
  lemma HasKeyBefore<K(!new)>(rows: seq<Row<K>>, n: nat, k: K)
    requires n < |rows| && forall i, j :: 0 <= i < j < |rows| ==> rows[i].key != rows[j].key
    ensures HasKey(rows[..n], k) ==> rows[n].key != k
  {
  }

  lemma HasKeyMore<K(!new)>(rows: seq<Row<K>>, k: K)
    requires rows != []
    ensures var n := |rows| - 1;
            HasKey(rows, k) <==> HasKey(rows[..n], k) || rows[n].key == k
  {
  }

  /** The view's rows for a batch sum up to the batch. */
  lemma GroupsSumUp<K(!new)>(batch: seq<Event>, key: Event -> K, rows: seq<Row<K>>,
        pick: K -> bool, column: Column)
    requires Groups(batch, key, rows)
    ensures RowSum(rows, pick, column) == EventSum(batch, ByKey(key, pick), column)
  {
    KeySums(batch, key, rows, pick, column);
    EventSumOfSame(batch, (e: Event) => pick(key(e)) && HasKey(rows, key(e)), ByKey(key, pick), column);
  }

  // --------------------------------------------------------- background merging

  // What the merge of two equal-key rows leaves.
  function Merged<K(!new)>(rows: seq<Row<K>>, i: nat, j: nat): seq<Row<K>>
    requires i < j < |rows|
  {
    var row := Row(rows[i].key, rows[i].cost + rows[j].cost, rows[i].requests + rows[j].requests);
    rows[..i] + [row] + (rows[i + 1..j] + rows[j + 1..])
  }

  lemma RowSumOfParts<K(!new)>(a: seq<Row<K>>, x: Row<K>, b: seq<Row<K>>, p: K -> bool,
        column: Column)
    ensures RowSum(a + [x] + b, p, column) == RowSum(a, p, column) + RowSum([x], p, column) + RowSum(b, p, column)
  {
    RowSumConcat(a, [x], p, column);
    RowSumConcat(a + [x], b, p, column);
  }

  lemma RowSumOfOne<K(!new)>(x: Row<K>, p: K -> bool, column: Column)
    ensures RowSum([x], p, column) == if p(x.key) then RowValue(x, column) else 0
  {
  }

  lemma TwoRows<K(!new)>(rows: seq<Row<K>>, i: nat, j: nat)
    requires i < j < |rows|
    ensures rows == rows[..i] + [rows[i]] + (rows[i + 1..j] + [rows[j]] + rows[j + 1..])
  {
  }

  lemma MergeKeepsSums<K(!new)>(rows: seq<Row<K>>, i: nat, j: nat, p: K -> bool, column: Column)
    requires i < j < |rows| && rows[i].key == rows[j].key
    ensures RowSum(Merged(rows, i, j), p, column) == RowSum(rows, p, column)
  {
    var a, b, c := rows[..i], rows[i + 1..j], rows[j + 1..];
    var y, z := rows[i], rows[j];
    TwoRows(rows, i, j);
    MergeOfParts(a, y, b, z, c, p, column);
  }

  lemma MergeOfParts<K(!new)>(a: seq<Row<K>>, y: Row<K>, b: seq<Row<K>>, z: Row<K>, c: seq<Row<K>>,
        p: K -> bool, column: Column)
    requires y.key == z.key
    ensures RowSum(a + [Row(y.key, y.cost + z.cost, y.requests + z.requests)] + (b + c), p, column)
         == RowSum(a + [y] + (b + [z] + c), p, column)
  {
    var x := Row(y.key, y.cost + z.cost, y.requests + z.requests);
    RowSumOfParts(a, y, b + [z] + c, p, column);
    RowSumOfParts(b, z, c, p, column);
    RowSumOfParts(a, x, b + c, p, column);
    RowSumConcat(b, c, p, column);
    RowSumOfOne(y, p, column);
    RowSumOfOne(z, p, column);
    RowSumOfOne(x, p, column);
  }

  lemma TakeOne<K(!new)>(rows: seq<Row<K>>, k: nat)
    requires k < |rows|
    ensures rows == rows[..k] + [rows[k]] + rows[k + 1..]
    ensures multiset(rows[..k] + rows[k + 1..]) == multiset(rows) - multiset{rows[k]}
  {
    assert rows == rows[..k] + [rows[k]] + rows[k + 1..];
  }

  lemma TakenSum<K(!new)>(rows: seq<Row<K>>, k: nat, p: K -> bool, column: Column)
    requires k < |rows|
    ensures RowSum(rows, p, column)
         == RowSum(rows[..k] + rows[k + 1..], p, column) + RowSum([rows[k]], p, column)
  {
    TakeOne(rows, k);
    RowSumOfParts(rows[..k], rows[k], rows[k + 1..], p, column);
    RowSumConcat(rows[..k], rows[k + 1..], p, column);
  }

  lemma {:induction false} OrderKeepsSums<K(!new)>(rows: seq<Row<K>>, others: seq<Row<K>>, p: K -> bool, column: Column)
    requires multiset(rows) == multiset(others)
    ensures RowSum(rows, p, column) == RowSum(others, p, column)
    decreases |rows|
  {
    if rows == [] {
      assert |multiset(others)| == |others|;
    } else {
      assert rows[0] in multiset(others);
      var k :| 0 <= k < |others| && others[k] == rows[0];
      TakeOne(rows, 0);
      TakeOne(others, k);
      OrderKeepsSums(rows[..0] + rows[1..], others[..k] + others[k + 1..], p, column);
      TakenSum(rows, 0, p, column);
      TakenSum(others, k, p, column);
    }
  }

  // ----------------------------------------------------------------- the store

  datatype Store = Store(events: seq<Event>, daily: seq<Row<DailyKey>>, attr: seq<Row<AttrKey>>)

  const EMPTY: Store := Store([], [], [])

  // An insert feeds both views.  The engine may at any time merge rows of one
  // key, reorder rows, or drop a row whose summing columns are all zero.
  datatype Step =
    | Insert(batch: seq<Event>, daily: seq<Row<DailyKey>>, attr: seq<Row<AttrKey>>)
    | MergeDaily(i: nat, j: nat)
    | MergeAttr(i: nat, j: nat)
    | OrderDaily(daily: seq<Row<DailyKey>>)
    | OrderAttr(attr: seq<Row<AttrKey>>)
    | DropDaily(i: nat)
    | DropAttr(i: nat)

  predicate CanMerge<K(==)>(rows: seq<Row<K>>, i: nat, j: nat) {
    i < j < |rows| && rows[i].key == rows[j].key
  }

  predicate CanDrop<K>(rows: seq<Row<K>>, i: nat) {
    i < |rows| && rows[i].cost == 0 && rows[i].requests == 0
  }

  ghost predicate Can(s: Store, step: Step) {
    match step
    case Insert(batch, daily, attr) => Groups(batch, DailyKeyOf, daily) && Groups(batch, AttrKeyOf, attr)
    case MergeDaily(i, j) => CanMerge(s.daily, i, j)
    case MergeAttr(i, j) => CanMerge(s.attr, i, j)
    case OrderDaily(daily) => multiset(daily) == multiset(s.daily)
    case OrderAttr(attr) => multiset(attr) == multiset(s.attr)
    case DropDaily(i) => CanDrop(s.daily, i)
    case DropAttr(i) => CanDrop(s.attr, i)
  }

  ghost function After(s: Store, step: Step): Store
    requires Can(s, step)
  {
    match step
    case Insert(batch, daily, attr) => Store(s.events + batch, s.daily + daily, s.attr + attr)
    case MergeDaily(i, j) => s.(daily := Merged(s.daily, i, j))
    case MergeAttr(i, j) => s.(attr := Merged(s.attr, i, j))
    case OrderDaily(daily) => s.(daily := daily)
    case OrderAttr(attr) => s.(attr := attr)
    case DropDaily(i) => s.(daily := s.daily[..i] + s.daily[i + 1..])
    case DropAttr(i) => s.(attr := s.attr[..i] + s.attr[i + 1..])
  }

  ghost predicate IsRun(steps: seq<Step>)
    decreases |steps|, 0
  {
    steps == [] || (var n := |steps| - 1; IsRun(steps[..n]) && Can(StoreOf(steps[..n]), steps[n]))
  }

  ghost function StoreOf(steps: seq<Step>): Store
    requires IsRun(steps)
    decreases |steps|, 1
  {
    if steps == [] then EMPTY else After(StoreOf(steps[..|steps| - 1]), steps[|steps| - 1])
  }

  // Every batch inserted, in order.
  function Inserted(steps: seq<Step>): seq<Event> {
    if steps == [] then []
    else
      var n := |steps| - 1;
      Inserted(steps[..n]) + if steps[n].Insert? then steps[n].batch else []
  }

  /** The events table holds what was inserted, whatever the engine does to the
      rollups. */
  lemma {:induction false} EventsAreInserts(steps: seq<Step>)
    requires IsRun(steps)
    ensures StoreOf(steps).events == Inserted(steps)
  {
    if steps != [] {
      EventsAreInserts(steps[..|steps| - 1]);
    }
  }

  // The engine's steps: a merge leaves one row for two, and so on.
  lemma EngineStepsChangeRows(s: Store, step: Step)
    requires Can(s, step)
    ensures var s' := After(s, step);
            match step
            case Insert(_, daily, attr) =>
              |s'.daily| == |s.daily| + |daily| && |s'.attr| == |s.attr| + |attr|
            case MergeDaily(i, j) => |s'.daily| == |s.daily| - 1 && s'.attr == s.attr
            case MergeAttr(i, j) => |s'.attr| == |s.attr| - 1 && s'.daily == s.daily
            case OrderDaily(daily) => s'.daily == daily && s'.attr == s.attr
            case OrderAttr(attr) => s'.attr == attr && s'.daily == s.daily
            case DropDaily(_) => |s'.daily| == |s.daily| - 1 && s'.attr == s.attr
            case DropAttr(_) => |s'.attr| == |s.attr| - 1 && s'.daily == s.daily
  {
  }

  // ---------------------------------------------------------- rollup equals raw

  ghost predicate Counting<K(!new)>(rows: seq<Row<K>>) {
    forall i :: 0 <= i < |rows| ==> rows[i].requests >= 1
  }

  lemma MergeKeepsCounting<K(!new)>(rows: seq<Row<K>>, i: nat, j: nat)
    requires Counting(rows) && i < j < |rows|
    ensures Counting(Merged(rows, i, j))
  {
  }

  lemma OrderKeepsCounting<K(!new)>(rows: seq<Row<K>>, others: seq<Row<K>>)
    requires Counting(rows) && multiset(rows) == multiset(others)
    ensures Counting(others)
  {
    forall i | 0 <= i < |others|
      ensures others[i].requests >= 1
    {
      assert others[i] in multiset(rows);
    }
  }

  lemma GroupsCount<K(!new)>(batch: seq<Event>, key: Event -> K, rows: seq<Row<K>>,
        more: seq<Row<K>>)
    requires Counting(rows) && Groups(batch, key, more)
    ensures Counting(rows + more)
  {
    forall i | 0 <= i < |more|
      ensures more[i].requests >= 1
    {
      assert more[i] in more && SumsKey(batch, key, more[i]);
    }
  }

  /** No row of a rollup is ever empty, so the engine never drops one. */
  lemma {:induction false} RowsCount(steps: seq<Step>)
    requires IsRun(steps)
    ensures Counting(StoreOf(steps).daily) && Counting(StoreOf(steps).attr)
  {
    if steps != [] {
      var n := |steps| - 1;
      RowsCount(steps[..n]);
      var s := StoreOf(steps[..n]);
      match steps[n]
      case Insert(batch, daily, attr) =>
        GroupsCount(batch, DailyKeyOf, s.daily, daily);
        GroupsCount(batch, AttrKeyOf, s.attr, attr);
      case MergeDaily(i, j) => MergeKeepsCounting(s.daily, i, j);
      case MergeAttr(i, j) => MergeKeepsCounting(s.attr, i, j);
      case OrderDaily(daily) => OrderKeepsCounting(s.daily, daily);
      case OrderAttr(attr) => OrderKeepsCounting(s.attr, attr);
      case DropDaily(i) =>
      case DropAttr(i) =>
    }
  }

  lemma InsertKeepsEqual<K(!new)>(events: seq<Event>, rows: seq<Row<K>>, batch: seq<Event>,
        key: Event -> K, more: seq<Row<K>>, pick: K -> bool, column: Column)
    requires Groups(batch, key, more)
    requires RowSum(rows, pick, column) == EventSum(events, ByKey(key, pick), column)
    ensures RowSum(rows + more, pick, column) == EventSum(events + batch, ByKey(key, pick), column)
  {
    GroupsSumUp(batch, key, more, pick, column);
    RowSumConcat(rows, more, pick, column);
    EventSumConcat(events, batch, ByKey(key, pick), column);
  }

  ghost predicate DailyMatches(s: Store, pick: DailyKey -> bool, column: Column) {
    RowSum(s.daily, pick, column) == EventSum(s.events, ByKey(DailyKeyOf, pick), column)
  }

  ghost predicate AttrMatches(s: Store, pick: AttrKey -> bool, column: Column) {
    RowSum(s.attr, pick, column) == EventSum(s.events, ByKey(AttrKeyOf, pick), column)
  }

  lemma StepKeepsDaily(s: Store, step: Step, pick: DailyKey -> bool, column: Column)
    requires Can(s, step) && Counting(s.daily) && DailyMatches(s, pick, column)
    ensures DailyMatches(After(s, step), pick, column)
  {
    match step
    case Insert(batch, daily, attr) => InsertKeepsEqual(s.events, s.daily, batch, DailyKeyOf, daily, pick, column);
    case MergeDaily(i, j) => MergeKeepsSums(s.daily, i, j, pick, column);
    case OrderDaily(daily) => OrderKeepsSums(daily, s.daily, pick, column);
    case _ =>
  }

  lemma StepKeepsAttr(s: Store, step: Step, pick: AttrKey -> bool, column: Column)
    requires Can(s, step) && Counting(s.attr) && AttrMatches(s, pick, column)
    ensures AttrMatches(After(s, step), pick, column)
  {
    match step
    case Insert(batch, daily, attr) => InsertKeepsEqual(s.events, s.attr, batch, AttrKeyOf, attr, pick, column);
    case MergeAttr(i, j) => MergeKeepsSums(s.attr, i, j, pick, column);
    case OrderAttr(attr) => OrderKeepsSums(attr, s.attr, pick, column);
    case _ =>
  }

  lemma EmptyMatches(daily: DailyKey -> bool, attr: AttrKey -> bool, column: Column)
    ensures DailyMatches(EMPTY, daily, column) && AttrMatches(EMPTY, attr, column)
  {
  }

  /** After any inserts and any merging, any selection by key sums to the same
      amount in the rollups as in the raw events. */
  lemma {:induction false} RollupsEqualRaw(steps: seq<Step>, daily: DailyKey -> bool, attr: AttrKey -> bool,
        column: Column)
    requires IsRun(steps)
    ensures DailyMatches(StoreOf(steps), daily, column) && AttrMatches(StoreOf(steps), attr, column)
  {
    EmptyMatches(daily, attr, column);
    if steps != [] {
      var n := |steps| - 1;
      RollupsEqualRaw(steps[..n], daily, attr, column);
      RowsCount(steps[..n]);
      StepKeepsDaily(StoreOf(steps[..n]), steps[n], daily, column);
      StepKeepsAttr(StoreOf(steps[..n]), steps[n], attr, column);
    }
  }

  // --------------------------------------------------------------- the breakdown

  datatype Dim = Customer | Feature | Team | Model | Provider

  // The dimensions of cost_daily; the others are those of cost_attr_hourly.
  predicate IsDaily(d: Dim) {
    d.Model? || d.Provider?
  }

  // from and to are days, both included.
  datatype Query = Query(org: string, from: int, to: int, primary: Dim, secondary: Option<Dim>)

  // The values a group has in the primary and the secondary dimension.
  datatype Group = Group(primary: string, secondary: Option<string>)

  datatype Answer = Answer(cost: int, requests: int)

  function EventDim(e: Event, d: Dim): string {
    match d
    case Customer => e.customer
    case Feature => e.feature
    case Team => e.team
    case Model => e.model
    case Provider => e.provider
  }

  function DailyDim(k: DailyKey, d: Dim): string {
    if d.Model? then k.model else k.provider
  }

  function AttrDim(k: AttrKey, d: Dim): string {
    if d.Customer? then k.customer else if d.Feature? then k.feature else k.team
  }

  predicate InGroup(g: Group, q: Query, value: Dim -> string) {
    && g.primary == value(q.primary)
    && g.secondary == if q.secondary.None? then None else Some(value(q.secondary.value))
  }

  function EventPick(q: Query, g: Group): Event -> bool {
    (e: Event) => e.org == q.org && q.from * DAY <= e.ts < q.to * DAY + DAY && InGroup(g, q, d => EventDim(e, d))
  }

  function DailyPick(q: Query, g: Group): DailyKey -> bool {
    (k: DailyKey) => k.org == q.org && q.from <= k.date <= q.to && InGroup(g, q, d => DailyDim(k, d))
  }

  function AttrPick(q: Query, g: Group): AttrKey -> bool {
    (k: AttrKey) => k.org == q.org && q.from * DAY <= k.hour < q.to * DAY + DAY && InGroup(g, q, d => AttrDim(k, d))
  }

  ghost predicate AnyRow<K(!new)>(rows: seq<Row<K>>, pick: K -> bool) {
    exists i :: 0 <= i < |rows| && pick(rows[i].key)
  }

  ghost predicate AnyEvent(events: seq<Event>, pick: Event -> bool) {
    exists i :: 0 <= i < |events| && pick(events[i])
  }

  // A GROUP BY over rows: a group is in the answer if any row is in the group.
  ghost function FromRows<K(!new)>(rows: seq<Row<K>>, pick: K -> bool): Option<Answer> {
    if AnyRow(rows, pick) then Some(Answer(RowSum(rows, pick, Cost), RowSum(rows, pick, Requests))) else None
  }

  ghost function FromEvents(events: seq<Event>, pick: Event -> bool): Option<Answer> {
    if AnyEvent(events, pick) then Some(Answer(EventSum(events, pick, Cost), EventSum(events, pick, Requests)))
    else None
  }

  // getBreakdown's answer for a group: from cost_daily if both dimensions are
  // there, from cost_attr_hourly if both are there, else from the events.
  ghost function GetBreakdown(s: Store, q: Query, g: Group): Option<Answer> {
    var allDaily := IsDaily(q.primary) && (q.secondary.Some? ==> IsDaily(q.secondary.value));
    var allAttr := !IsDaily(q.primary) && (q.secondary.Some? ==> !IsDaily(q.secondary.value));
    if allDaily then FromRows(s.daily, DailyPick(q, g))
    else if allAttr then FromRows(s.attr, AttrPick(q, g))
    else FromEvents(s.events, EventPick(q, g))
  }

  lemma HoursOfWindow(ts: int, from: int, to: int)
    ensures from * DAY <= ts / HOUR * HOUR < to * DAY + DAY <==> from * DAY <= ts < to * DAY + DAY
  {
    var h := ts / HOUR;
    assert h * HOUR <= ts < h * HOUR + HOUR;
    assert DAY == 24 * HOUR;
  }

  lemma DailyPicksEvents(q: Query, g: Group, e: Event)
    requires IsDaily(q.primary) && (q.secondary.Some? ==> IsDaily(q.secondary.value))
    ensures DailyPick(q, g)(DailyKeyOf(e)) == EventPick(q, g)(e)
  {
  }

  lemma AttrPicksEvents(q: Query, g: Group, e: Event)
    requires !IsDaily(q.primary) && (q.secondary.Some? ==> !IsDaily(q.secondary.value))
    ensures AttrPick(q, g)(AttrKeyOf(e)) == EventPick(q, g)(e)
  {
    HoursOfWindow(e.ts, q.from, q.to);
  }

  lemma {:induction false} RowsCounted<K(!new)>(rows: seq<Row<K>>, pick: K -> bool)
    requires Counting(rows)
    ensures RowSum(rows, pick, Requests) >= 0
    ensures AnyRow(rows, pick) <==> RowSum(rows, pick, Requests) >= 1
  {
    if rows != [] {
      var n := |rows| - 1;
      RowsCounted(rows[..n], pick);
      if AnyRow(rows[..n], pick) {
        var i :| 0 <= i < n && pick(rows[..n][i].key);
        assert pick(rows[i].key);
      }
      if AnyRow(rows, pick) && !pick(rows[n].key) {
        var i :| 0 <= i < |rows| && pick(rows[i].key);
        assert rows[..n][i] == rows[i];
      }
    }
  }

  lemma {:induction false} EventsCounted(events: seq<Event>, pick: Event -> bool)
    ensures AnyEvent(events, pick) <==> EventSum(events, pick, Requests) >= 1
  {
    if events != [] {
      var n := |events| - 1;
      EventsCounted(events[..n], pick);
      if AnyEvent(events[..n], pick) {
        var i :| 0 <= i < n && pick(events[..n][i]);
        assert pick(events[i]);
      }
      if AnyEvent(events, pick) && !pick(events[n]) {
        var i :| 0 <= i < |events| && pick(events[i]);
        assert events[..n][i] == events[i];
      }
    }
  }

  // Rows that sum to the events, and count, answer like the events.
  lemma SameAnswer<K(!new)>(rows: seq<Row<K>>, events: seq<Event>, key: Event -> K,
        pick: K -> bool, raw: Event -> bool)
    requires Counting(rows)
    requires forall c: Column :: RowSum(rows, pick, c) == EventSum(events, ByKey(key, pick), c)
    requires forall i :: 0 <= i < |events| ==> pick(key(events[i])) == raw(events[i])
    ensures FromRows(rows, pick) == FromEvents(events, raw)
  {
    RowsCounted(rows, pick);
    EventsCounted(events, raw);
    EventSumOfSame(events, ByKey(key, pick), raw, Cost);
    EventSumOfSame(events, ByKey(key, pick), raw, Requests);
  }

  /** The three branches are one query: after any inserts and any merging, every
      breakdown has the same groups, costs and request counts as the raw events
      of the days from `from` to `to`. */
  lemma BreakdownIsRaw(steps: seq<Step>, q: Query, g: Group)
    requires IsRun(steps)
    ensures GetBreakdown(StoreOf(steps), q, g) == FromEvents(StoreOf(steps).events, EventPick(q, g))
  {
    var s := StoreOf(steps);
    RowsCount(steps);
    forall c: Column
      ensures DailyMatches(s, DailyPick(q, g), c) && AttrMatches(s, AttrPick(q, g), c)
    {
      RollupsEqualRaw(steps, DailyPick(q, g), AttrPick(q, g), c);
    }
    DailyAnswers(s, q, g);
    AttrAnswers(s, q, g);
  }

  lemma DailyAnswers(s: Store, q: Query, g: Group)
    requires Counting(s.daily) && forall c: Column :: DailyMatches(s, DailyPick(q, g), c)
    ensures IsDaily(q.primary) && (q.secondary.Some? ==> IsDaily(q.secondary.value))
        ==> FromRows(s.daily, DailyPick(q, g)) == FromEvents(s.events, EventPick(q, g))
  {
    if IsDaily(q.primary) && (q.secondary.Some? ==> IsDaily(q.secondary.value)) {
      forall i | 0 <= i < |s.events|
        ensures DailyPick(q, g)(DailyKeyOf(s.events[i])) == EventPick(q, g)(s.events[i])
      {
        DailyPicksEvents(q, g, s.events[i]);
      }
      forall c: Column
        ensures RowSum(s.daily, DailyPick(q, g), c) == EventSum(s.events, ByKey(DailyKeyOf, DailyPick(q, g)), c)
      {
        assert DailyMatches(s, DailyPick(q, g), c);
      }
      SameAnswer(s.daily, s.events, DailyKeyOf, DailyPick(q, g), EventPick(q, g));
    }
  }

  lemma AttrAnswers(s: Store, q: Query, g: Group)
    requires Counting(s.attr) && forall c: Column :: AttrMatches(s, AttrPick(q, g), c)
    ensures !IsDaily(q.primary) && (q.secondary.Some? ==> !IsDaily(q.secondary.value))
        ==> FromRows(s.attr, AttrPick(q, g)) == FromEvents(s.events, EventPick(q, g))
  {
    if !IsDaily(q.primary) && (q.secondary.Some? ==> !IsDaily(q.secondary.value)) {
      forall i | 0 <= i < |s.events|
        ensures AttrPick(q, g)(AttrKeyOf(s.events[i])) == EventPick(q, g)(s.events[i])
      {
        AttrPicksEvents(q, g, s.events[i]);
      }
      forall c: Column
        ensures RowSum(s.attr, AttrPick(q, g), c) == EventSum(s.events, ByKey(AttrKeyOf, AttrPick(q, g)), c)
      {
        assert AttrMatches(s, AttrPick(q, g), c);
      }
      SameAnswer(s.attr, s.events, AttrKeyOf, AttrPick(q, g), EventPick(q, g));
    }
  }
}
