/** billsyncd's OpenAI fetcher: cost buckets from any number of pages, summed per
    UTC day and listed in order of date. */
module Billing {
  import opened Common

  const DAY: int := 86_400

  // Amounts are exact decimals, in some fixed unit; None is one that does not
  // parse.
  datatype Bucket = Bucket(start: int, amounts: seq<Option<int>>)

  // What a request comes back with.
  datatype Response =
    | HttpFailed
    | Unreadable
    | Page(buckets: seq<Bucket>, hasMore: bool, nextPage: string)

  datatype Failure = RequestFailed | ParseFailed | BadAmount

  datatype Charge = Charge(day: int, amount: int)

  datatype DailyCost = DailyCost(date: int, usd: int)

  // ------------------------------------------------------------ what was billed

  function BucketCharges(day: int, amounts: seq<Option<int>>): Result<seq<Charge>, Failure> {
    if amounts == [] then Ok([])
    else
      var n := |amounts| - 1;
      var before := BucketCharges(day, amounts[..n]);
      if before.Err? then before
      else if amounts[n].None? then Err(BadAmount)
      else Ok(before.value + [Charge(day, amounts[n].value)])
  }

  function PageCharges(buckets: seq<Bucket>): Result<seq<Charge>, Failure> {
    if buckets == [] then Ok([])
    else
      var n := |buckets| - 1;
      var before := PageCharges(buckets[..n]);
      if before.Err? then before
      else
        var more := BucketCharges(buckets[n].start / DAY, buckets[n].amounts);
        if more.Err? then more else Ok(before.value + more.value)
  }

  // All charges of the pages up to the last one, or the first failure.  A run
  // whose responses end early was cut off, which is a failed request.
  function Billed(responses: seq<Response>): Result<seq<Charge>, Failure> {
    if responses == [] || responses[0].HttpFailed? then Err(RequestFailed)
    else if responses[0].Unreadable? then Err(ParseFailed)
    else
      var charges := PageCharges(responses[0].buckets);
      if charges.Err? then charges
      else if !responses[0].hasMore || responses[0].nextPage == "" then charges
      else
        var rest := Billed(responses[1..]);
        if rest.Err? then rest else Ok(charges.value + rest.value)
  }

  // The charges on the picked days.
  function Sum(charges: seq<Charge>, pick: int -> bool): int {
    if charges == [] then 0
    else
      var n := |charges| - 1;
      Sum(charges[..n], pick) + if pick(charges[n].day) then charges[n].amount else 0
  }

  function DayTotal(charges: seq<Charge>, day: int): int {
    Sum(charges, d => d == day)
  }

  function Total(charges: seq<Charge>): int {
    Sum(charges, d => true)
  }

  function TotalCost(list: seq<DailyCost>): int {
    if list == [] then 0 else TotalCost(list[..|list| - 1]) + list[|list| - 1].usd
  }

  ghost predicate HasDay(charges: seq<Charge>, day: int) {
    exists c :: c in charges && c.day == day
  }

  ghost predicate ListsDay(list: seq<DailyCost>, day: int) {
    exists k :: 0 <= k < |list| && list[k].date == day
  }

  ghost predicate Ascending(list: seq<DailyCost>) {
    forall a, b :: 0 <= a < b < |list| ==> list[a].date < list[b].date
  }

  // The meant answer: the days that have charges, in order, each with the sum of
  // its charges.
  ghost predicate IsDaily(list: seq<DailyCost>, charges: seq<Charge>) {
    && Ascending(list)
    && (forall k :: 0 <= k < |list| ==> HasDay(charges, list[k].date) && list[k].usd == DayTotal(charges, list[k].date))
    && (forall d :: HasDay(charges, d) ==> ListsDay(list, d))
  }

  // ------------------------------------------------------------- the day map

  // byDay holds the charges so far.
  ghost predicate Holds(byDay: map<int, int>, charges: seq<Charge>) {
    && (forall d :: d in byDay <==> HasDay(charges, d))
    && (forall d :: d in byDay ==> byDay[d] == DayTotal(charges, d))
  }

  function Added(byDay: map<int, int>, c: Charge): map<int, int> {
    byDay[c.day := (if c.day in byDay then byDay[c.day] else 0) + c.amount]
  }

  lemma {:induction false} NoCharges(charges: seq<Charge>, day: int)
    requires !HasDay(charges, day)
    ensures DayTotal(charges, day) == 0
  {
    if charges != [] {
      var n := |charges| - 1;
      assert charges[n] in charges;
      assert forall c :: c in charges[..n] ==> c in charges;
      NoCharges(charges[..n], day);
    }
  }

  lemma HasDayMore(charges: seq<Charge>, c: Charge, day: int)
    ensures HasDay(charges + [c], day) <==> HasDay(charges, day) || c.day == day
  {
  }

  lemma AddingHolds(byDay: map<int, int>, charges: seq<Charge>, c: Charge)
    requires Holds(byDay, charges)
    ensures Holds(Added(byDay, c), charges + [c])
  {
    LastIsLast(charges, c);
    forall d
      ensures HasDay(charges + [c], d) <==> HasDay(charges, d) || c.day == d
    {
      HasDayMore(charges, c, d);
    }
    forall d
      ensures DayTotal(charges + [c], d) == DayTotal(charges, d) + if c.day == d then c.amount else 0
    {
    }
    if c.day !in byDay {
      NoCharges(charges, c.day);
    }
  }

  // --------------------------------------------------------- sorting in place

  // Every entry of the map once, in any order.
  ghost predicate Lists(list: seq<DailyCost>, byDay: map<int, int>) {
    && (forall k :: 0 <= k < |list| ==> list[k].date in byDay && list[k].usd == byDay[list[k].date])
    && (forall a, b :: 0 <= a < b < |list| ==> list[a].date != list[b].date)
    && (forall d :: d in byDay ==> ListsDay(list, d))
  }

  function Swapped(list: seq<DailyCost>, j: nat): seq<DailyCost>
    requires 0 < j < |list|
  {
    list[j := list[j - 1]][j - 1 := list[j]]
  }

  lemma SwapStillLists(list: seq<DailyCost>, byDay: map<int, int>, j: nat)
    requires Lists(list, byDay) && 0 < j < |list|
    ensures Lists(Swapped(list, j), byDay)
  {
    var s := Swapped(list, j);
    forall d | d in byDay
      ensures ListsDay(s, d)
    {
      assert ListsDay(list, d);
      var k :| 0 <= k < |list| && list[k].date == d;
      var k' := if k == j then j - 1 else if k == j - 1 then j else k;
      assert s[k'].date == d;
    }
  }

  // In order up to i, but for place j, which is below what follows it.
  ghost predicate AlmostSorted(list: seq<DailyCost>, i: nat, j: nat)
    requires j <= i < |list|
  {
    && (forall a, b :: 0 <= a < b <= i && a != j && b != j ==> list[a].date < list[b].date)
    && (forall b :: j < b <= i ==> list[j].date < list[b].date)
  }

  lemma SwapStaysAlmostSorted(list: seq<DailyCost>, i: nat, j: nat)
    requires 0 < j <= i < |list| && AlmostSorted(list, i, j) && list[j].date < list[j - 1].date
    ensures AlmostSorted(Swapped(list, j), i, j - 1)
  {
  }

  lemma NextAlmostSorted(list: seq<DailyCost>, i: nat)
    requires i < |list| && Ascending(list[..i])
    ensures AlmostSorted(list, i, i)
  {
  }

  // The inner loop: entry i moves down to its place.
  method MoveDown(out: array<DailyCost>, i: nat, ghost byDay: map<int, int>)
    requires i < out.Length && Lists(out[..], byDay) && AlmostSorted(out[..], i, i)
    modifies out
    ensures Lists(out[..], byDay) && Ascending(out[..i + 1])
  {
    var j := i;
    while j > 0 && out[j].date < out[j - 1].date
      invariant 0 <= j <= i
      invariant Lists(out[..], byDay)
      invariant AlmostSorted(out[..], i, j)
    {
      ghost var before := out[..];
      SwapStillLists(before, byDay, j);
      SwapStaysAlmostSorted(before, i, j);
      out[j], out[j - 1] := out[j - 1], out[j];
      assert out[..] == Swapped(before, j);
      j := j - 1;
    }
    PlacedIsSorted(out[..], byDay, i, j);
    assert out[..][..i + 1] == out[..i + 1];
  }

  /** The insertion sort of sortedDaily, in place. */
  method SortByDate(out: array<DailyCost>, ghost byDay: map<int, int>)
    requires Lists(out[..], byDay)
    modifies out
    ensures Lists(out[..], byDay) && Ascending(out[..])
  {
    if out.Length == 0 {
      return;
    }
    for i := 1 to out.Length
      invariant Lists(out[..], byDay)
      invariant Ascending(out[..i])
    {
      assert out[..][..i] == out[..i];
      NextAlmostSorted(out[..], i);
      MoveDown(out, i, byDay);
    }
    assert out[..out.Length] == out[..];
  }

  lemma PlacedIsSorted(list: seq<DailyCost>, byDay: map<int, int>, i: nat, j: nat)
    requires j <= i < |list| && Lists(list, byDay) && AlmostSorted(list, i, j)
    requires j > 0 ==> list[j - 1].date <= list[j].date
    ensures Ascending(list[..i + 1])
  {
  }

  lemma SomeKey(keys: set<int>)
    ensures keys == {} || exists d :: d in keys
  {
    if forall d :: d !in keys {
      assert keys == {};
    }
  }

  /** sortedDaily: the entries are taken from the map in whatever order it gives
      them, then sorted. */
  method SortedDaily(byDay: map<int, int>) returns (list: seq<DailyCost>)
    ensures Lists(list, byDay) && Ascending(list)
  {
    var keys := byDay.Keys;
    var taken: seq<DailyCost> := [];
    while keys != {}
      invariant keys <= byDay.Keys
      invariant forall k :: 0 <= k < |taken| ==>
                  taken[k].date in byDay && taken[k].date !in keys && taken[k].usd == byDay[taken[k].date]
      invariant forall a, b :: 0 <= a < b < |taken| ==> taken[a].date != taken[b].date
      invariant forall d :: d in byDay && d !in keys ==> ListsDay(taken, d)
      decreases keys
    {
      SomeKey(keys);
      var d :| d in keys;
      ghost var before := taken;
      taken := taken + [DailyCost(d, byDay[d])];
      keys := keys - {d};
      forall x | x in byDay && x !in keys
        ensures ListsDay(taken, x)
      {
        ListsMore(before, DailyCost(d, byDay[d]), x);
      }
    }
    var out := new DailyCost[|taken|](i requires 0 <= i < |taken| => taken[i]);
    assert out[..] == taken;
    SortByDate(out, byDay);
    list := out[..];
  }

  lemma ListsMore(list: seq<DailyCost>, c: DailyCost, day: int)
    ensures ListsDay(list + [c], day) <==> ListsDay(list, day) || c.date == day
  {
    if ListsDay(list, day) {
      var k :| 0 <= k < |list| && list[k].date == day;
      assert (list + [c])[k].date == day;
    }
    assert (list + [c])[|list|] == c;
    if ListsDay(list + [c], day) && c.date != day {
      var k :| 0 <= k < |list + [c]| && (list + [c])[k].date == day;
      assert list[k].date == day;
    }
  }

  // ---------------------------------------------------------------- the fetch

  lemma OneMoreAmount(day: int, amounts: seq<Option<int>>, i: nat)
    requires i < |amounts|
    ensures BucketCharges(day, amounts[..i + 1])
         == if BucketCharges(day, amounts[..i]).Err? then BucketCharges(day, amounts[..i])
            else if amounts[i].None? then Err(BadAmount)
            else Ok(BucketCharges(day, amounts[..i]).value + [Charge(day, amounts[i].value)])
  {
    assert amounts[..i + 1][..i] == amounts[..i];
  }

  lemma {:induction false} BadAmountStays(day: int, amounts: seq<Option<int>>, i: nat)
    requires i <= |amounts| && BucketCharges(day, amounts[..i]).Err?
    ensures BucketCharges(day, amounts) == BucketCharges(day, amounts[..i])
    decreases |amounts| - i
  {
    if i == |amounts| {
      assert amounts[..i] == amounts;
    } else {
      OneMoreAmount(day, amounts, i);
      BadAmountStays(day, amounts, i + 1);
    }
  }

  // The loop over one bucket's results.
  method AddBucket(byDay: map<int, int>, bucket: Bucket, ghost charges: seq<Charge>)
      returns (r: Result<map<int, int>, Failure>)
    requires Holds(byDay, charges)
    ensures var more := BucketCharges(bucket.start / DAY, bucket.amounts);
            if more.Err? then r == Err(more.error) else r.Ok? && Holds(r.value, charges + more.value)
  {
    var day := bucket.start / DAY;
    var days := byDay;
    ghost var added: seq<Charge> := [];
    assert charges + added == charges && bucket.amounts[..0] == [];
    for i := 0 to |bucket.amounts|
      invariant BucketCharges(day, bucket.amounts[..i]) == Ok(added)
      invariant Holds(days, charges + added)
    {
      OneMoreAmount(day, bucket.amounts, i);
      var amount := bucket.amounts[i];
      if amount.None? {
        BadAmountStays(day, bucket.amounts, i + 1);
        return Err(BadAmount);
      }
      var c := Charge(day, amount.value);
      AddingHolds(days, charges + added, c);
      ConcatAssociates(charges, added, [c]);
      days := Added(days, c);
      added := added + [c];
    }
    assert bucket.amounts[..|bucket.amounts|] == bucket.amounts;
    r := Ok(days);
  }

  lemma OneMoreBucket(buckets: seq<Bucket>, i: nat)
    requires i < |buckets| && PageCharges(buckets[..i]).Ok?
    ensures var more := BucketCharges(buckets[i].start / DAY, buckets[i].amounts);
            PageCharges(buckets[..i + 1])
            == if more.Err? then more else Ok(PageCharges(buckets[..i]).value + more.value)
  {
    assert buckets[..i + 1][..i] == buckets[..i];
  }

  lemma {:induction false} BadBucketStays(buckets: seq<Bucket>, i: nat)
    requires i <= |buckets| && PageCharges(buckets[..i]).Err?
    ensures PageCharges(buckets) == PageCharges(buckets[..i])
    decreases |buckets| - i
  {
    if i == |buckets| {
      assert buckets[..i] == buckets;
    } else {
      assert buckets[..i + 1][..i] == buckets[..i];
      BadBucketStays(buckets, i + 1);
    }
  }

  // The loop over one page's buckets.
  method AddPage(byDay: map<int, int>, buckets: seq<Bucket>, ghost charges: seq<Charge>)
      returns (r: Result<map<int, int>, Failure>)
    requires Holds(byDay, charges)
    ensures var more := PageCharges(buckets);
            if more.Err? then r == Err(more.error) else r.Ok? && Holds(r.value, charges + more.value)
  {
    r := Ok(byDay);
    ghost var added: seq<Charge> := [];
    assert charges + added == charges && buckets[..0] == [];
    for i := 0 to |buckets|
      invariant PageCharges(buckets[..i]) == Ok(added)
      invariant r.Ok? && Holds(r.value, charges + added)
    {
      OneMoreBucket(buckets, i);
      ghost var more := BucketCharges(buckets[i].start / DAY, buckets[i].amounts);
      r := AddBucket(r.value, buckets[i], charges + added);
      if r.Err? {
        BadBucketStays(buckets, i + 1);
        return;
      }
      ConcatAssociates(charges, added, more.value);
      added := added + more.value;
    }
    assert buckets[..|buckets|] == buckets;
  }

  // Behind charges that were already collected.
  function Behind(charges: seq<Charge>, rest: Result<seq<Charge>, Failure>): Result<seq<Charge>, Failure> {
    if rest.Err? then rest else Ok(charges + rest.value)
  }

  lemma BehindTwice(a: seq<Charge>, b: seq<Charge>, rest: Result<seq<Charge>, Failure>)
    ensures Behind(a, Behind(b, rest)) == Behind(a + b, rest)
  {
    if rest.Ok? {
      ConcatAssociates(a, b, rest.value);
    }
  }

  lemma BehindNothing(rest: Result<seq<Charge>, Failure>)
    ensures Behind([], rest) == rest
  {
    if rest.Ok? {
      assert [] + rest.value == rest.value;
    }
  }

  /** FetchDaily: page after page, then the days in order; the first failure ends
      it. */
  method FetchDaily(responses: seq<Response>) returns (r: Result<seq<DailyCost>, Failure>)
    ensures var billed := Billed(responses);
            if billed.Err? then r == Err(billed.error) else r.Ok? && IsDaily(r.value, billed.value)
  {
    var byDay: map<int, int> := map[];
    ghost var charges: seq<Charge> := [];
    assert responses[0..] == responses;
    BehindNothing(Billed(responses));
    var n := 0;
    while true
      invariant 0 <= n <= |responses|
      invariant Holds(byDay, charges)
      invariant Behind(charges, Billed(responses[n..])) == Billed(responses)
      decreases |responses| - n
    {
      if n == |responses| || responses[n].HttpFailed? {
        return Err(RequestFailed);
      }
      if responses[n].Unreadable? {
        return Err(ParseFailed);
      }
      var p := responses[n];
      ghost var more := PageCharges(p.buckets);
      var added := AddPage(byDay, p.buckets, charges);
      if added.Err? {
        return Err(added.error);
      }
      byDay := added.value;
      if !p.hasMore || p.nextPage == "" {
        charges := charges + more.value;
        break;
      }
      assert responses[n..][1..] == responses[n + 1..];
      BehindTwice(charges, more.value, Billed(responses[n + 1..]));
      charges := charges + more.value;
      n := n + 1;
    }
    var list := SortedDaily(byDay);
    r := Ok(list);
  }

  // ---------------------------------------------------------------- theorems

  /** There is only one right answer, so neither the division into pages nor the
      order in which a map gives its entries can show. */
  lemma DailyIsUnique(list: seq<DailyCost>, other: seq<DailyCost>, charges: seq<Charge>)
    requires IsDaily(list, charges) && IsDaily(other, charges)
    ensures list == other
    decreases |list|
  {
    SameDays(list, other, charges, 0);
    forall k | 0 <= k < |list|
      ensures list[k] == other[k]
    {
    }
  }

  // Both lists go on alike from place n.
  lemma {:induction false} SameDays(list: seq<DailyCost>, other: seq<DailyCost>, charges: seq<Charge>, n: nat)
    requires IsDaily(list, charges) && IsDaily(other, charges) && n <= |list| && n <= |other|
    requires forall k :: 0 <= k < n ==> list[k].date == other[k].date
    ensures |list| == |other| && forall k :: 0 <= k < |list| ==> list[k].date == other[k].date
    decreases |list| - n
  {
    if n < |list| {
      NextDayListed(list, other, charges, n);
    }
    if n < |other| {
      NextDayListed(other, list, charges, n);
    }
    if n < |list| {
      SameDays(list, other, charges, n + 1);
    }
  }

  lemma NextDayListed(list: seq<DailyCost>, other: seq<DailyCost>, charges: seq<Charge>, n: nat)
    requires IsDaily(list, charges) && IsDaily(other, charges) && n < |list| && n <= |other|
    requires forall k :: 0 <= k < n ==> list[k].date == other[k].date
    ensures n < |other| && other[n].date <= list[n].date
  {
  }

  lemma {:induction false} SumSplits(charges: seq<Charge>, p: int -> bool, q: int -> bool, r: int -> bool)
    requires forall d :: !(p(d) && q(d)) && r(d) == (p(d) || q(d))
    ensures Sum(charges, r) == Sum(charges, p) + Sum(charges, q)
  {
    if charges != [] {
      SumSplits(charges[..|charges| - 1], p, q, r);
    }
  }

  lemma {:induction false} SumOfSame(charges: seq<Charge>, p: int -> bool, q: int -> bool)
    requires forall i :: 0 <= i < |charges| ==> p(charges[i].day) == q(charges[i].day)
    ensures Sum(charges, p) == Sum(charges, q)
  {
    if charges != [] {
      var init := charges[..|charges| - 1];
      assert forall i :: 0 <= i < |init| ==> init[i] == charges[i];
      SumOfSame(init, p, q);
    }
  }

  ghost predicate Among(list: seq<DailyCost>, n: nat, day: int)
    requires n <= |list|
  {
    exists k :: 0 <= k < n && list[k].date == day
  }

  lemma {:induction false} ListedSums(list: seq<DailyCost>, charges: seq<Charge>, n: nat)
    requires IsDaily(list, charges) && n <= |list|
    ensures TotalCost(list[..n]) == Sum(charges, d => Among(list, n, d))
  {
    if n == 0 {
      SumOfNone(charges, d => Among(list, 0, d));
    } else {
      ListedSums(list, charges, n - 1);
      assert list[..n][..n - 1] == list[..n - 1];
      var day := list[n - 1].date;
      forall d
        ensures !(Among(list, n - 1, d) && d == day) && Among(list, n, d) == (Among(list, n - 1, d) || d == day)
      {
        assert list[n - 1].date == day;
      }
      SumSplits(charges, d => Among(list, n - 1, d), d => d == day, d => Among(list, n, d));
    }
  }

  lemma {:induction false} SumOfNone(charges: seq<Charge>, p: int -> bool)
    requires forall d :: !p(d)
    ensures Sum(charges, p) == 0
  {
    if charges != [] {
      SumOfNone(charges[..|charges| - 1], p);
    }
  }

  /** Nothing is lost or counted twice: the listed costs add up to all charges. */
  lemma TotalIsKept(list: seq<DailyCost>, charges: seq<Charge>)
    requires IsDaily(list, charges)
    ensures TotalCost(list) == Total(charges)
  {
    ListedSums(list, charges, |list|);
    assert list[..|list|] == list;
    forall i | 0 <= i < |charges|
      ensures Among(list, |list|, charges[i].day)
    {
      assert charges[i] in charges;
      assert HasDay(charges, charges[i].day);
      assert ListsDay(list, charges[i].day);
    }
    SumOfSame(charges, d => Among(list, |list|, d), d => true);
  }

  lemma {:induction false} SumConcat(a: seq<Charge>, b: seq<Charge>, p: int -> bool)
    ensures Sum(a + b, p) == Sum(a, p) + Sum(b, p)
  {
    if b == [] {
      assert a + b == a;
    } else {
      var n := |b| - 1;
      assert (a + b)[..|a| + n] == a + b[..n];
      SumConcat(a, b[..n], p);
    }
  }

  lemma TakeOne(charges: seq<Charge>, k: nat, p: int -> bool)
    requires k < |charges|
    ensures var rest := charges[..k] + charges[k + 1..];
            multiset(rest) == multiset(charges) - multiset{charges[k]}
            && Sum(charges, p) == Sum(rest, p) + if p(charges[k].day) then charges[k].amount else 0
  {
    var one := [charges[k]];
    assert charges == charges[..k] + one + charges[k + 1..];
    SumConcat(charges[..k] + one, charges[k + 1..], p);
    SumConcat(charges[..k], one, p);
    SumConcat(charges[..k], charges[k + 1..], p);
    assert one[..0] == [];
    assert Sum(one[..0], p) == 0;
  }

  lemma {:induction false} SumIgnoresOrder(charges: seq<Charge>, others: seq<Charge>, p: int -> bool)
    requires multiset(charges) == multiset(others)
    ensures Sum(charges, p) == Sum(others, p)
    decreases |charges|
  {
    if charges == [] {
      assert |multiset(others)| == |others|;
    } else {
      assert charges[0] in multiset(others);
      var k :| 0 <= k < |others| && others[k] == charges[0];
      TakeOne(charges, 0, p);
      TakeOne(others, k, p);
      SumIgnoresOrder(charges[..0] + charges[1..], others[..k] + others[k + 1..], p);
    }
  }

  lemma SameMembers(charges: seq<Charge>, others: seq<Charge>, day: int)
    requires multiset(charges) == multiset(others)
    ensures HasDay(charges, day) ==> HasDay(others, day)
  {
    if HasDay(charges, day) {
      var c :| c in charges && c.day == day;
      assert c in multiset(charges);
      assert c in others;
    }
  }

  /** Buckets may come in any order and on any pages: the same charges make the
      same list. */
  lemma OnlyChargesMatter(list: seq<DailyCost>, charges: seq<Charge>, other: seq<DailyCost>,
        others: seq<Charge>)
    requires IsDaily(list, charges) && IsDaily(other, others) && multiset(charges) == multiset(others)
    ensures list == other
  {
    forall d
      ensures HasDay(charges, d) <==> HasDay(others, d)
      ensures DayTotal(charges, d) == DayTotal(others, d)
    {
      SameMembers(charges, others, d);
      SameMembers(others, charges, d);
      SumIgnoresOrder(charges, others, x => x == d);
    }
    forall d | HasDay(charges, d)
      ensures ListsDay(other, d)
    {
      assert HasDay(others, d);
    }
    DailyIsUnique(list, other, charges);
  }

  // ------------------------------------------------------- pages and buckets

  // One amount of one bucket, as it was read.
  datatype Entry = Entry(start: int, amount: int)

  predicate Parses(page: Response) {
    page.Page? && forall b :: b in page.buckets ==> forall a :: a in b.amounts ==> a.Some?
  }

  predicate GoesOn(page: Response) {
    page.Page? && page.hasMore && page.nextPage != ""
  }

  // Reading gets as far as response n: all before it are good pages with another
  // one to follow, and it is not, or there is none.
  ghost predicate StopsAt(responses: seq<Response>, n: nat) {
    && n <= |responses|
    && (forall i :: 0 <= i < n ==> Parses(responses[i]) && GoesOn(responses[i]))
    && (n < |responses| ==> !(Parses(responses[n]) && GoesOn(responses[n])))
  }

  ghost function BucketEntries(b: Bucket, n: nat): seq<Entry>
    requires n <= |b.amounts| && forall a :: a in b.amounts ==> a.Some?
  {
    if n == 0 then [] else BucketEntries(b, n - 1) + [Entry(b.start, b.amounts[n - 1].value)]
  }

  ghost function PageEntries(page: Response, n: nat): seq<Entry>
    requires Parses(page) && n <= |page.buckets|
  {
    if n == 0 then []
    else
      var b := page.buckets[n - 1];
      assert b in page.buckets;
      PageEntries(page, n - 1) + BucketEntries(b, |b.amounts|)
  }

  // The amounts of the first n pages.
  ghost function Entries(responses: seq<Response>, n: nat): seq<Entry>
    requires n <= |responses| && forall i :: 0 <= i < n ==> Parses(responses[i])
  {
    if n == 0 then []
    else
      assert Parses(responses[n - 1]);
      Entries(responses, n - 1) + PageEntries(responses[n - 1], |responses[n - 1].buckets|)
  }

  // A charge falls on the UTC day that its bucket starts on.
  function ChargesOf(entries: seq<Entry>): (charges: seq<Charge>)
    ensures |charges| == |entries|
  {
    seq(|entries|, i requires 0 <= i < |entries| => Charge(entries[i].start / DAY, entries[i].amount))
  }

  lemma ChargesConcat(a: seq<Entry>, b: seq<Entry>)
    ensures ChargesOf(a + b) == ChargesOf(a) + ChargesOf(b)
  {
  }

  lemma {:induction false} BucketIsRead(b: Bucket, n: nat)
    requires n <= |b.amounts| && forall a :: a in b.amounts ==> a.Some?
    ensures BucketCharges(b.start / DAY, b.amounts[..n]) == Ok(ChargesOf(BucketEntries(b, n)))
  {
    if n > 0 {
      BucketIsRead(b, n - 1);
      OneMoreAmount(b.start / DAY, b.amounts, n - 1);
      assert b.amounts[n - 1] in b.amounts;
      var last := Entry(b.start, b.amounts[n - 1].value);
      ChargesConcat(BucketEntries(b, n - 1), [last]);
      assert ChargesOf([last]) == [Charge(b.start / DAY, last.amount)];
    }
  }

  lemma {:induction false} PageIsRead(page: Response, n: nat)
    requires Parses(page) && n <= |page.buckets|
    ensures PageCharges(page.buckets[..n]) == Ok(ChargesOf(PageEntries(page, n)))
  {
    if n > 0 {
      var b := page.buckets[n - 1];
      assert b in page.buckets;
      PageIsRead(page, n - 1);
      BucketIsRead(b, |b.amounts|);
      assert b.amounts[..|b.amounts|] == b.amounts;
      OneMoreBucket(page.buckets, n - 1);
      ChargesConcat(PageEntries(page, n - 1), BucketEntries(b, |b.amounts|));
    }
  }

  lemma WholePage(page: Response)
    requires Parses(page)
    ensures PageCharges(page.buckets) == Ok(ChargesOf(PageEntries(page, |page.buckets|)))
  {
    PageIsRead(page, |page.buckets|);
    assert page.buckets[..|page.buckets|] == page.buckets;
  }

  lemma {:induction false} BadBucket(day: int, amounts: seq<Option<int>>, i: nat)
    requires i < |amounts| && amounts[i].None?
    ensures BucketCharges(day, amounts) == Err(BadAmount)
  {
    var n := |amounts| - 1;
    if i < n {
      BadBucket(day, amounts[..n], i);
    } else {
      OnlyBadAmounts(day, amounts[..n]);
    }
  }

  lemma {:induction false} OnlyBadAmounts(day: int, amounts: seq<Option<int>>)
    ensures BucketCharges(day, amounts).Err? ==> BucketCharges(day, amounts) == Err(BadAmount)
  {
    if amounts != [] {
      OnlyBadAmounts(day, amounts[..|amounts| - 1]);
    }
  }

  lemma {:induction false} BadPage(buckets: seq<Bucket>)
    ensures PageCharges(buckets).Err? ==> PageCharges(buckets) == Err(BadAmount)
    ensures (exists b :: b in buckets && exists a :: a in b.amounts && a.None?) ==> PageCharges(buckets).Err?
  {
    if buckets != [] {
      var n := |buckets| - 1;
      BadPage(buckets[..n]);
      OnlyBadAmounts(buckets[n].start / DAY, buckets[n].amounts);
      if a :| a in buckets[n].amounts && a.None? {
        var i :| 0 <= i < |buckets[n].amounts| && buckets[n].amounts[i] == a;
        BadBucket(buckets[n].start / DAY, buckets[n].amounts, i);
      }
    }
  }

  // What reading comes to, told on the responses: the first thing that is wrong, or
  // the amounts of all the pages.
  lemma {:induction false} BilledIsRead(responses: seq<Response>, n: nat)
    requires StopsAt(responses, n)
    ensures Billed(responses)
         == if n == |responses| || responses[n].HttpFailed? then Err(RequestFailed)
            else if responses[n].Unreadable? then Err(ParseFailed)
            else if !Parses(responses[n]) then Err(BadAmount)
            else Ok(ChargesOf(Entries(responses, n + 1)))
    decreases n
  {
    if n == 0 {
      if |responses| > 0 && responses[0].Page? {
        BadPage(responses[0].buckets);
        if Parses(responses[0]) {
          WholePage(responses[0]);
          assert Entries(responses, 0) == [];
          assert [] + PageEntries(responses[0], |responses[0].buckets|)
              == PageEntries(responses[0], |responses[0].buckets|);
        }
      }
    } else {
      var rest := responses[1..];
      WholePage(responses[0]);
      assert forall i :: 0 <= i < n - 1 ==> rest[i] == responses[i + 1];
      BilledIsRead(rest, n - 1);
      if n < |responses| && Parses(responses[n]) {
        EntriesFromFirst(responses, n + 1);
        ChargesConcat(PageEntries(responses[0], |responses[0].buckets|), Entries(rest, n));
      }
    }
  }

  lemma {:induction false} EntriesFromFirst(responses: seq<Response>, n: nat)
    requires 1 <= n <= |responses| && forall i :: 0 <= i < n ==> Parses(responses[i])
    ensures forall i :: 0 <= i < n - 1 ==> Parses(responses[1..][i])
    ensures Entries(responses, n)
         == PageEntries(responses[0], |responses[0].buckets|) + Entries(responses[1..], n - 1)
  {
    assert forall i :: 0 <= i < n - 1 ==> responses[1..][i] == responses[i + 1];
    if n > 1 {
      EntriesFromFirst(responses, n - 1);
    }
  }

  ghost function AmountOf(entries: seq<Entry>): int {
    if entries == [] then 0 else AmountOf(entries[..|entries| - 1]) + entries[|entries| - 1].amount
  }

  lemma {:induction false} TotalOfEntries(entries: seq<Entry>)
    ensures Total(ChargesOf(entries)) == AmountOf(entries)
  {
    if entries != [] {
      var n := |entries| - 1;
      TotalOfEntries(entries[..n]);
      assert ChargesOf(entries)[..n] == ChargesOf(entries[..n]);
      SumOfSame(ChargesOf(entries[..n]), d => true, d => true);
    }
  }

  ghost predicate HasEntry(entries: seq<Entry>, day: int) {
    exists e :: e in entries && e.start / DAY == day
  }

  // Reading succeeds, with response n as the last page.
  ghost predicate ReadsUpTo(responses: seq<Response>, n: nat) {
    n < |responses| && StopsAt(responses, n) && Parses(responses[n])
  }

  // The list that FetchDaily answers with.
  ghost predicate Fetched(responses: seq<Response>, list: seq<DailyCost>) {
    Billed(responses).Ok? && IsDaily(list, Billed(responses).value)
  }

  /** Every amount of every bucket of every page up to the last is listed, once:
      nothing else is, and a single bad answer before that means no list at all. */
  lemma AllPagesAreBilled(responses: seq<Response>, n: nat, list: seq<DailyCost>)
    requires StopsAt(responses, n) && Fetched(responses, list)
    ensures ReadsUpTo(responses, n) && TotalCost(list) == AmountOf(Entries(responses, n + 1))
    ensures forall d :: ListsDay(list, d) <==> HasEntry(Entries(responses, n + 1), d)
  {
    BilledIsRead(responses, n);
    var entries := Entries(responses, n + 1);
    var charges := ChargesOf(entries);
    TotalOfEntries(entries);
    TotalIsKept(list, charges);
    forall d
      ensures ListsDay(list, d) <==> HasEntry(entries, d)
    {
      DaysOfEntries(entries, d);
    }
  }

  lemma DaysOfEntries(entries: seq<Entry>, day: int)
    ensures HasDay(ChargesOf(entries), day) <==> HasEntry(entries, day)
  {
    var charges := ChargesOf(entries);
    if e :| e in entries && e.start / DAY == day {
      var i :| 0 <= i < |entries| && entries[i] == e;
      assert charges[i] in charges;
    }
    if c :| c in charges && c.day == day {
      var i :| 0 <= i < |charges| && charges[i] == c;
      assert entries[i] in entries;
    }
  }

  lemma TakeEntry(entries: seq<Entry>, k: nat)
    requires k < |entries|
    ensures var rest := entries[..k] + entries[k + 1..];
            && multiset(rest) == multiset(entries) - multiset{entries[k]}
            && multiset(ChargesOf(entries)) == multiset(ChargesOf(rest)) + multiset(ChargesOf([entries[k]]))
  {
    var one := [entries[k]];
    assert entries == entries[..k] + one + entries[k + 1..];
    ChargesConcat(entries[..k] + one, entries[k + 1..]);
    ChargesConcat(entries[..k], one);
    ChargesConcat(entries[..k], entries[k + 1..]);
  }

  lemma {:induction false} SameEntriesSameCharges(a: seq<Entry>, b: seq<Entry>)
    requires multiset(a) == multiset(b)
    ensures multiset(ChargesOf(a)) == multiset(ChargesOf(b))
    decreases |a|
  {
    if a == [] {
      assert |multiset(b)| == |b|;
    } else {
      assert a[0] in multiset(b);
      var k :| 0 <= k < |b| && b[k] == a[0];
      TakeEntry(a, 0);
      TakeEntry(b, k);
      SameEntriesSameCharges(a[..0] + a[1..], b[..k] + b[k + 1..]);
    }
  }

  lemma {:induction false} FetchedIsDaily(responses: seq<Response>, n: nat, list: seq<DailyCost>)
    requires ReadsUpTo(responses, n) && Fetched(responses, list)
    ensures IsDaily(list, ChargesOf(Entries(responses, n + 1)))
  {
    BilledIsRead(responses, n);
  }

  /** The same amounts at the same times, however they are cut into pages and
      buckets and in whatever order they come, make the same list. */
  lemma {:induction false} CuttingDoesNotMatter(responses: seq<Response>, n: nat, list: seq<DailyCost>,
        others: seq<Response>, m: nat, other: seq<DailyCost>)
    requires ReadsUpTo(responses, n) && Fetched(responses, list)
    requires ReadsUpTo(others, m) && Fetched(others, other)
    requires multiset(Entries(responses, n + 1)) == multiset(Entries(others, m + 1))
    ensures list == other
  {
    FetchedIsDaily(responses, n, list);
    FetchedIsDaily(others, m, other);
    var a, b := Entries(responses, n + 1), Entries(others, m + 1);
    SameEntriesSameCharges(a, b);
    OnlyChargesMatter(list, ChargesOf(a), other, ChargesOf(b));
  }
}
