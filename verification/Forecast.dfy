/** forecast.ts buildForecast: the linear and the seasonal column over history
    and horizon, and the month-end estimates.  Calendar arithmetic is an oracle:
    addDays gives the date some days later, inMonth says whether a date falls in
    the current month. */
module Forecast {
  import opened Common
  import HoltWinters
  import LinearFit

  datatype Day = Day(date: string, value: real)

  datatype Point = Point(date: string, actual: Option<real>, linear: real, seasonal: Option<real>)

  datatype Report = Report(
    points: seq<Point>,
    dividerDate: Option<string>,
    linear: LinearFit.Fit,
    seasonal: Option<HoltWinters.SeasonalFit>,
    monthEnd: real,
    monthEndSeasonal: Option<real>)

  datatype Calendar = Calendar(addDays: (string, int) -> string, inMonth: string -> bool)

  function AtLeastZero(v: real): (r: real)
    ensures r >= 0.0
  {
    if v > 0.0 then v else 0.0
  }

  function Values(history: seq<Day>): (ys: seq<real>)
    ensures |ys| == |history|
  {
    seq(|history|, i requires 0 <= i < |history| => history[i].value)
  }

  function Indices(n: nat): (xs: seq<real>)
    ensures |xs| == n
  {
    seq(n, i => i as real)
  }

  function Line(history: seq<Day>): LinearFit.Fit {
    LinearFit.Best(Indices(|history|), Values(history))
  }

  function LinearAt(fit: LinearFit.Fit, k: nat): real {
    AtLeastZero(fit.intercept + fit.slope * k as real)
  }

  function SeasonalAt(fit: Option<HoltWinters.SeasonalFit>, n: nat, k: nat): Option<real>
    requires fit.Some? ==> |fit.value.state.seasonals| == HoltWinters.SEASON && |fit.value.inSample| == n
  {
    if fit.None? then None
    else if k < n then Some(AtLeastZero(fit.value.inSample[k]))
    else Some(HoltWinters.Projected(fit.value, n, k - n + 1))
  }

  // Row k: a day of history, or the projection for day k - n + 1 after it.
  function Row(history: seq<Day>, calendar: Calendar, k: nat): Point
    requires history != []
  {
    var n := |history|;
    var actual := if k < n then Some(history[k].value) else None;
    var date := if k < n then history[k].date else calendar.addDays(history[n - 1].date, k - n + 1);
    Point(date, actual, LinearAt(Line(history), k), SeasonalAt(HoltWinters.Fitted(Values(history)), n, k))
  }

  function Rows(history: seq<Day>, horizon: int, calendar: Calendar): (points: seq<Point>)
    requires history != []
  {
    seq(|history| + (if horizon > 0 then horizon else 0), k requires 0 <= k => Row(history, calendar, k))
  }

  // What the first n points contribute to the month: what happened, or what
  // the chosen column projects.
  function MonthTotal(points: seq<Point>, n: nat, inMonth: string -> bool, column: Point -> Option<real>): real
    requires n <= |points|
  {
    if n == 0 then 0.0
    else
      var p := points[n - 1];
      MonthTotal(points, n - 1, inMonth, column)
      + if !inMonth(p.date) then 0.0
        else if p.actual.Some? then p.actual.value
        else if column(p).Some? then column(p).value else 0.0
  }

  const LINEAR: Point -> Option<real> := (p: Point) => Some(p.linear)
  const SEASONAL: Point -> Option<real> := (p: Point) => p.seasonal

  function Expected(history: seq<Day>, horizon: int, calendar: Calendar): Report {
    if history == [] then Report([], None, LinearFit.Fit(0.0, 0.0, 0.0), None, 0.0, None)
    else
      var rows := Rows(history, horizon, calendar);
      var seasonal := HoltWinters.Fitted(Values(history));
      Report(rows, if horizon >= 1 then Some(calendar.addDays(history[|history| - 1].date, 1)) else None,
             Line(history), seasonal,
             MonthTotal(rows, |rows|, calendar.inMonth, LINEAR),
             if seasonal.None? then None else Some(MonthTotal(rows, |rows|, calendar.inMonth, SEASONAL)))
  }

  /** Builds the rows, first over history, then over the horizon, and sums the
      current month. */
  method Build(history: seq<Day>, horizon: int, calendar: Calendar) returns (report: Report)
    ensures report == Expected(history, horizon, calendar)
  {
    var n := |history|;
    if n == 0 {
      return Report([], None, LinearFit.Fit(0.0, 0.0, 0.0), None, 0.0, None);
    }
    var xs, ys := Indices(n), Values(history);
    var lin := LinearFit.Compute(xs, ys);
    var hw := HoltWinters.Compute(ys);
    var points: seq<Point> := [];
    for i := 0 to n
      invariant |points| == i
      invariant forall k :: 0 <= k < i ==> points[k] == Row(history, calendar, k)
    {
      points := points + [Point(history[i].date, Some(history[i].value), LinearAt(lin, i), SeasonalAt(hw, n, i))];
    }
    var dividerDate: Option<string> := None;
    var h := 1;
    while h <= horizon
      invariant 1 <= h && (h == 1 || h <= horizon + 1)
      invariant |points| == n + h - 1
      invariant forall k :: 0 <= k < |points| ==> points[k] == Row(history, calendar, k)
      invariant dividerDate == if h > 1 then Some(calendar.addDays(history[n - 1].date, 1)) else None
      decreases horizon - h
    {
      var idx := n - 1 + h;
      var date := calendar.addDays(history[n - 1].date, h);
      if h == 1 {
        dividerDate := Some(date);
      }
      points := points + [Point(date, None, LinearAt(lin, idx), SeasonalAt(hw, n, idx))];
      h := h + 1;
    }
    assert points == Rows(history, horizon, calendar);
    var monthEnd, monthEndSeasonal := MonthEnd(points, calendar, hw.Some?);
    report := Report(points, dividerDate, lin, hw, monthEnd, monthEndSeasonal);
  }

  method MonthEnd(points: seq<Point>, calendar: Calendar, seasonal: bool)
      returns (linear: real, smoothed: Option<real>)
    ensures linear == MonthTotal(points, |points|, calendar.inMonth, LINEAR)
    ensures smoothed == if seasonal then Some(MonthTotal(points, |points|, calendar.inMonth, SEASONAL)) else None
  {
    linear, smoothed := 0.0, if seasonal then Some(0.0) else None;
    for i := 0 to |points|
      invariant linear == MonthTotal(points, i, calendar.inMonth, LINEAR)
      invariant smoothed == if seasonal then Some(MonthTotal(points, i, calendar.inMonth, SEASONAL)) else None
    {
      var p := points[i];
      if calendar.inMonth(p.date) {
        linear := linear + if p.actual.Some? then p.actual.value else p.linear;
        if smoothed.Some? {
          smoothed := Some(smoothed.value
            + if p.actual.Some? then p.actual.value else if p.seasonal.Some? then p.seasonal.value else 0.0);
        }
      }
    }
  }

  // ---------------------------------------------------------------- what it means

  // The straight line with value a on day 0 that rises by b a day.
  function At(a: real, b: real, k: nat): real {
    a + b * k as real
  }

  ghost predicate Straight(history: seq<Day>, a: real, b: real) {
    |history| >= 2 && forall i :: 0 <= i < |history| ==> history[i].value == At(a, b, i)
  }

  lemma LineRecovered(history: seq<Day>, a: real, b: real)
    requires Straight(history, a, b)
    ensures Line(history).slope == b && Line(history).intercept == a
  {
    var xs, ys := Indices(|history|), Values(history);
    assert xs[0] == 0.0 && xs[1] == 1.0;
    forall i | 0 <= i < |xs|
      ensures ys[i] == a + b * xs[i]
    {
      assert ys[i] == At(a, b, i);
    }
    LinearFit.LinesAreRecovered(xs, ys, b, a, 0, 1);
  }

  /** A straight line of two or more days goes on straight, cut off at zero. */
  lemma LineContinues(history: seq<Day>, calendar: Calendar, a: real, b: real, k: nat)
    requires Straight(history, a, b)
    ensures Row(history, calendar, k).linear == AtLeastZero(At(a, b, k))
  {
    LineRecovered(history, a, b);
  }

  /** A weekly pattern goes on in the seasonal column, cut off at zero. */
  lemma PatternContinues(history: seq<Day>, calendar: Calendar, k: nat)
    requires HoltWinters.Periodic(Values(history))
    ensures Row(history, calendar, k).seasonal == Some(AtLeastZero(history[k % HoltWinters.SEASON].value))
  {
    var ys := Values(history);
    if k < |ys| {
      HoltWinters.PeriodicIsExact(ys);
      assert ys[k] == ys[k % HoltWinters.SEASON];
    } else {
      HoltWinters.PeriodicContinues(ys, k - |ys| + 1);
    }
  }

  // The month's sum of a known value per row.
  function MonthOf(points: seq<Point>, n: nat, inMonth: string -> bool, value: nat -> real): real
    requires n <= |points|
  {
    if n == 0 then 0.0
    else MonthOf(points, n - 1, inMonth, value) + if inMonth(points[n - 1].date) then value(n - 1) else 0.0
  }

  lemma {:induction false} ColumnIsValue(points: seq<Point>, n: nat, inMonth: string -> bool,
                                         column: Point -> Option<real>, value: nat -> real)
    requires n <= |points|
    requires forall k :: 0 <= k < n ==> points[k].actual.Some? ==> points[k].actual.value == value(k)
    requires forall k :: 0 <= k < n ==> points[k].actual.None? ==> column(points[k]) == Some(value(k))
    ensures MonthTotal(points, n, inMonth, column) == MonthOf(points, n, inMonth, value)
  {
    if n > 0 {
      ColumnIsValue(points, n - 1, inMonth, column, value);
    }
  }

  // History counts as it was, projections are cut off at zero.
  function CutOff(history: seq<Day>, k: nat, v: real): real {
    if k < |history| then v else AtLeastZero(v)
  }

  /** On a straight line the linear month-end estimate is the line's own sum over
      the month's rows, the projected ones cut off at zero. */
  lemma LineMonthEnd(history: seq<Day>, horizon: int, calendar: Calendar, a: real, b: real)
    requires Straight(history, a, b)
    ensures var report := Expected(history, horizon, calendar);
            report.monthEnd == MonthOf(report.points, |report.points|, calendar.inMonth,
                                       (k: nat) => CutOff(history, k, At(a, b, k)))
  {
    var rows := Rows(history, horizon, calendar);
    var value := (k: nat) => CutOff(history, k, At(a, b, k));
    forall k | 0 <= k < |rows|
      ensures rows[k].actual.None? ==> rows[k].linear == value(k)
      ensures rows[k].actual.Some? ==> rows[k].actual.value == value(k)
    {
      LineContinues(history, calendar, a, b, k);
    }
    ColumnIsValue(rows, |rows|, calendar.inMonth, LINEAR, value);
  }

  /** On a weekly pattern the seasonal month-end estimate is the pattern's own sum
      over the month's rows, the projected ones cut off at zero. */
  lemma PatternMonthEnd(history: seq<Day>, horizon: int, calendar: Calendar)
    requires HoltWinters.Periodic(Values(history))
    ensures var report := Expected(history, horizon, calendar);
            var ys := Values(history);
            report.monthEndSeasonal
            == Some(MonthOf(report.points, |report.points|, calendar.inMonth,
                            (k: nat) => CutOff(history, k, if |ys| >= 7 then ys[k % 7] else 0.0)))
  {
    var rows, ys := Rows(history, horizon, calendar), Values(history);
    var value := (k: nat) => CutOff(history, k, if |ys| >= 7 then ys[k % 7] else 0.0);
    forall k | 0 <= k < |rows|
      ensures rows[k].actual.None? ==> rows[k].seasonal == Some(value(k))
      ensures rows[k].actual.Some? ==> rows[k].actual.value == value(k)
    {
      PatternContinues(history, calendar, k);
      if k < |ys| {
        assert ys[k] == ys[k % HoltWinters.SEASON];
      }
    }
    ColumnIsValue(rows, |rows|, calendar.inMonth, SEASONAL, value);
  }

  /** The rows and their dates: the days of history as they were, then one row for each
      day of the horizon, which bears the date so many days after the last; the
      divider stands at the first of those. */
  lemma RowsAreDated(history: seq<Day>, horizon: int, calendar: Calendar)
    requires history != []
    ensures var report, n := Expected(history, horizon, calendar), |history|;
            && |report.points| == n + (if horizon > 0 then horizon else 0)
            && (forall k :: 0 <= k < n ==>
                  report.points[k].date == history[k].date && report.points[k].actual == Some(history[k].value))
            && (forall k :: n <= k < |report.points| ==>
                  report.points[k].date == calendar.addDays(history[n - 1].date, k - n + 1)
                  && report.points[k].actual == None)
            && (horizon >= 1 ==> report.dividerDate == Some(report.points[n].date))
            && (horizon < 1 ==> report.dividerDate == None)
  {
  }

  /** Without history there is nothing to report. */
  lemma NothingWithoutHistory(horizon: int, calendar: Calendar)
    ensures var report := Expected([], horizon, calendar);
            && report.points == [] && report.dividerDate == None && report.seasonal == None
            && report.linear == LinearFit.Fit(0.0, 0.0, 0.0)
            && report.monthEnd == 0.0 && report.monthEndSeasonal == None
  {
  }
}
