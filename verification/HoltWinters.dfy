/** The dashboard's additive Holt-Winters smoothing with a weekly season, over
    exact reals. */
module HoltWinters {
  import opened Arith
  import opened Common

  const SEASON: nat := 7
  const ALPHA: real := 0.35
  const BETA: real := 0.1
  const GAMMA: real := 0.3

  datatype State = State(level: real, trend: real, seasonals: seq<real>)

  datatype SeasonalFit = SeasonalFit(r2: real, state: State, inSample: seq<real>)

  // ---------------------------------------------------------- initial values

  // The sum of the first n values from place `from` on.
  function SumFrom(ys: seq<real>, from: nat, n: nat): real
    requires from + n <= |ys|
  {
    if n == 0 then 0.0 else SumFrom(ys, from, n - 1) + ys[from + n - 1]
  }

  function SeasonMean(ys: seq<real>, s: nat): real
    requires (s + 1) * SEASON <= |ys|
  {
    SumFrom(ys, s * SEASON, SEASON) / 7.0
  }

  // Per-day changes from the first season to the second, over n days.
  function ChangeSum(ys: seq<real>, n: nat): real
    requires n + SEASON <= |ys|
  {
    if n == 0 then 0.0 else ChangeSum(ys, n - 1) + (ys[n - 1 + SEASON] - ys[n - 1]) / 7.0
  }

  // The average deviation of weekday i from its season's mean, over the first
  // `seasons` of `full` seasons.
  function Offset(ys: seq<real>, i: nat, seasons: nat, full: nat): real
    requires i < SEASON && seasons <= full && full > 0 && full * SEASON <= |ys|
  {
    if seasons == 0 then 0.0
    else
      SeasonEnds(seasons - 1, full, |ys|);
      Offset(ys, i, seasons - 1, full)
      + (ys[(seasons - 1) * SEASON + i] - SeasonMean(ys, seasons - 1)) / full as real
  }

  lemma SeasonEnds(s: nat, full: nat, n: nat)
    requires s < full && full * SEASON <= n
    ensures (s + 1) * SEASON <= n
  {
  }

  function FullSeasons(n: nat): (full: nat)
    ensures full * SEASON <= n < (full + 1) * SEASON
  {
    n / SEASON
  }

  function Initial(ys: seq<real>): (st: State)
    requires |ys| >= 2 * SEASON
    ensures |st.seasonals| == SEASON
  {
    var full := FullSeasons(|ys|);
    State(SumFrom(ys, 0, SEASON) / 7.0, ChangeSum(ys, SEASON) / 7.0,
          seq(SEASON, i requires 0 <= i < SEASON => Offset(ys, i, full, full)))
  }

  // --------------------------------------------------------------- smoothing

  // Exponential smoothing: weight k for the new value, the rest for the old.
  function Blend(k: real, seen: real, kept: real): real {
    k * seen + (1.0 - k) * kept
  }

  function Predict(st: State, i: nat): real
    requires |st.seasonals| == SEASON
  {
    st.level + st.trend + st.seasonals[i % SEASON]
  }

  function Step(st: State, i: nat, y: real): (st': State)
    requires |st.seasonals| == SEASON
    ensures |st'.seasonals| == SEASON
  {
    var si := i % SEASON;
    var level := Blend(ALPHA, y - st.seasonals[si], st.level + st.trend);
    var trend := Blend(BETA, level - st.level, st.trend);
    State(level, trend, st.seasonals[si := Blend(GAMMA, y - level, st.seasonals[si])])
  }

  // The state after the first n observations.
  function After(ys: seq<real>, n: nat): (st: State)
    requires |ys| >= 2 * SEASON && n <= |ys|
    ensures |st.seasonals| == SEASON
  {
    if n == 0 then Initial(ys) else Step(After(ys, n - 1), n - 1, ys[n - 1])
  }

  // The forecast of observation i from the ones before it.
  function Predicted(ys: seq<real>, i: nat): real
    requires |ys| >= 2 * SEASON && i < |ys|
  {
    Predict(After(ys, i), i)
  }

  function Predictions(ys: seq<real>): (ps: seq<real>)
    requires |ys| >= 2 * SEASON
    ensures |ps| == |ys|
  {
    seq(|ys|, i requires 0 <= i < |ys| => Predicted(ys, i))
  }

  function SquaredGaps(v: seq<real>, w: seq<real>, n: nat): real
    requires n <= |v| && n <= |w|
  {
    if n == 0 then 0.0 else SquaredGaps(v, w, n - 1) + (v[n - 1] - w[n - 1]) * (v[n - 1] - w[n - 1])
  }

  function R2(sse: real, sst: real): real {
    if sst == 0.0 then 0.0 else if 1.0 - sse / sst > 0.0 then 1.0 - sse / sst else 0.0
  }

  /** r2 is the part of the spread that the predictions leave no error in, and nothing
      if they err by more than the spread or there is none. */
  lemma R2IsShare(sse: real, sst: real)
    requires sse >= 0.0 && sst >= 0.0
    ensures R2(sse, sst) * sst == if sse < sst then sst - sse else 0.0
    ensures sse >= sst ==> R2(sse, sst) == 0.0
  {
    if sst > 0.0 {
      assert sse / sst * sst == sse;
      assert (1.0 - sse / sst) * sst == sst - sse;
      assert sse >= sst <==> sse / sst >= 1.0;
    }
  }

  function Flat(ys: seq<real>): (v: seq<real>)
    requires ys != []
    ensures |v| == |ys|
  {
    seq(|ys|, _ => SumFrom(ys, 0, |ys|) / |ys| as real)
  }

  function Fitted(ys: seq<real>): Option<SeasonalFit> {
    if |ys| < 2 * SEASON then None
    else Some(SeasonalFit(R2(SquaredGaps(ys, Predictions(ys), |ys|), SquaredGaps(ys, Flat(ys), |ys|)),
                          After(ys, |ys|), Predictions(ys)))
  }

  // ----------------------------------------------------------------- the loops

  /** The loop over full seasons that fills the weekday offsets. */
  method FillOffsets(ys: seq<real>, seasonals: array<real>)
    requires |ys| >= 2 * SEASON && seasonals.Length == SEASON
    requires forall i :: 0 <= i < SEASON ==> seasonals[i] == 0.0
    modifies seasonals
    ensures seasonals[..] == Initial(ys).seasonals
  {
    var fullSeasons := FullSeasons(|ys|);
    for s := 0 to fullSeasons
      invariant forall i :: 0 <= i < SEASON ==> seasonals[i] == Offset(ys, i, s, fullSeasons)
    {
      SeasonEnds(s, fullSeasons, |ys|);
      var seasonMean := 0.0;
      for i := 0 to SEASON
        invariant seasonMean == SumFrom(ys, s * SEASON, i)
      {
        seasonMean := seasonMean + ys[s * SEASON + i];
      }
      seasonMean := seasonMean / 7.0;
      for i := 0 to SEASON
        invariant forall k :: i <= k < SEASON ==> seasonals[k] == Offset(ys, k, s, fullSeasons)
        invariant forall k :: 0 <= k < i ==> seasonals[k] == Offset(ys, k, s + 1, fullSeasons)
      {
        seasonals[i] := seasonals[i] + (ys[s * SEASON + i] - seasonMean) / fullSeasons as real;
      }
    }
  }

  /** The smoothing loop, which records every prediction before it updates. */
  method Smooth(ys: seq<real>, level0: real, trend0: real, seasonals: array<real>, inSample: array<real>)
      returns (level: real, trend: real)
    requires |ys| >= 2 * SEASON && seasonals.Length == SEASON && inSample.Length == |ys|
    requires seasonals != inSample && State(level0, trend0, seasonals[..]) == Initial(ys)
    modifies seasonals, inSample
    ensures State(level, trend, seasonals[..]) == After(ys, |ys|)
    ensures inSample[..] == Predictions(ys)
  {
    level, trend := level0, trend0;
    for i := 0 to |ys|
      invariant level == After(ys, i).level && trend == After(ys, i).trend
      invariant seasonals[..] == After(ys, i).seasonals
      invariant forall k :: 0 <= k < i ==> inSample[k] == Predicted(ys, k)
    {
      var si := i % SEASON;
      inSample[i] := level + trend + seasonals[si];
      var prevLevel := level;
      level := Blend(ALPHA, ys[i] - seasonals[si], level + trend);
      trend := Blend(BETA, level - prevLevel, trend);
      ghost var was := seasonals[..];
      seasonals[si] := Blend(GAMMA, ys[i] - level, seasonals[si]);
      assert seasonals[..] == was[si := seasonals[si]];
    }
  }

  /** forecast.ts holtWinters: None below two seasons of history. */
  method Compute(ys: seq<real>) returns (fit: Option<SeasonalFit>)
    ensures fit == Fitted(ys)
  {
    var n := |ys|;
    if n < 2 * SEASON {
      return None;
    }
    var level, trend := 0.0, 0.0;
    for i := 0 to SEASON
      invariant level == SumFrom(ys, 0, i)
    {
      level := level + ys[i];
    }
    level := level / 7.0;
    for i := 0 to SEASON
      invariant trend == ChangeSum(ys, i)
    {
      trend := trend + (ys[i + SEASON] - ys[i]) / 7.0;
    }
    trend := trend / 7.0;
    var seasonals := new real[SEASON](_ => 0.0);
    FillOffsets(ys, seasonals);
    var inSample := new real[n](_ => 0.0);
    level, trend := Smooth(ys, level, trend, seasonals, inSample);
    var r2 := Accuracy(ys, inSample[..]);
    fit := Some(SeasonalFit(r2, State(level, trend, seasonals[..]), inSample[..]));
  }

  // The one-step-ahead r2 over the history.
  method Accuracy(ys: seq<real>, inSample: seq<real>) returns (r2: real)
    requires ys != [] && |inSample| == |ys|
    ensures r2 == R2(SquaredGaps(ys, inSample, |ys|), SquaredGaps(ys, Flat(ys), |ys|))
  {
    var meanY := SumFrom(ys, 0, |ys|) / |ys| as real;
    var sse, sst := 0.0, 0.0;
    for i := 0 to |ys|
      invariant sse == SquaredGaps(ys, inSample, i)
      invariant sst == SquaredGaps(ys, Flat(ys), i)
    {
      sse := sse + (ys[i] - inSample[i]) * (ys[i] - inSample[i]);
      assert Flat(ys)[i] == meanY;
      sst := sst + (ys[i] - meanY) * (ys[i] - meanY);
    }
    r2 := R2(sse, sst);
  }

  /** Error-correction form: with e the one-step-ahead error, a step moves the
      level by ALPHA * e beyond the trend, the trend by ALPHA * BETA * e and the
      offset of the day's weekday by GAMMA * (1 - ALPHA) * e; no other offset
      moves. */
  lemma ErrorCorrection(st: State, i: nat, y: real)
    requires |st.seasonals| == SEASON
    ensures var e := y - Predict(st, i);
            var next := Step(st, i, y);
            && next.level == st.level + st.trend + 0.35 * e
            && next.trend == st.trend + 0.035 * e
            && next.seasonals[i % SEASON] == st.seasonals[i % SEASON] + 0.195 * e
            && forall k :: 0 <= k < SEASON && k != i % SEASON ==> next.seasonals[k] == st.seasonals[k]
  {
  }

  /** Over a whole series: each observation corrects level, trend and its own weekday's
      offset by fixed parts of how far it was from what these foretold, and no other
      offset. */
  lemma ErrorsCorrectState(ys: seq<real>, n: nat)
    requires |ys| >= 14 && n < |ys|
    ensures var before, after := After(ys, n), After(ys, n + 1);
            var e := ys[n] - (before.level + before.trend + before.seasonals[n % 7]);
            && after.level == before.level + before.trend + 0.35 * e
            && after.trend == before.trend + 0.035 * e
            && after.seasonals == before.seasonals[n % 7 := before.seasonals[n % 7] + 0.195 * e]
  {
    ErrorCorrection(After(ys, n), n, ys[n]);
  }

  // How far weekday i lies above its season's mean, summed over the first seasons.
  function Deviations(ys: seq<real>, i: nat, seasons: nat): real
    requires i < SEASON && seasons * SEASON <= |ys|
  {
    if seasons == 0 then 0.0
    else Deviations(ys, i, seasons - 1) + ys[(seasons - 1) * SEASON + i] - SeasonMean(ys, seasons - 1)
  }

  lemma {:induction false} OffsetIsMean(ys: seq<real>, i: nat, seasons: nat, full: nat)
    requires i < SEASON && seasons <= full && full > 0 && full * SEASON <= |ys|
    ensures Offset(ys, i, seasons, full) == Deviations(ys, i, seasons) / full as real
  {
    if seasons > 0 {
      OffsetIsMean(ys, i, seasons - 1, full);
    }
  }

  /** A weekday's first offset is its mean deviation over all full weeks. */
  lemma InitialOffsets(ys: seq<real>, i: nat)
    requires |ys| >= 14 && i < 7
    ensures Initial(ys).seasonals[i] == Deviations(ys, i, |ys| / 7) / (|ys| / 7) as real
  {
    OffsetIsMean(ys, i, |ys| / 7, |ys| / 7);
  }

  // ------------------------------------------------------------- periodic series

  // A weekly pattern, repeated.
  ghost predicate Periodic(ys: seq<real>) {
    |ys| >= 2 * SEASON && forall i :: 0 <= i < |ys| ==> ys[i] == ys[i % SEASON]
  }

  lemma SameWeekday(s: nat, i: nat)
    requires i < SEASON
    ensures (s * SEASON + i) % SEASON == i
  {
  }

  lemma {:induction false} SeasonsSumAlike(ys: seq<real>, s: nat, n: nat)
    requires Periodic(ys) && n <= SEASON && (s + 1) * SEASON <= |ys|
    ensures SumFrom(ys, s * SEASON, n) == SumFrom(ys, 0, n)
  {
    if n > 0 {
      SeasonsSumAlike(ys, s, n - 1);
      SameWeekday(s, n - 1);
      assert ys[s * SEASON + n - 1] == ys[(s * SEASON + (n - 1)) % SEASON];
    }
  }

  lemma {:induction false} NoChange(ys: seq<real>, n: nat)
    requires Periodic(ys) && n <= SEASON
    ensures ChangeSum(ys, n) == 0.0
  {
    if n > 0 {
      NoChange(ys, n - 1);
      assert ys[n - 1 + SEASON] == ys[(n - 1 + SEASON) % SEASON];
    }
  }

  lemma OneMore(k: nat, q: real)
    ensures (k + 1) as real * q == k as real * q + q
  {
  }

  lemma {:induction false} EqualOffsets(ys: seq<real>, i: nat, seasons: nat, full: nat)
    requires Periodic(ys) && i < SEASON && seasons <= full && full > 0 && full * SEASON <= |ys|
    ensures Offset(ys, i, seasons, full) == seasons as real * ((ys[i] - SumFrom(ys, 0, SEASON) / 7.0) / full as real)
  {
    var q := (ys[i] - SumFrom(ys, 0, SEASON) / 7.0) / full as real;
    if seasons > 0 {
      var s := seasons - 1;
      EqualOffsets(ys, i, s, full);
      SeasonEnds(s, full, |ys|);
      SeasonsSumAlike(ys, s, SEASON);
      SameWeekday(s, i);
      assert ys[s * SEASON + i] == ys[(s * SEASON + i) % SEASON];
      OneMore(s, q);
    }
  }

  // The state a weekly pattern settles in: its mean, no trend, its offsets.
  function Settled(ys: seq<real>): (st: State)
    requires |ys| >= 2 * SEASON
    ensures |st.seasonals| == SEASON
  {
    var mean := SumFrom(ys, 0, SEASON) / 7.0;
    State(mean, 0.0, seq(SEASON, i requires 0 <= i < SEASON => ys[i] - mean))
  }

  lemma StartsSettled(ys: seq<real>)
    requires Periodic(ys)
    ensures Initial(ys) == Settled(ys)
  {
    var full := FullSeasons(|ys|);
    NoChange(ys, SEASON);
    forall i | 0 <= i < SEASON
      ensures Initial(ys).seasonals[i] == Settled(ys).seasonals[i]
    {
      EqualOffsets(ys, i, full, full);
      QuotientTimes(ys[i] - SumFrom(ys, 0, SEASON) / 7.0, full as real);
    }
    assert Initial(ys).seasonals == Settled(ys).seasonals;
  }

  lemma StaysSettled(ys: seq<real>, i: nat)
    requires Periodic(ys) && i < |ys|
    ensures Predict(Settled(ys), i) == ys[i]
    ensures Step(Settled(ys), i, ys[i]) == Settled(ys)
  {
  }

  /** On a weekly pattern the smoothing never moves: the level stays the mean,
      the trend zero, and every weekday keeps its offset. */
  lemma {:induction false} PeriodicIsSettled(ys: seq<real>, n: nat)
    requires Periodic(ys) && n <= |ys|
    ensures After(ys, n) == Settled(ys)
  {
    if n == 0 {
      StartsSettled(ys);
    } else {
      PeriodicIsSettled(ys, n - 1);
      StaysSettled(ys, n - 1);
    }
  }

  /** So every one-step-ahead prediction is the observation itself. */
  lemma PeriodicIsExact(ys: seq<real>)
    requires Periodic(ys)
    ensures Predictions(ys) == ys
  {
    forall i | 0 <= i < |ys|
      ensures Predicted(ys, i) == ys[i]
    {
      PeriodicIsSettled(ys, i);
      StaysSettled(ys, i);
    }
  }

  // The projection h days after the last observation.
  function Projected(fit: SeasonalFit, n: nat, h: nat): real
    requires |fit.state.seasonals| == SEASON && n + h >= 1
  {
    var v := fit.state.level + h as real * fit.state.trend + fit.state.seasonals[(n + h - 1) % SEASON];
    if v > 0.0 then v else 0.0
  }

  /** While both are above zero, a projection a week later is seven times the trend
      higher. */
  lemma WeekLater(fit: SeasonalFit, n: nat, h: nat)
    requires |fit.state.seasonals| == SEASON && n + h >= 1
    requires Projected(fit, n, h) > 0.0 && Projected(fit, n, h + 7) > 0.0
    ensures Projected(fit, n, h + 7) == Projected(fit, n, h) + 7.0 * fit.state.trend
  {
    assert (n + h + 7 - 1) % SEASON == (n + h - 1) % SEASON;
    assert (h + 7) as real * fit.state.trend == h as real * fit.state.trend + 7.0 * fit.state.trend;
  }

  lemma {:induction false} SteadyRise(ys: seq<real>, b: real, n: nat)
    requires n + SEASON <= |ys| && forall i :: 0 <= i < n ==> ys[i + SEASON] == ys[i] + 7.0 * b
    ensures ChangeSum(ys, n) == n as real * b
  {
    if n > 0 {
      SteadyRise(ys, b, n - 1);
      assert ys[n - 1 + SEASON] == ys[n - 1] + 7.0 * b;
    }
  }

  /** A series whose second week lies b a day above its first starts with the trend b,
      at the level of the first week's mean. */
  lemma InitialTrend(ys: seq<real>, b: real)
    requires |ys| >= 14 && forall i :: 0 <= i < 7 ==> ys[i + 7] == ys[i] + 7.0 * b
    ensures Initial(ys).trend == b
    ensures Initial(ys).level == (ys[0] + ys[1] + ys[2] + ys[3] + ys[4] + ys[5] + ys[6]) / 7.0
  {
    SteadyRise(ys, b, 7);
    assert SumFrom(ys, 0, 1) == ys[0];
    assert SumFrom(ys, 0, 2) == ys[0] + ys[1];
    assert SumFrom(ys, 0, 3) == ys[0] + ys[1] + ys[2];
    assert SumFrom(ys, 0, 4) == ys[0] + ys[1] + ys[2] + ys[3];
    assert SumFrom(ys, 0, 5) == ys[0] + ys[1] + ys[2] + ys[3] + ys[4];
    assert SumFrom(ys, 0, 6) == ys[0] + ys[1] + ys[2] + ys[3] + ys[4] + ys[5];
  }

  /** Every projected day repeats the pattern at its own weekday, cut off at
      zero. */
  lemma PeriodicContinues(ys: seq<real>, h: nat)
    requires Periodic(ys)
    ensures var v := ys[(|ys| + h - 1) % SEASON];
            Projected(Fitted(ys).value, |ys|, h) == if v > 0.0 then v else 0.0
  {
    PeriodicIsSettled(ys, |ys|);
    assert h as real * 0.0 == 0.0;
  }

  // ---------------------------------------------------------------- accuracy

  lemma {:induction false} NoGaps(v: seq<real>, n: nat)
    requires n <= |v|
    ensures SquaredGaps(v, v, n) == 0.0
  {
    if n > 0 {
      NoGaps(v, n - 1);
    }
  }

  lemma GapsAddSquare(v: seq<real>, w: seq<real>, n: nat)
    requires 0 < n <= |v| && n <= |w|
    ensures SquaredGaps(v, w, n) == SquaredGaps(v, w, n - 1) + Square(v[n - 1] - w[n - 1])
  {
  }

  // A sum of squared gaps is zero exactly where there are none.
  lemma {:induction false} GapsOfDifferent(v: seq<real>, w: seq<real>, n: nat)
    requires n <= |v| && n <= |w|
    ensures SquaredGaps(v, w, n) >= 0.0
    ensures SquaredGaps(v, w, n) == 0.0 <==> forall i :: 0 <= i < n ==> v[i] == w[i]
  {
    if n > 0 {
      GapsOfDifferent(v, w, n - 1);
      GapsAddSquare(v, w, n);
    }
  }

  lemma {:induction false} SumOfEqual(ys: seq<real>, y: real, n: nat)
    requires n <= |ys| && forall i :: 0 <= i < n ==> ys[i] == y
    ensures SumFrom(ys, 0, n) == n as real * y
  {
    if n > 0 {
      SumOfEqual(ys, y, n - 1);
      OneMore(n - 1, y);
    }
  }

  lemma NoSpread(ys: seq<real>)
    requires ys != []
    ensures SquaredGaps(ys, Flat(ys), |ys|) == 0.0 <==> forall i :: 0 <= i < |ys| ==> ys[i] == ys[0]
  {
    GapsOfDifferent(ys, Flat(ys), |ys|);
    if forall i :: 0 <= i < |ys| ==> ys[i] == ys[0] {
      SumOfEqual(ys, ys[0], |ys|);
      TimesOver(ys[0], |ys| as real);
    }
  }

  lemma TimesOver(y: real, k: real)
    requires k != 0.0
    ensures k * y / k == y
  {
  }

  /** r2 lies between 0 and 1. */
  lemma R2InUnitInterval(ys: seq<real>)
    requires Fitted(ys).Some?
    ensures 0.0 <= Fitted(ys).value.r2 <= 1.0
  {
    var ps := Predictions(ys);
    GapsOfDifferent(ys, ps, |ys|);
    GapsOfDifferent(ys, Flat(ys), |ys|);
    RatioNonNegative(SquaredGaps(ys, ps, |ys|), SquaredGaps(ys, Flat(ys), |ys|));
  }

  lemma RatioNonNegative(a: real, b: real)
    requires a >= 0.0 && b >= 0.0
    ensures b != 0.0 ==> a / b >= 0.0
  {
  }

  /** On a weekly pattern r2 is 1, unless the series is constant, when it is 0. */
  lemma PeriodicR2(ys: seq<real>)
    requires Periodic(ys)
    ensures Fitted(ys).value.r2 == if forall i :: 0 <= i < |ys| ==> ys[i] == ys[0] then 0.0 else 1.0
  {
    PeriodicIsExact(ys);
    NoGaps(ys, |ys|);
    NoSpread(ys);
    var sst := SquaredGaps(ys, Flat(ys), |ys|);
    if sst != 0.0 {
      assert 0.0 / sst == 0.0;
    }
  }

  // --------------------------------------------------------------- linearity

  function Mix(c: real, a: real, d: real, b: real): real {
    c * a + d * b
  }

  // xs is c * ys + d * zs.
  ghost predicate Mixes(xs: seq<real>, c: real, ys: seq<real>, d: real, zs: seq<real>) {
    |xs| == |ys| == |zs| && forall i :: 0 <= i < |xs| ==> xs[i] == Mix(c, ys[i], d, zs[i])
  }

  ghost predicate MixesState(x: State, c: real, y: State, d: real, z: State) {
    && x.level == Mix(c, y.level, d, z.level)
    && x.trend == Mix(c, y.trend, d, z.trend)
    && Mixes(x.seasonals, c, y.seasonals, d, z.seasonals)
  }

  lemma MixAdds(c: real, a: real, a': real, d: real, b: real, b': real)
    ensures Mix(c, a + a', d, b + b') == Mix(c, a, d, b) + Mix(c, a', d, b')
    ensures Mix(c, a - a', d, b - b') == Mix(c, a, d, b) - Mix(c, a', d, b')
  {
  }

  lemma MixScales(c: real, a: real, d: real, b: real, k: real)
    ensures Mix(c, k * a, d, k * b) == k * Mix(c, a, d, b)
    ensures k != 0.0 ==> Mix(c, a / k, d, b / k) == Mix(c, a, d, b) / k
  {
  }

  lemma SumOfQuotients(a: real, b: real, k: real)
    requires k != 0.0
    ensures a / k + b / k == (a + b) / k
    ensures a / k - b / k == (a - b) / k
  {
  }

  lemma MixZero(c: real, d: real)
    ensures Mix(c, 0.0, d, 0.0) == 0.0
  {
  }

  lemma {:induction false} SumMixes(xs: seq<real>, c: real, ys: seq<real>, d: real, zs: seq<real>, from: nat, n: nat)
    requires Mixes(xs, c, ys, d, zs) && from + n <= |xs|
    ensures SumFrom(xs, from, n) == Mix(c, SumFrom(ys, from, n), d, SumFrom(zs, from, n))
  {
    if n == 0 {
      MixZero(c, d);
    } else {
      SumMixes(xs, c, ys, d, zs, from, n - 1);
      MixAdds(c, SumFrom(ys, from, n - 1), ys[from + n - 1], d, SumFrom(zs, from, n - 1), zs[from + n - 1]);
    }
  }

  lemma {:induction false} ChangeMixes(xs: seq<real>, c: real, ys: seq<real>, d: real, zs: seq<real>, n: nat)
    requires Mixes(xs, c, ys, d, zs) && n + SEASON <= |xs|
    ensures ChangeSum(xs, n) == Mix(c, ChangeSum(ys, n), d, ChangeSum(zs, n))
  {
    if n == 0 {
      MixZero(c, d);
    } else {
      ChangeMixes(xs, c, ys, d, zs, n - 1);
      var dy, dz := ys[n - 1 + SEASON] - ys[n - 1], zs[n - 1 + SEASON] - zs[n - 1];
      MixAdds(c, ys[n - 1 + SEASON], ys[n - 1], d, zs[n - 1 + SEASON], zs[n - 1]);
      MixScales(c, dy, d, dz, 7.0);
      MixAdds(c, ChangeSum(ys, n - 1), dy / 7.0, d, ChangeSum(zs, n - 1), dz / 7.0);
    }
  }

  lemma MeanMixes(xs: seq<real>, c: real, ys: seq<real>, d: real, zs: seq<real>, s: nat)
    requires Mixes(xs, c, ys, d, zs) && (s + 1) * SEASON <= |xs|
    ensures SeasonMean(xs, s) == Mix(c, SeasonMean(ys, s), d, SeasonMean(zs, s))
  {
    SumMixes(xs, c, ys, d, zs, s * SEASON, SEASON);
    MixScales(c, SumFrom(ys, s * SEASON, SEASON), d, SumFrom(zs, s * SEASON, SEASON), 7.0);
  }

  // A sum o and one more deviation of a value v from its mean m, over k.
  lemma MixDeviation(c: real, d: real, k: real, o: real, v: real, m: real, o': real, v': real,
        m': real)
    requires k != 0.0
    ensures Mix(c, o + (v - m) / k, d, o' + (v' - m') / k)
         == Mix(c, o, d, o') + (Mix(c, v, d, v') - Mix(c, m, d, m')) / k
  {
  }

  lemma {:induction false} OffsetMixes(xs: seq<real>, c: real, ys: seq<real>, d: real, zs: seq<real>,
                                       i: nat, seasons: nat, full: nat)
    requires Mixes(xs, c, ys, d, zs) && i < SEASON && seasons <= full && full > 0 && full * SEASON <= |xs|
    ensures Offset(xs, i, seasons, full) == Mix(c, Offset(ys, i, seasons, full), d, Offset(zs, i, seasons, full))
  {
    if seasons == 0 {
      MixZero(c, d);
    } else {
      var s := seasons - 1;
      SeasonEnds(s, full, |xs|);
      OffsetMixes(xs, c, ys, d, zs, i, s, full);
      MeanMixes(xs, c, ys, d, zs, s);
      MixDeviation(c, d, full as real, Offset(ys, i, s, full), ys[s * SEASON + i], SeasonMean(ys, s),
                   Offset(zs, i, s, full), zs[s * SEASON + i], SeasonMean(zs, s));
    }
  }

  lemma InitialMixes(xs: seq<real>, c: real, ys: seq<real>, d: real, zs: seq<real>)
    requires Mixes(xs, c, ys, d, zs) && |xs| >= 2 * SEASON
    ensures MixesState(Initial(xs), c, Initial(ys), d, Initial(zs))
  {
    SumMixes(xs, c, ys, d, zs, 0, SEASON);
    MixScales(c, SumFrom(ys, 0, SEASON), d, SumFrom(zs, 0, SEASON), 7.0);
    ChangeMixes(xs, c, ys, d, zs, SEASON);
    MixScales(c, ChangeSum(ys, SEASON), d, ChangeSum(zs, SEASON), 7.0);
    var full := FullSeasons(|xs|);
    forall i | 0 <= i < SEASON
      ensures Initial(xs).seasonals[i] == Mix(c, Initial(ys).seasonals[i], d, Initial(zs).seasonals[i])
    {
      OffsetMixes(xs, c, ys, d, zs, i, full, full);
    }
  }

  lemma StepMixes(x: State, c: real, y: State, d: real, z: State, i: nat, v: real, w: real)
    requires |x.seasonals| == |y.seasonals| == |z.seasonals| == SEASON && MixesState(x, c, y, d, z)
    ensures MixesState(Step(x, i, Mix(c, v, d, w)), c, Step(y, i, v), d, Step(z, i, w))
    ensures Predict(x, i) == Mix(c, Predict(y, i), d, Predict(z, i))
  {
  }

  /** The whole initialise-and-smooth loop is a linear operator: on c * ys +
      d * zs it computes c and d times its separate results. */
  lemma {:induction false} SmoothingIsLinear(xs: seq<real>, c: real, ys: seq<real>, d: real, zs: seq<real>, n: nat)
    requires Mixes(xs, c, ys, d, zs) && |xs| >= 2 * SEASON && n <= |xs|
    ensures MixesState(After(xs, n), c, After(ys, n), d, After(zs, n))
  {
    if n == 0 {
      InitialMixes(xs, c, ys, d, zs);
    } else {
      SmoothingIsLinear(xs, c, ys, d, zs, n - 1);
      StepMixes(After(xs, n - 1), c, After(ys, n - 1), d, After(zs, n - 1), n - 1, ys[n - 1], zs[n - 1]);
    }
  }

  /** And so are its predictions. */
  lemma PredictionsAreLinear(xs: seq<real>, c: real, ys: seq<real>, d: real, zs: seq<real>)
    requires Mixes(xs, c, ys, d, zs) && |xs| >= 2 * SEASON
    ensures Mixes(Predictions(xs), c, Predictions(ys), d, Predictions(zs))
  {
    forall i | 0 <= i < |xs|
      ensures Predicted(xs, i) == Mix(c, Predicted(ys, i), d, Predicted(zs, i))
    {
      SmoothingIsLinear(xs, c, ys, d, zs, i);
      StepMixes(After(xs, i), c, After(ys, i), d, After(zs, i), i, ys[i], zs[i]);
    }
  }

  lemma OnesSettle(n: nat)
    requires n >= 2 * SEASON
    ensures var ones := seq(n, _ => 1.0);
            Periodic(ones) && Settled(ones) == State(1.0, 0.0, seq(SEASON, _ => 0.0))
  {
    var ones := seq(n, _ => 1.0);
    SumOfEqual(ones, 1.0, SEASON);
    assert Settled(ones).seasonals == seq(SEASON, _ => 0.0);
  }

  /** Adding a constant to every observation moves only the level. */
  lemma {:induction false} ShiftMovesLevel(xs: seq<real>, ys: seq<real>, k: real, n: nat)
    requires 2 * SEASON <= |xs| == |ys| && n <= |xs|
    requires forall i :: 0 <= i < |xs| ==> xs[i] == ys[i] + k
    ensures After(xs, n) == After(ys, n).(level := After(ys, n).level + k)
  {
    var ones := seq(|xs|, _ => 1.0);
    forall i | 0 <= i < |xs|
      ensures xs[i] == Mix(1.0, ys[i], k, ones[i])
    {
    }
    SmoothingIsLinear(xs, 1.0, ys, k, ones, n);
    OnesSettle(|xs|);
    PeriodicIsSettled(ones, n);
    forall i | 0 <= i < SEASON
      ensures After(xs, n).seasonals[i] == After(ys, n).seasonals[i]
    {
      assert After(xs, n).seasonals[i] == Mix(1.0, After(ys, n).seasonals[i], k, 0.0);
    }
    assert After(xs, n).seasonals == After(ys, n).seasonals;
  }

  // -------------------------------------------------------- balanced offsets

  // The offsets of the first k weekdays, summed.
  function OffsetSum(ys: seq<real>, k: nat, seasons: nat, full: nat): real
    requires k <= SEASON && seasons <= full && full > 0 && full * SEASON <= |ys|
  {
    if k == 0 then 0.0 else OffsetSum(ys, k - 1, seasons, full) + Offset(ys, k - 1, seasons, full)
  }

  // The deviations of the first k days of season s from its mean, summed.
  function DeviationSum(ys: seq<real>, s: nat, k: nat): real
    requires k <= SEASON && (s + 1) * SEASON <= |ys|
  {
    if k == 0 then 0.0 else DeviationSum(ys, s, k - 1) + (ys[s * SEASON + k - 1] - SeasonMean(ys, s))
  }

  lemma {:induction false} DeviationsCollect(ys: seq<real>, s: nat, k: nat)
    requires k <= SEASON && (s + 1) * SEASON <= |ys|
    ensures DeviationSum(ys, s, k) == SumFrom(ys, s * SEASON, k) - k as real * SeasonMean(ys, s)
  {
    if k > 0 {
      DeviationsCollect(ys, s, k - 1);
      OneMore(k - 1, SeasonMean(ys, s));
    }
  }

  lemma DeviationsCancel(ys: seq<real>, s: nat)
    requires (s + 1) * SEASON <= |ys|
    ensures DeviationSum(ys, s, SEASON) == 0.0
  {
    DeviationsCollect(ys, s, SEASON);
  }

  lemma {:induction false} OffsetSumStep(ys: seq<real>, k: nat, s: nat, full: nat)
    requires k <= SEASON && s < full && full * SEASON <= |ys|
    ensures (s + 1) * SEASON <= |ys|
    ensures OffsetSum(ys, k, s + 1, full) == OffsetSum(ys, k, s, full) + DeviationSum(ys, s, k) / full as real
  {
    SeasonEnds(s, full, |ys|);
    if k > 0 {
      OffsetSumStep(ys, k - 1, s, full);
      SumOfQuotients(DeviationSum(ys, s, k - 1), ys[s * SEASON + k - 1] - SeasonMean(ys, s), full as real);
    }
  }

  lemma {:induction false} OffsetSumIsZero(ys: seq<real>, seasons: nat, full: nat)
    requires seasons <= full && full > 0 && full * SEASON <= |ys|
    ensures OffsetSum(ys, SEASON, seasons, full) == 0.0
  {
    if seasons == 0 {
      OffsetSumOfNone(ys, SEASON, full);
    } else {
      OffsetSumIsZero(ys, seasons - 1, full);
      OffsetSumStep(ys, SEASON, seasons - 1, full);
      DeviationsCancel(ys, seasons - 1);
    }
  }

  lemma {:induction false} OffsetSumOfNone(ys: seq<real>, k: nat, full: nat)
    requires k <= SEASON && full > 0 && full * SEASON <= |ys|
    ensures OffsetSum(ys, k, 0, full) == 0.0
  {
    if k > 0 {
      OffsetSumOfNone(ys, k - 1, full);
    }
  }

  lemma {:induction false} SumOfOffsets(ys: seq<real>, k: nat)
    requires |ys| >= 2 * SEASON && k <= SEASON
    ensures SumFrom(Initial(ys).seasonals, 0, k) == OffsetSum(ys, k, FullSeasons(|ys|), FullSeasons(|ys|))
  {
    if k > 0 {
      SumOfOffsets(ys, k - 1);
    }
  }

  /** The initial weekday offsets sum to zero. */
  lemma InitialOffsetsBalance(ys: seq<real>)
    requires |ys| >= 2 * SEASON
    ensures SumFrom(Initial(ys).seasonals, 0, SEASON) == 0.0
  {
    SumOfOffsets(ys, SEASON);
    OffsetSumIsZero(ys, FullSeasons(|ys|), FullSeasons(|ys|));
  }
}
