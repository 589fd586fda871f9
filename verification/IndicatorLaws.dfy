/** What the indicators of indicators.py mean for the bars: which index is which direction,
    what they are worth on a trend, and when the ADX is full. */
module IndicatorLaws {
  import opened Wrappers
  import opened Market
  import opened Indicators

  // ----- the recurrences -------------------------------------------------------------------

  lemma OverRecovers(a: real, n: nat)
    requires n > 0
    ensures Times(Over(a, n as real), n as real) == a
  {
    OverTimes(a, n as real);
  }

  /** An EMA starts at its first value; after it, times (period + 1), it is twice the new
      value plus (period - 1) times the last one. */
  lemma EmaExactly(v: seq<real>, period: nat, i: nat)
    requires period > 0 && i < |v|
    ensures i == 0 ==> Emas(v, period)[i] == v[i]
    ensures i > 0 ==>
              Times(Emas(v, period)[i], (period + 1) as real)
              == v[i] + v[i] + Times(Emas(v, period)[i - 1], (period - 1) as real)
  {
    if i > 0 {
      var k, prev := EmaWeight(period), EmaAt(v, period, i - 1);
      BlendScaled(v[i], prev, period);
    }
  }

  lemma BlendScaled(x: real, prev: real, period: nat)
    requires period > 0
    ensures Times(Blend(x, prev, EmaWeight(period)), (period + 1) as real) == x + x + Times(prev, (period - 1) as real)
  {
    hide Times, Over;
    var n, k := (period + 1) as real, EmaWeight(period);
    OverTimes(2.0, n);
    TimesSum(Times(x, k), Times(prev, 1.0 - k), n);
    TimesAssociate(x, k, n);
    TimesAssociate(prev, 1.0 - k, n);
    TimesFlip(x, 2.0);
    TimesTwo(x);
    TimesSum(1.0 - k, k, n);
    TimesUnits(n);
    assert 1.0 - k + k == 1.0;
    assert Times(1.0 - k, n) == n - 2.0 == (period - 1) as real;
  }

  lemma TimesTwo(x: real)
    ensures Times(2.0, x) == x + x
  {
  }

  /** Wilder smoothing has no value before the first full window, there the mean, and after
      it, times the period, the last value (period - 1) times plus the new one. */
  lemma WilderExactly(v: seq<real>, period: nat, i: nat)
    requires period > 0 && i < |v|
    ensures var w := Wilder(v, period);
            && (w[i].Some? <==> i + 1 >= period)
            && (i + 1 == period ==> Times(w[i].value, period as real) == Sum(v[..period]))
            && (i + 1 > period ==>
                  Times(w[i].value, period as real) == Times(w[i - 1].value, (period - 1) as real) + v[i])
  {
    hide Times, Over;
    if i + 1 == period {
      OverRecovers(Sum(v[..period]), period);
    } else if i + 1 > period {
      OverRecovers(Times(WilderAt(v, period, i - 1).value, (period - 1) as real) + v[i], period);
    }
  }

  /** The true range is the greatest of the bar's own range and its distances to the last
      close. */
  lemma TrueRangeExactly(bars: seq<Bar>, i: nat)
    requires i < |bars|
    ensures var t, own := TrueRanges(bars)[i], bars[i].high - bars[i].low;
            && (i == 0 ==> t == own)
            && (i > 0 ==>
                  var up, down := Abs(bars[i].high - bars[i - 1].close), Abs(bars[i].low - bars[i - 1].close);
                  t >= own && t >= up && t >= down && t in {own, up, down})
  {
  }

  // ----- which index is which direction -------------------------------------------------------

  /** How far the highs rose, where they rose by more than the lows fell. */
  function Rises(bars: seq<Bar>): (r: seq<real>)
    ensures |r| == |bars|
  {
    seq(|bars|, i requires 0 <= i < |bars| =>
      if i > 0 && bars[i].high > bars[i - 1].high && bars[i].high - bars[i - 1].high > bars[i - 1].low - bars[i].low
      then bars[i].high - bars[i - 1].high else 0.0)
  }

  /** How far the lows fell, where they fell by more than the highs rose. */
  function Falls(bars: seq<Bar>): (r: seq<real>)
    ensures |r| == |bars|
  {
    seq(|bars|, i requires 0 <= i < |bars| =>
      if i > 0 && bars[i].low < bars[i - 1].low && bars[i - 1].low - bars[i].low > bars[i].high - bars[i - 1].high
      then bars[i - 1].low - bars[i].low else 0.0)
  }

  lemma MovesAre(bars: seq<Bar>)
    ensures PlusDms(bars) == Rises(bars) && MinusDms(bars) == Falls(bars)
  {
  }

  lemma DiScaled(range: Option<real>, dm: Option<real>)
    requires range.Some? && dm.Some?
    ensures if range.value == 0.0 then DiOf(range, dm) == 0.0
            else Times(DiOf(range, dm), range.value) == 100.0 * dm.value
  {
    hide Times, Over;
    if range.value != 0.0 { OverTimes(100.0 * dm.value, range.value); }
  }

  /** At every index: without a range both indices are zero; with one, +DI times the
      smoothed true range is 100 times the smoothed rises, and -DI that of the falls. */
  lemma DirectionsExactly(bars: seq<Bar>, period: nat, i: nat)
    requires period > 0 && i < |bars|
    ensures var range := WilderAt(TrueRanges(bars), period, i);
            var plus, minus := PlusDis(bars, period)[i], MinusDis(bars, period)[i];
            if range.None? || range.value == 0.0 then plus == 0.0 && minus == 0.0
            else
              && Times(plus, range.value) == 100.0 * WilderAt(Rises(bars), period, i).value
              && Times(minus, range.value) == 100.0 * WilderAt(Falls(bars), period, i).value
  {
    hide Times, Over, WilderAt, TrueRangeAt;
    MovesAre(bars);
    var range := WilderAt(TrueRanges(bars), period, i);
    if i + 1 >= period {
      DiScaled(range, WilderAt(Rises(bars), period, i));
      DiScaled(range, WilderAt(Falls(bars), period, i));
    }
  }

  // ----- when a smoothed series is positive ----------------------------------------------------

  /** A value above zero that smoothing has not forgotten: a period of one only remembers the
      last. */
  ghost predicate Remembered(v: seq<real>, period: nat, i: nat)
    requires i < |v|
  {
    exists j :: 0 <= j <= i && v[j] > 0.0 && (period > 1 || j == i)
  }

  lemma {:induction false} SumPositive(v: seq<real>)
    requires forall j :: 0 <= j < |v| ==> v[j] >= 0.0
    ensures Sum(v) >= 0.0
    ensures Sum(v) > 0.0 <==> exists j :: 0 <= j < |v| && v[j] > 0.0
  {
    if v != [] {
      var n := |v| - 1;
      SumPositive(v[..n]);
      if Sum(v[..n]) > 0.0 {
        var j :| 0 <= j < n && v[..n][j] > 0.0;
        assert v[j] > 0.0;
      } else {
        forall j | 0 <= j < n ensures v[j] == 0.0 { assert v[..n][j] == v[j]; }
      }
    }
  }

  lemma SmoothedPositive(prev: real, x: real, period: nat)
    requires period > 0 && prev >= 0.0 && x >= 0.0
    ensures Smoothed(prev, x, period) >= 0.0
    ensures Smoothed(prev, x, period) > 0.0 <==> x > 0.0 || (period > 1 && prev > 0.0)
  {
    hide Times, Over;
    var w := (period - 1) as real;
    OverSign(Times(prev, w) + x, period as real);
    if period > 1 {
      TimesSign(prev, w);
    } else {
      TimesFlip(prev, 0.0);
      TimesUnits(prev);
    }
  }

  /** The smoothing of a series that is not negative is positive exactly when a positive
      value is remembered. */
  lemma {:induction false} WilderPositive(v: seq<real>, period: nat, i: nat)
    requires period > 0 && i < |v| && i + 1 >= period
    requires forall j :: 0 <= j < |v| ==> v[j] >= 0.0
    ensures WilderAt(v, period, i).value >= 0.0
    ensures WilderAt(v, period, i).value > 0.0 <==> Remembered(v, period, i)
  {
    hide Over, Smoothed;
    if i + 1 == period {
      var window := v[..period];
      SumPositive(window);
      OverSign(Sum(window), period as real);
      if Remembered(v, period, i) {
        var j :| 0 <= j <= i && v[j] > 0.0;
        assert window[j] > 0.0;
      }
      if Sum(window) > 0.0 {
        var j :| 0 <= j < |window| && window[j] > 0.0;
        assert v[j] > 0.0 && 0 <= j <= i && (period > 1 || j == i);
      }
    } else {
      WilderPositive(v, period, i - 1);
      SmoothedPositive(WilderAt(v, period, i - 1).value, v[i], period);
      if Remembered(v, period, i) {
        var j :| 0 <= j <= i && v[j] > 0.0 && (period > 1 || j == i);
        if j < i { assert 0 <= j <= i - 1 && v[j] > 0.0; }
      }
      if v[i] > 0.0 { assert 0 <= i <= i && v[i] > 0.0; }
      if period > 1 && Remembered(v, period, i - 1) {
        var j :| 0 <= j <= i - 1 && v[j] > 0.0;
        assert 0 <= j <= i && v[j] > 0.0;
      }
    }
  }

  lemma DiPositive(range: Option<real>, dm: Option<real>)
    requires range.Some? ==> dm.Some? && range.value >= 0.0 && dm.value >= 0.0
    ensures DiOf(range, dm) >= 0.0
    ensures DiOf(range, dm) > 0.0 <==> range.Some? && range.value > 0.0 && dm.value > 0.0
  {
    hide Over;
    if range.Some? && range.value > 0.0 { OverSign(100.0 * dm.value, range.value); }
  }

  /** +DI is above zero exactly when there is a range and a rise is remembered, and -DI
      exactly when a fall is. */
  lemma DirectionsPositive(bars: seq<Bar>, period: nat, i: nat)
    requires WellFormed(bars) && period > 0 && i < |bars|
    ensures var range := WilderAt(TrueRanges(bars), period, i);
            var moving := range.Some? && range.value > 0.0;
            && (PlusDis(bars, period)[i] > 0.0 <==> moving && Remembered(Rises(bars), period, i))
            && (MinusDis(bars, period)[i] > 0.0 <==> moving && Remembered(Falls(bars), period, i))
  {
    hide WilderAt, TrueRangeAt, Remembered;
    MovesAre(bars);
    DirectionalBounds(bars, period, i);
    var range := WilderAt(TrueRanges(bars), period, i);
    if i + 1 >= period {
      WilderPositive(Rises(bars), period, i);
      WilderPositive(Falls(bars), period, i);
      DiPositive(range, WilderAt(Rises(bars), period, i));
      DiPositive(range, WilderAt(Falls(bars), period, i));
    }
  }

  // ----- trends ------------------------------------------------------------------------------

  predicate Rising(bars: seq<Bar>) {
    forall i :: 0 < i < |bars| ==> bars[i].high >= bars[i - 1].high && bars[i].low >= bars[i - 1].low
  }

  predicate Falling(bars: seq<Bar>) {
    forall i :: 0 < i < |bars| ==> bars[i].high <= bars[i - 1].high && bars[i].low <= bars[i - 1].low
  }

  /** A higher high, or a lower low, that the smoothing remembers. */
  ghost predicate HigherHigh(bars: seq<Bar>, period: nat, i: nat)
    requires i < |bars|
  {
    exists j :: 0 < j <= i && bars[j].high > bars[j - 1].high && (period > 1 || j == i)
  }

  ghost predicate LowerLow(bars: seq<Bar>, period: nat, i: nat)
    requires i < |bars|
  {
    exists j :: 0 < j <= i && bars[j].low < bars[j - 1].low && (period > 1 || j == i)
  }

  lemma RisingAt(bars: seq<Bar>, j: nat)
    requires Rising(bars) && j < |bars|
    ensures Falls(bars)[j] == 0.0
    ensures Rises(bars)[j] > 0.0 <==> j > 0 && bars[j].high > bars[j - 1].high
  {
  }

  lemma FallingAt(bars: seq<Bar>, j: nat)
    requires Falling(bars) && j < |bars|
    ensures Rises(bars)[j] == 0.0
    ensures Falls(bars)[j] > 0.0 <==> j > 0 && bars[j].low < bars[j - 1].low
  {
  }

  lemma RisingMoves(bars: seq<Bar>, period: nat, i: nat)
    requires Rising(bars) && i < |bars|
    ensures !Remembered(Falls(bars), period, i)
    ensures Remembered(Rises(bars), period, i) <==> HigherHigh(bars, period, i)
  {
    var rises, falls := Rises(bars), Falls(bars);
    forall j | 0 <= j <= i
      ensures falls[j] == 0.0 && (rises[j] > 0.0 <==> j > 0 && bars[j].high > bars[j - 1].high)
    {
      RisingAt(bars, j);
    }
    hide Rising, Rises, Falls;
    if Remembered(rises, period, i) {
      var j :| 0 <= j <= i && rises[j] > 0.0 && (period > 1 || j == i);
      assert 0 < j <= i && bars[j].high > bars[j - 1].high;
    }
    if HigherHigh(bars, period, i) {
      var j :| 0 < j <= i && bars[j].high > bars[j - 1].high && (period > 1 || j == i);
      assert rises[j] > 0.0;
    }
  }

  lemma FallingMoves(bars: seq<Bar>, period: nat, i: nat)
    requires Falling(bars) && i < |bars|
    ensures !Remembered(Rises(bars), period, i)
    ensures Remembered(Falls(bars), period, i) <==> LowerLow(bars, period, i)
  {
    var rises, falls := Rises(bars), Falls(bars);
    forall j | 0 <= j <= i
      ensures rises[j] == 0.0 && (falls[j] > 0.0 <==> j > 0 && bars[j].low < bars[j - 1].low)
    {
      FallingAt(bars, j);
    }
    hide Falling, Rises, Falls;
    if Remembered(falls, period, i) {
      var j :| 0 <= j <= i && falls[j] > 0.0 && (period > 1 || j == i);
      assert 0 < j <= i && bars[j].low < bars[j - 1].low;
    }
    if LowerLow(bars, period, i) {
      var j :| 0 < j <= i && bars[j].low < bars[j - 1].low && (period > 1 || j == i);
      assert falls[j] > 0.0;
    }
  }

  /** On a series whose highs and lows never fall, -DI is zero throughout, and +DI is above
      zero exactly where there is a range and the smoothing remembers a higher high. */
  lemma RisingIsPlus(bars: seq<Bar>, period: nat, i: nat)
    requires WellFormed(bars) && Rising(bars) && period > 0 && i < |bars|
    ensures var range := WilderAt(TrueRanges(bars), period, i);
            && MinusDis(bars, period)[i] == 0.0
            && (PlusDis(bars, period)[i] > 0.0 <==> range.Some? && range.value > 0.0 && HigherHigh(bars, period, i))
  {
    hide WilderAt, TrueRangeAt, Remembered, HigherHigh, Rises, Falls;
    DirectionsPositive(bars, period, i);
    DirectionalBounds(bars, period, i);
    RisingMoves(bars, period, i);
  }

  /** And the other way round where they never rise. */
  lemma FallingIsMinus(bars: seq<Bar>, period: nat, i: nat)
    requires WellFormed(bars) && Falling(bars) && period > 0 && i < |bars|
    ensures var range := WilderAt(TrueRanges(bars), period, i);
            && PlusDis(bars, period)[i] == 0.0
            && (MinusDis(bars, period)[i] > 0.0 <==> range.Some? && range.value > 0.0 && LowerLow(bars, period, i))
  {
    hide WilderAt, TrueRangeAt, Remembered, LowerLow, Rises, Falls;
    DirectionsPositive(bars, period, i);
    DirectionalBounds(bars, period, i);
    FallingMoves(bars, period, i);
  }

  // ----- the spread and its smoothing ----------------------------------------------------------

  /** What each new bar adds to the ADX, read off the output: times the sum of the two
      indices it is 100 times their distance, and nothing where both are zero. */
  lemma AdxExactly(bars: seq<Bar>, period: nat, i: nat)
    requires period > 0 && period <= i < |bars|
    ensures var adx, plus, minus := Adxs(bars, period), PlusDis(bars, period)[i], MinusDis(bars, period)[i];
            adx[i].Some? && adx[i - 1].Some? &&
            var added := Times(adx[i].value, period as real) - Times(adx[i - 1].value, (period - 1) as real);
            if plus + minus > 0.0 then Times(added, plus + minus) == 100.0 * Abs(plus - minus) else added == 0.0
  {
    hide Times, Over, WilderAt;
    WilderExactly(Dxs(bars, period), period, i);
    var plus, minus := PlusDis(bars, period)[i], MinusDis(bars, period)[i];
    if plus + minus > 0.0 { OverTimes(100.0 * Abs(plus - minus), plus + minus); }
  }

  /** Exactly one of the two indices is above zero. */
  predicate OneSided(bars: seq<Bar>, period: nat, i: nat)
    requires period > 0 && i < |bars|
  {
    (PlusDis(bars, period)[i] > 0.0) != (MinusDis(bars, period)[i] > 0.0)
  }

  /** The spread is 100 exactly where one side has all of it. */
  lemma DxFull(plus: real, minus: real)
    requires plus >= 0.0 && minus >= 0.0
    ensures DxOf(plus, minus) == 100.0 <==> (plus > 0.0) != (minus > 0.0)
  {
    hide Times, Over;
    if plus + minus > 0.0 {
      OverTimes(100.0 * Abs(plus - minus), plus + minus);
      TimesUnits(plus + minus);
      if Abs(plus - minus) == plus + minus { OverIs(100.0 * Abs(plus - minus), plus + minus, 100.0); }
    }
  }

  function Complement(v: seq<real>, c: real): (r: seq<real>)
    ensures |r| == |v|
  {
    seq(|v|, i requires 0 <= i < |v| => c - v[i])
  }

  lemma {:induction false} SumComplement(v: seq<real>, c: real)
    ensures Sum(Complement(v, c)) == Times(c, |v| as real) - Sum(v)
  {
    hide Times;
    if v == [] {
      TimesFlip(c, 0.0);
      TimesUnits(c);
    } else {
      var n := |v| - 1;
      SumComplement(v[..n], c);
      assert Complement(v, c)[..n] == Complement(v[..n], c);
      TimesStep(c, n);
      assert |v| == n + 1;
    }
  }

  lemma SmoothedComplement(prev: real, x: real, c: real, period: nat)
    requires period > 0
    ensures Smoothed(c - prev, c - x, period) == c - Smoothed(prev, x, period)
  {
    hide Times, Over;
    var w, n := (period - 1) as real, period as real;
    TimesSum(c - prev, prev, w);
    assert c - prev + prev == c;
    TimesStep(c, period - 1);
    var a, b := Times(c - prev, w) + (c - x), Times(prev, w) + x;
    assert a + b == Times(c, n);
    OverSum(a, b, n);
    OverIs(Times(c, n), n, c);
  }

  /** Smoothing is linear: the distances to `c` smooth to the distance to `c`. */
  lemma {:induction false} WilderComplement(v: seq<real>, c: real, period: nat, i: nat)
    requires period > 0 && i < |v| && i + 1 >= period
    ensures WilderAt(Complement(v, c), period, i).value == c - WilderAt(v, period, i).value
  {
    hide Times, Over, Smoothed;
    if i + 1 == period {
      var n := period as real;
      var window := v[..period];
      SumComplement(window, c);
      assert Complement(v, c)[..period] == Complement(window, c);
      OverSum(Sum(Complement(window, c)), Sum(window), n);
      OverIs(Times(c, n), n, c);
    } else {
      WilderComplement(v, c, period, i - 1);
      SmoothedComplement(WilderAt(v, period, i - 1).value, v[i], c, period);
    }
  }

  lemma SpreadBound(bars: seq<Bar>, period: nat, i: nat)
    requires WellFormed(bars) && period > 0 && i < |bars|
    ensures 0.0 <= Dxs(bars, period)[i] <= 100.0
    ensures Dxs(bars, period)[i] == 100.0 <==> OneSided(bars, period, i)
    ensures i + 1 < period ==> Dxs(bars, period)[i] == 0.0
  {
    hide Over, TrueRangeAt;
    DirectionalBounds(bars, period, i);
    DxBound(PlusDis(bars, period)[i], MinusDis(bars, period)[i]);
    DxFull(PlusDis(bars, period)[i], MinusDis(bars, period)[i]);
  }

  /** The ADX is never quite full: bars before the first full window count as a spread of
      zero and are never forgotten, so it is 100 only with a period of one, where the last
      bar decides alone. */
  lemma AdxFullExactly(bars: seq<Bar>, period: nat, i: nat)
    requires WellFormed(bars) && period > 0 && i < |bars| && i + 1 >= period
    ensures Adxs(bars, period)[i] == Some(100.0) <==> period == 1 && OneSided(bars, period, i)
  {
    hide Over, TrueRangeAt, OneSided, Dxs;
    var dx := Dxs(bars, period);
    assert |dx| == |bars| by { SameLength(bars, period); }
    var rest := Complement(dx, 100.0);
    forall j | 0 <= j < |rest| ensures rest[j] >= 0.0 { SpreadBound(bars, period, j); }
    WilderPositive(rest, period, i);
    WilderComplement(dx, 100.0, period, i);
    SpreadBound(bars, period, 0);
    SpreadBound(bars, period, i);
    if period > 1 {
      assert rest[0] > 0.0 && Remembered(rest, period, i);
    } else {
      assert Remembered(rest, period, i) <==> rest[i] > 0.0;
    }
    AdxIsSmoothed(bars, period, i);
  }

  lemma SameLength(bars: seq<Bar>, period: nat)
    requires period > 0
    ensures |Dxs(bars, period)| == |bars|
  {
  }

  lemma AdxIsSmoothed(bars: seq<Bar>, period: nat, i: nat)
    requires period > 0 && i < |bars|
    ensures |Dxs(bars, period)| == |bars| && Adxs(bars, period)[i] == WilderAt(Dxs(bars, period), period, i)
  {
    hide Over, WilderAt;
  }

  /** What is missing to 100 after `n` spreads of 100: it starts at 100 and shrinks by
      (period - 1) / period each time. */
  function Missing(period: nat, n: nat): real
    requires period > 0
  {
    if n == 0 then 100.0 else Over(Times(Missing(period, n - 1), (period - 1) as real), period as real)
  }

  /** From the first full window on, a one-sided series brings the ADX toward 100 at
      exactly this rate. */
  lemma {:induction false} TrendFillsAdx(bars: seq<Bar>, period: nat, i: nat)
    requires WellFormed(bars) && period > 0 && i < |bars| && i + 1 >= period
    requires forall j :: period - 1 <= j <= i ==> OneSided(bars, period, j)
    ensures Adxs(bars, period)[i] == Some(100.0 - Missing(period, i + 2 - period))
  {
    hide Over, Times, TrueRangeAt, OneSided, Dxs, Adxs;
    AdxIsSmoothed(bars, period, i);
    var dx := Dxs(bars, period);
    SpreadBound(bars, period, i);
    var rest := Complement(dx, 100.0);
    WilderComplement(dx, 100.0, period, i);
    var n := period as real;
    if i + 1 == period {
      forall j | 0 <= j < period - 1 ensures rest[j] == 100.0 { SpreadBound(bars, period, j); }
      FirstMissing(rest, period);
      assert Missing(period, 1) == Over(Times(Missing(period, 0), (period - 1) as real), n);
    } else {
      TrendFillsAdx(bars, period, i - 1);
      AdxIsSmoothed(bars, period, i - 1);
      WilderComplement(dx, 100.0, period, i - 1);
      assert i + 2 - period - 1 == i - 1 + 2 - period;
      assert rest[i] == 0.0;
    }
  }

  /** The first window: all but its last spread are missing. */
  lemma FirstMissing(rest: seq<real>, period: nat)
    requires 0 < period <= |rest| && rest[period - 1] == 0.0 && forall j :: 0 <= j < period - 1 ==> rest[j] == 100.0
    ensures WilderAt(rest, period, period - 1) == Some(Over(Times(100.0, (period - 1) as real), period as real))
  {
    hide Over, Times;
    var window := rest[..period];
    assert window[..period - 1] == rest[..period - 1];
    SumConstant(window[..period - 1], 100.0);
    assert Sum(window) == Sum(window[..period - 1]) + 0.0;
  }

  /** So a steady rise, with a range and a remembered higher high at every full window, has
      exactly that ADX. */
  lemma RisingAdx(bars: seq<Bar>, period: nat, i: nat)
    requires WellFormed(bars) && Rising(bars) && period > 0 && i < |bars| && i + 1 >= period
    requires forall j :: period - 1 <= j <= i ==>
               WilderAt(TrueRanges(bars), period, j).value > 0.0 && HigherHigh(bars, period, j)
    ensures Adxs(bars, period)[i] == Some(100.0 - Missing(period, i + 2 - period))
  {
    hide WilderAt, TrueRangeAt, HigherHigh, PlusDis, MinusDis, Adxs, Missing;
    forall j | period - 1 <= j <= i ensures OneSided(bars, period, j) {
      RisingIsPlus(bars, period, j);
    }
    TrendFillsAdx(bars, period, i);
  }
}
