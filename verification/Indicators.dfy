/** indicators.py over exact reals. Not-a-number is None. The specification gives
    each output by its index; the methods fill the series in loops, as the source
    does. */
module Indicators {
  import opened Wrappers
  import opened Market

  // ----- specification -------------------------------------------------------

  function Sum(v: seq<real>): real {
    if v == [] then 0.0 else Sum(v[..|v| - 1]) + v[|v| - 1]
  }

  function EmaWeight(period: nat): real
    requires period > 0
  {
    Over(2.0, (period + 1) as real)
  }

  function EmaAt(v: seq<real>, period: nat, i: nat): real
    requires period > 0 && i < |v|
  {
    if i == 0 then v[0]
    else Blend(v[i], EmaAt(v, period, i - 1), EmaWeight(period))
  }

  function TrueRangeAt(bars: seq<Bar>, i: nat): real
    requires i < |bars|
  {
    var b := bars[i];
    if i == 0 then b.high - b.low
    else
      var prev := bars[i - 1].close;
      Max(Max(b.high - b.low, Abs(b.high - prev)), Abs(b.low - prev))
  }

  function Smoothed(prev: real, x: real, period: nat): real
    requires period > 0
  {
    Over(Times(prev, (period - 1) as real) + x, period as real)
  }

  function Blend(x: real, prev: real, k: real): real {
    Times(x, k) + Times(prev, 1.0 - k)
  }

  /** Wilder smoothing: nothing before the first full window, then its mean, then
      the running average with weight 1/period. */
  function WilderAt(v: seq<real>, period: nat, i: nat): Option<real>
    requires period > 0 && i < |v|
    ensures WilderAt(v, period, i).Some? <==> i + 1 >= period
  {
    if i + 1 < period then None
    else if i + 1 == period then Some(Over(Sum(v[..period]), period as real))
    else Some(Smoothed(WilderAt(v, period, i - 1).value, v[i], period))
  }

  function UpMove(bars: seq<Bar>, i: nat): real
    requires 0 < i < |bars|
  {
    bars[i].high - bars[i - 1].high
  }

  function DownMove(bars: seq<Bar>, i: nat): real
    requires 0 < i < |bars|
  {
    bars[i - 1].low - bars[i].low
  }

  function PlusDmAt(bars: seq<Bar>, i: nat): real
    requires i < |bars|
  {
    if i > 0 && UpMove(bars, i) > DownMove(bars, i) && UpMove(bars, i) > 0.0 then UpMove(bars, i) else 0.0
  }

  function MinusDmAt(bars: seq<Bar>, i: nat): real
    requires i < |bars|
  {
    if i > 0 && DownMove(bars, i) > UpMove(bars, i) && DownMove(bars, i) > 0.0 then DownMove(bars, i) else 0.0
  }

  function TrueRanges(bars: seq<Bar>): seq<real> { seq(|bars|, i requires 0 <= i < |bars| => TrueRangeAt(bars, i)) }
  function PlusDms(bars: seq<Bar>): seq<real> { seq(|bars|, i requires 0 <= i < |bars| => PlusDmAt(bars, i)) }
  function MinusDms(bars: seq<Bar>): seq<real> { seq(|bars|, i requires 0 <= i < |bars| => MinusDmAt(bars, i)) }

  function Emas(v: seq<real>, period: nat): seq<real>
    requires period > 0
  {
    seq(|v|, i requires 0 <= i < |v| => EmaAt(v, period, i))
  }

  function Wilder(v: seq<real>, period: nat): seq<Option<real>>
    requires period > 0
  {
    seq(|v|, i requires 0 <= i < |v| => WilderAt(v, period, i))
  }

  function Atrs(bars: seq<Bar>, period: nat): seq<Option<real>>
    requires period > 0
  {
    Wilder(TrueRanges(bars), period)
  }

  /** One directional index: zero while the range is unknown or zero. */
  function DiOf(range: Option<real>, dm: Option<real>): real {
    if range.None? || range.value == 0.0 || dm.None? then 0.0 else Over(100.0 * dm.value, range.value)
  }

  function Dis(bars: seq<Bar>, dms: seq<real>, period: nat): seq<real>
    requires period > 0 && |dms| == |bars|
  {
    seq(|bars|, i requires 0 <= i < |bars| =>
      DiOf(WilderAt(TrueRanges(bars), period, i), WilderAt(dms, period, i)))
  }

  function PlusDis(bars: seq<Bar>, period: nat): seq<real>
    requires period > 0
  {
    Dis(bars, PlusDms(bars), period)
  }

  function MinusDis(bars: seq<Bar>, period: nat): seq<real>
    requires period > 0
  {
    Dis(bars, MinusDms(bars), period)
  }

  /** The directional spread in percent; no value (and then 0) without a range. */
  function DxOf(plus: real, minus: real): real {
    if plus + minus > 0.0 then Over(100.0 * Abs(plus - minus), plus + minus) else 0.0
  }

  function Dxs(bars: seq<Bar>, period: nat): seq<real>
    requires period > 0
  {
    seq(|bars|, i requires 0 <= i < |bars| => DxOf(PlusDis(bars, period)[i], MinusDis(bars, period)[i]))
  }

  function Adxs(bars: seq<Bar>, period: nat): seq<Option<real>>
    requires period > 0
  {
    Wilder(Dxs(bars, period), period)
  }

  // ----- the loops -----------------------------------------------------------

  /** None stands for the ValueError of a period that is not positive. */
  method Ema(values: seq<real>, period: int) returns (out: Option<seq<real>>)
    ensures out == if period <= 0 then None else Some(Emas(values, period))
  {
    if period <= 0 {
      return None;
    }
    if |values| == 0 {
      assert Emas(values, period) == [];
      return Some([]);
    }
    var k := 2.0 / (period + 1) as real;
    var acc := [values[0]];
    var i := 1;
    while i < |values|
      invariant 1 <= i <= |values| && |acc| == i
      invariant forall j :: 0 <= j < i ==> acc[j] == EmaAt(values, period, j)
    {
      acc := acc + [Blend(values[i], acc[|acc| - 1], k)];
      i := i + 1;
    }
    assert acc == Emas(values, period);
    out := Some(acc);
  }

  method TrueRange(bars: seq<Bar>) returns (out: seq<real>)
    ensures out == TrueRanges(bars)
  {
    if |bars| == 0 {
      return [];
    }
    out := [bars[0].high - bars[0].low];
    var i := 1;
    while i < |bars|
      invariant 1 <= i <= |bars| && |out| == i
      invariant forall j :: 0 <= j < i ==> out[j] == TrueRangeAt(bars, j)
    {
      var prevClose := bars[i - 1].close;
      var high, low := bars[i].high, bars[i].low;
      out := out + [Max(Max(high - low, Abs(high - prevClose)), Abs(low - prevClose))];
      i := i + 1;
    }
  }

  method WilderSmooth(values: seq<real>, period: nat) returns (out: seq<Option<real>>)
    requires period > 0
    ensures out == Wilder(values, period)
  {
    out := seq(|values|, _ => None);
    if |values| < period {
      return;
    }
    out := out[period - 1 := Some(Sum(values[..period]) / period as real)];
    var i := period;
    while i < |values|
      invariant period <= i <= |values| && |out| == |values|
      invariant forall j :: 0 <= j < i ==> out[j] == WilderAt(values, period, j)
    {
      out := out[i := Some(Smoothed(out[i - 1].value, values[i], period))];
      i := i + 1;
    }
  }

  method Atr(bars: seq<Bar>, period: nat) returns (out: seq<Option<real>>)
    requires period > 0
    ensures out == Atrs(bars, period)
  {
    var tr := TrueRange(bars);
    out := WilderSmooth(tr, period);
  }

  method DirectionalMoves(bars: seq<Bar>) returns (plus: seq<real>, minus: seq<real>)
    ensures plus == PlusDms(bars) && minus == MinusDms(bars)
  {
    plus, minus := seq(|bars|, _ => 0.0), seq(|bars|, _ => 0.0);
    var i := 1;
    while i < |bars|
      invariant 1 <= i && |plus| == |minus| == |bars|
      invariant forall j :: 0 <= j < |bars| ==> plus[j] == if j < i then PlusDmAt(bars, j) else 0.0
      invariant forall j :: 0 <= j < |bars| ==> minus[j] == if j < i then MinusDmAt(bars, j) else 0.0
    {
      var up := bars[i].high - bars[i - 1].high;
      var down := bars[i - 1].low - bars[i].low;
      if up > down && up > 0.0 {
        plus := plus[i := up];
      }
      if down > up && down > 0.0 {
        minus := minus[i := down];
      }
      i := i + 1;
    }
  }

  method Adx(bars: seq<Bar>, period: nat) returns (adx: seq<Option<real>>, plusDi: seq<real>, minusDi: seq<real>)
    requires period > 0
    ensures adx == Adxs(bars, period)
    ensures plusDi == PlusDis(bars, period) && minusDi == MinusDis(bars, period)
  {
    var plusDm, minusDm := DirectionalMoves(bars);
    var ranges := Atr(bars, period);
    var plusS := WilderSmooth(plusDm, period);
    var minusS := WilderSmooth(minusDm, period);
    var dx;
    plusDi, minusDi, dx := DirectionalIndex(ranges, plusS, minusS);
    assert plusDi == PlusDis(bars, period);
    assert minusDi == MinusDis(bars, period);
    var filled := seq(|dx|, j requires 0 <= j < |dx| => OrZero(dx[j]));
    assert filled == Dxs(bars, period);
    adx := WilderSmooth(filled, period);
  }

  /** The second loop of `adx`: both indices and their spread, bar by bar. */
  method DirectionalIndex(ranges: seq<Option<real>>, plusS: seq<Option<real>>, minusS: seq<Option<real>>)
      returns (plusDi: seq<real>, minusDi: seq<real>, dx: seq<Option<real>>)
    requires |ranges| == |plusS| == |minusS|
    requires forall j :: 0 <= j < |ranges| ==> (ranges[j].Some? <==> plusS[j].Some?) && (ranges[j].Some? <==> minusS[j].Some?)
    ensures |plusDi| == |minusDi| == |dx| == |ranges|
    ensures forall j :: 0 <= j < |ranges| ==> plusDi[j] == DiOf(ranges[j], plusS[j])
    ensures forall j :: 0 <= j < |ranges| ==> minusDi[j] == DiOf(ranges[j], minusS[j])
    ensures forall j :: 0 <= j < |ranges| ==> OrZero(dx[j]) == DxOf(plusDi[j], minusDi[j])
  {
    var n := |ranges|;
    plusDi, minusDi, dx := seq(n, _ => 0.0), seq(n, _ => 0.0), seq(n, _ => None);
    var i := 0;
    while i < n
      invariant 0 <= i <= n && |plusDi| == |minusDi| == |dx| == n
      invariant forall j :: i <= j < n ==> plusDi[j] == minusDi[j] == 0.0 && dx[j].None?
      invariant forall j :: 0 <= j < i ==> plusDi[j] == DiOf(ranges[j], plusS[j])
      invariant forall j :: 0 <= j < i ==> minusDi[j] == DiOf(ranges[j], minusS[j])
      invariant forall j :: 0 <= j < i ==> OrZero(dx[j]) == DxOf(plusDi[j], minusDi[j])
    {
      var a := ranges[i];
      if a.Some? && a.value != 0.0 {
        plusDi := plusDi[i := 100.0 * plusS[i].value / a.value];
        minusDi := minusDi[i := 100.0 * minusS[i].value / a.value];
        var denom := plusDi[i] + minusDi[i];
        if denom > 0.0 {
          dx := dx[i := Some(100.0 * Abs(plusDi[i] - minusDi[i]) / denom)];
        }
      }
      i := i + 1;
    }
  }

  function OrZero(x: Option<real>): real {
    if x.None? then 0.0 else x.value
  }

  // ----- no lookahead ----------------------------------------------------------

  lemma {:induction false} WilderPrefix(v: seq<real>, period: nat, k: nat, i: nat)
    requires period > 0 && i < k <= |v|
    ensures WilderAt(v[..k], period, i) == WilderAt(v, period, i)
  {
    if i + 1 == period {
      assert v[..k][..period] == v[..period];
    } else if i + 1 > period {
      WilderPrefix(v, period, k, i - 1);
    }
  }

  lemma {:induction false} EmaPrefix(v: seq<real>, period: nat, k: nat, i: nat)
    requires period > 0 && i < k <= |v|
    ensures EmaAt(v[..k], period, i) == EmaAt(v, period, i)
  {
    if i > 0 {
      EmaPrefix(v, period, k, i - 1);
    }
  }

  lemma EmaNoLookahead(v: seq<real>, period: nat, k: nat)
    requires period > 0 && k <= |v|
    ensures Emas(v[..k], period) == Emas(v, period)[..k]
  {
    forall i | 0 <= i < k ensures Emas(v[..k], period)[i] == Emas(v, period)[i] {
      EmaPrefix(v, period, k, i);
    }
  }

  lemma WilderNoLookahead(v: seq<real>, period: nat, k: nat)
    requires period > 0 && k <= |v|
    ensures Wilder(v[..k], period) == Wilder(v, period)[..k]
  {
    forall i | 0 <= i < k ensures Wilder(v[..k], period)[i] == Wilder(v, period)[i] {
      WilderPrefix(v, period, k, i);
    }
  }

  lemma SeriesPrefix(bars: seq<Bar>, k: nat)
    requires k <= |bars|
    ensures TrueRanges(bars[..k]) == TrueRanges(bars)[..k]
    ensures PlusDms(bars[..k]) == PlusDms(bars)[..k]
    ensures MinusDms(bars[..k]) == MinusDms(bars)[..k]
  {
  }

  lemma DisPrefix(bars: seq<Bar>, dms: seq<real>, period: nat, k: nat)
    requires period > 0 && k <= |bars| == |dms|
    ensures Dis(bars[..k], dms[..k], period) == Dis(bars, dms, period)[..k]
  {
    SeriesPrefix(bars, k);
    forall i | 0 <= i < k ensures Dis(bars[..k], dms[..k], period)[i] == Dis(bars, dms, period)[i] {
      WilderPrefix(TrueRanges(bars), period, k, i);
      WilderPrefix(dms, period, k, i);
    }
  }

  /** Every output up to a bar is fixed by the bars up to it: running on a prefix
      gives the prefix of the output, the undefined region included. */
  lemma NoLookahead(bars: seq<Bar>, period: nat, k: nat)
    requires period > 0 && k <= |bars|
    ensures Atrs(bars[..k], period) == Atrs(bars, period)[..k]
    ensures PlusDis(bars[..k], period) == PlusDis(bars, period)[..k]
    ensures MinusDis(bars[..k], period) == MinusDis(bars, period)[..k]
    ensures Adxs(bars[..k], period) == Adxs(bars, period)[..k]
  {
    SeriesPrefix(bars, k);
    WilderNoLookahead(TrueRanges(bars), period, k);
    DisPrefix(bars, PlusDms(bars), period, k);
    DisPrefix(bars, MinusDms(bars), period, k);
    assert Dxs(bars[..k], period) == Dxs(bars, period)[..k];
    WilderNoLookahead(Dxs(bars, period), period, k);
  }

  // ----- bounds -----------------------------------------------------------------

  predicate WellFormed(bars: seq<Bar>) {
    forall i :: 0 <= i < |bars| ==> bars[i].low <= bars[i].close <= bars[i].high
  }

  /** Only one direction moves, and it moves within the true range. */
  lemma MovesWithinRange(bars: seq<Bar>, i: nat)
    requires WellFormed(bars) && i < |bars|
    ensures PlusDmAt(bars, i) >= 0.0 && MinusDmAt(bars, i) >= 0.0
    ensures PlusDmAt(bars, i) + MinusDmAt(bars, i) <= TrueRangeAt(bars, i)
  {
    if i > 0 {
      var prev := bars[i - 1].close;
      assert UpMove(bars, i) <= bars[i].high - prev <= Abs(bars[i].high - prev);
      assert DownMove(bars, i) <= prev - bars[i].low <= Abs(bars[i].low - prev);
    }
  }

  lemma {:induction false} SumDominates(p: seq<real>, m: seq<real>, t: seq<real>)
    requires |p| == |m| == |t|
    requires forall j :: 0 <= j < |t| ==> p[j] >= 0.0 && m[j] >= 0.0 && p[j] + m[j] <= t[j]
    ensures Sum(p) >= 0.0 && Sum(m) >= 0.0 && Sum(p) + Sum(m) <= Sum(t)
  {
    if t != [] {
      var n := |t| - 1;
      SumDominates(p[..n], m[..n], t[..n]);
    }
  }

  lemma AverageDominates(a: real, b: real, c: real, x: real, y: real, z: real, n: nat)
    requires n > 0 && a >= 0.0 && b >= 0.0 && a + b <= c && x >= 0.0 && y >= 0.0 && x + y <= z
    ensures Smoothed(a, x, n) >= 0.0 && Smoothed(b, y, n) >= 0.0
    ensures Smoothed(a, x, n) + Smoothed(b, y, n) <= Smoothed(c, z, n)
  {
    hide Times, Over;
    var w, d := (n - 1) as real, n as real;
    TimesUnits(w);
    TimesMonotone(0.0, a, w);
    TimesMonotone(0.0, b, w);
    TimesMonotone(a + b, c, w);
    TimesSum(a, b, w);
    var up, down, whole := Times(a, w) + x, Times(b, w) + y, Times(c, w) + z;
    OverSign(up, d);
    OverSign(down, d);
    OverSum(up, down, d);
    OverMonotone(up + down, whole, d);
  }

  /** A pointwise bound survives Wilder smoothing. */
  lemma {:induction false} WilderDominates(p: seq<real>, m: seq<real>, t: seq<real>, period: nat, i: nat)
    requires period > 0 && i + 1 >= period && i < |t| && |p| == |m| == |t|
    requires forall j :: 0 <= j < |t| ==> p[j] >= 0.0 && m[j] >= 0.0 && p[j] + m[j] <= t[j]
    ensures var pw, mw, tw := WilderAt(p, period, i).value, WilderAt(m, period, i).value, WilderAt(t, period, i).value;
            pw >= 0.0 && mw >= 0.0 && pw + mw <= tw
  {
    hide Over, Smoothed;
    if i + 1 == period {
      var sp, sm, st := Sum(p[..period]), Sum(m[..period]), Sum(t[..period]);
      SumDominates(p[..period], m[..period], t[..period]);
      var d := period as real;
      OverSum(sp, sm, d);
      OverMonotone(sp + sm, st, d);
      OverSign(sp, d);
      OverSign(sm, d);
    } else {
      WilderDominates(p, m, t, period, i - 1);
      AverageDominates(WilderAt(p, period, i - 1).value, WilderAt(m, period, i - 1).value,
                       WilderAt(t, period, i - 1).value, p[i], m[i], t[i], period);
    }
  }

  lemma RatioBound(p: real, m: real, t: real)
    requires p >= 0.0 && m >= 0.0 && p + m <= t && t > 0.0
    ensures Over(100.0 * p, t) >= 0.0 && Over(100.0 * m, t) >= 0.0
    ensures Over(100.0 * p, t) + Over(100.0 * m, t) <= 100.0
  {
    hide Times, Over;
    OverSign(100.0 * p, t);
    OverSign(100.0 * m, t);
    OverSum(100.0 * p, 100.0 * m, t);
    OverMonotone(100.0 * p + 100.0 * m, 100.0 * t, t);
    TimesUnits(t);
    OverIs(100.0 * t, t, 100.0);
  }

  lemma SmoothedMovesWithinRange(bars: seq<Bar>, period: nat, i: nat)
    requires WellFormed(bars) && period > 0 && i < |bars| && i + 1 >= period
    ensures var p, m := WilderAt(PlusDms(bars), period, i).value, WilderAt(MinusDms(bars), period, i).value;
            p >= 0.0 && m >= 0.0 && p + m <= WilderAt(TrueRanges(bars), period, i).value
  {
    var p, m, t := PlusDms(bars), MinusDms(bars), TrueRanges(bars);
    forall j | 0 <= j < |t| ensures p[j] >= 0.0 && m[j] >= 0.0 && p[j] + m[j] <= t[j] {
      MovesWithinRange(bars, j);
    }
    WilderDominates(p, m, t, period, i);
  }

  lemma DiOfBounds(t: Option<real>, p: Option<real>, m: Option<real>)
    requires t.Some? && p.Some? && m.Some? ==> p.value >= 0.0 && m.value >= 0.0 && p.value + m.value <= t.value
    requires t.Some? <==> p.Some?
    requires t.Some? <==> m.Some?
    ensures DiOf(t, p) >= 0.0 && DiOf(t, m) >= 0.0 && DiOf(t, p) + DiOf(t, m) <= 100.0
  {
    hide Over;
    if t.Some? && t.value != 0.0 {
      RatioBound(p.value, m.value, t.value);
    }
  }

  /** At every index of every well-formed series: +DI and -DI are not negative and
      add up to at most 100, and the ATR, where defined, is not negative. */
  lemma DirectionalBounds(bars: seq<Bar>, period: nat, i: nat)
    requires WellFormed(bars) && period > 0 && i < |bars|
    ensures var plus, minus := PlusDis(bars, period)[i], MinusDis(bars, period)[i];
            plus >= 0.0 && minus >= 0.0 && plus + minus <= 100.0
    ensures Atrs(bars, period)[i].Some? ==> Atrs(bars, period)[i].value >= 0.0
  {
    if i + 1 >= period {
      SmoothedMovesWithinRange(bars, period, i);
    }
    DiOfBounds(WilderAt(TrueRanges(bars), period, i), WilderAt(PlusDms(bars), period, i),
               WilderAt(MinusDms(bars), period, i));
  }

  lemma DxBound(plus: real, minus: real)
    requires plus >= 0.0 && minus >= 0.0
    ensures 0.0 <= DxOf(plus, minus) <= 100.0
  {
    hide Times, Over;
    if plus + minus > 0.0 {
      var s, d := plus + minus, Abs(plus - minus);
      OverSign(100.0 * d, s);
      OverMonotone(100.0 * d, 100.0 * s, s);
      TimesUnits(s);
      OverIs(100.0 * s, s, 100.0);
    }
  }

  /** Every defined ADX value lies between 0 and 100. */
  lemma AdxBounds(bars: seq<Bar>, period: nat, i: nat)
    requires WellFormed(bars) && period > 0 && i < |bars|
    ensures Adxs(bars, period)[i].Some? <==> i + 1 >= period
    ensures Adxs(bars, period)[i].Some? ==> 0.0 <= Adxs(bars, period)[i].value <= 100.0
  {
    if i + 1 >= period {
      var dx := Dxs(bars, period);
      var none, full := seq(|bars|, _ => 0.0), seq(|bars|, _ => 100.0);
      forall j | 0 <= j < |bars| ensures 0.0 <= dx[j] <= 100.0 {
        DirectionalBounds(bars, period, j);
        DxBound(PlusDis(bars, period)[j], MinusDis(bars, period)[j]);
      }
      WilderDominates(dx, none, full, period, i);
      WilderConstant(full, 100.0, period, i);
    }
  }

  lemma {:induction false} SumConstant(v: seq<real>, c: real)
    requires forall j :: 0 <= j < |v| ==> v[j] == c
    ensures Sum(v) == Times(c, |v| as real)
  {
    hide Times;
    if v == [] {
      TimesFlip(c, 0.0);
      TimesUnits(c);
    } else {
      var n := |v| - 1;
      SumConstant(v[..n], c);
      TimesStep(c, n);
      assert |v| == n + 1;
    }
  }

  lemma TimesStep(c: real, n: nat)
    ensures Times(c, (n + 1) as real) == Times(c, n as real) + c
  {
    hide Times;
    var x := n as real;
    assert (n + 1) as real == x + 1.0;
    TimesFlip(c, x + 1.0);
    TimesSum(x, 1.0, c);
    TimesUnits(c);
    TimesFlip(x, c);
  }

  lemma SmoothedConstant(c: real, n: nat)
    requires n > 0
    ensures Smoothed(c, c, n) == c
  {
    hide Times, Over;
    TimesStep(c, n - 1);
    OverIs(Times(c, n as real), n as real, c);
  }

  lemma {:induction false} WilderConstant(v: seq<real>, c: real, period: nat, i: nat)
    requires period > 0 && i + 1 >= period && i < |v|
    requires forall j :: 0 <= j < |v| ==> v[j] == c
    ensures WilderAt(v, period, i) == Some(c)
  {
    hide Times, Over, Smoothed;
    if i + 1 == period {
      SumConstant(v[..period], c);
      assert |v[..period]| == period;
      OverIs(Times(c, period as real), period as real, c);
    } else {
      WilderConstant(v, c, period, i - 1);
      SmoothedConstant(c, period);
    }
  }

  /** An EMA never leaves the range of the values it has seen. */
  lemma {:induction false} EmaWithinRange(v: seq<real>, period: nat, i: nat, lo: real, hi: real)
    requires period > 0 && i < |v|
    requires forall j :: 0 <= j <= i ==> lo <= v[j] <= hi
    ensures lo <= EmaAt(v, period, i) <= hi
  {
    hide Blend, EmaWeight;
    if i > 0 {
      EmaWithinRange(v, period, i - 1, lo, hi);
      WeightInUnit(period);
      BlendBetween(v[i], EmaAt(v, period, i - 1), EmaWeight(period), lo, hi);
    }
  }

  lemma BlendMonotone(x: real, prev: real, k: real, x': real, prev': real)
    requires 0.0 <= k <= 1.0 && x <= x' && prev <= prev'
    ensures Blend(x, prev, k) <= Blend(x', prev', k)
  {
    hide Times;
    TimesMonotone(x, x', k);
    TimesMonotone(prev, prev', 1.0 - k);
  }

  lemma BlendOfEqual(x: real, k: real)
    ensures Blend(x, x, k) == x
  {
    hide Times;
    var rest := 1.0 - k;
    TimesFlip(x, k);
    TimesFlip(x, rest);
    TimesSum(k, rest, x);
    assert k + rest == 1.0;
    TimesUnits(x);
  }

  lemma BlendBetween(x: real, prev: real, k: real, lo: real, hi: real)
    requires 0.0 <= k <= 1.0 && lo <= x <= hi && lo <= prev <= hi
    ensures lo <= Blend(x, prev, k) <= hi
  {
    hide Blend;
    BlendMonotone(lo, lo, k, x, prev);
    BlendMonotone(x, prev, k, hi, hi);
    BlendOfEqual(lo, k);
    BlendOfEqual(hi, k);
  }

  lemma WeightInUnit(period: nat)
    requires period > 0
    ensures 0.0 < EmaWeight(period) <= 1.0
  {
    hide Times, Over;
    var d := (period + 1) as real;
    OverMonotone(2.0, d, d);
    TimesUnits(d);
    OverIs(d, d, 1.0);
    OverSign(2.0, d);
  }
}
