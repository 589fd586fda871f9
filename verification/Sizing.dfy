/** sizing.py over exact reals: lots from equity, stop distance and tick value. */
module Sizing {
  import opened Market

  const VOLUME_EPS := 0.000000000001   // 1e-12
  const MONEY_EPS := 0.000000001       // 1e-9

  function TicksBetween(a: real, b: real, spec: Spec): real {
    var tick := if spec.tickSize != 0.0 then spec.tickSize else spec.point;
    if tick <= 0.0 then 0.0 else Abs(a - b) / tick
  }

  function MoneyPerLot(entry: real, sl: real, spec: Spec): real {
    TicksBetween(entry, sl, spec) * spec.tickValue
  }

  /** `round(-log10(step))` without the logarithm: the least d with
      step * 10^d >= 10^-0.5, where `q` is 10 * step^2 * 100^d. */
  function DigitsFrom(q: real): nat
    requires q > 0.0
    decreases (1.0 / q).Floor
  {
    if q >= 1.0 then 0
    else
      HundredfoldShrinks(q);
      1 + DigitsFrom(100.0 * q)
  }

  lemma HundredfoldShrinks(q: real)
    requires 0.0 < q < 1.0
    ensures 0 <= (1.0 / (100.0 * q)).Floor < (1.0 / q).Floor
  {
    var x := 1.0 / q;
    assert x * q == 1.0;
    assert x > 1.0;
    assert 1.0 / (100.0 * q) == x / 100.0;
  }

  function TenSquares(x: real): (q: real)
    requires x > 0.0
    ensures q > 0.0
  {
    TimesPositive(x, x);
    10.0 * Times(x, x)
  }

  function VolumeDigits(step: real): nat
    requires step > 0.0
  {
    if step < 1.0 then DigitsFrom(TenSquares(step)) else 0
  }

  function Stepped(raw: real, step: real): real
    requires step > 0.0
  {
    Times((Over(raw, step) + VOLUME_EPS).Floor as real, step)
  }

  /** Floored to the step, rounded to the step's digits, clamped to the limits. */
  function NormalizeVolume(raw: real, spec: Spec): real {
    if raw <= 0.0 || spec.volumeStep <= 0.0 then 0.0
    else
      var stepped := Round(Stepped(raw, spec.volumeStep), VolumeDigits(spec.volumeStep));
      if stepped < spec.volumeMin - VOLUME_EPS then 0.0 else Min(stepped, spec.volumeMax)
  }

  function LotsForRisk(equity: real, riskPct: real, entry: real, sl: real, spec: Spec, maxMultiple: real): real {
    if equity <= 0.0 || riskPct <= 0.0 then 0.0
    else
      var perLot := MoneyPerLot(entry, sl, spec);
      if perLot <= 0.0 then 0.0
      else
        var budget := equity * riskPct;
        var lots := NormalizeVolume(budget / perLot, spec);
        if lots <= 0.0 || perLot * lots > budget * maxMultiple + MONEY_EPS then 0.0 else lots
  }

  /** The sizer never answers a negative volume, keeps the venue's limits, and a
      full stop-out of what it answers stays within the budget. */
  lemma LotsWithinBudget(equity: real, riskPct: real, entry: real, sl: real, spec: Spec, maxMultiple: real)
    ensures var lots := LotsForRisk(equity, riskPct, entry, sl, spec, maxMultiple);
            lots > 0.0 ==>
              && MoneyPerLot(entry, sl, spec) * lots <= equity * riskPct * maxMultiple + MONEY_EPS
              && lots <= spec.volumeMax
              && (lots >= spec.volumeMin - VOLUME_EPS || lots == spec.volumeMax)
    ensures LotsForRisk(equity, riskPct, entry, sl, spec, maxMultiple) >= 0.0
  {
  }

  lemma FloorBelow(raw: real, step: real)
    requires step > 0.0
    ensures Stepped(raw, step) <= raw + Times(VOLUME_EPS, step)
  {
    hide Times, Over;
    var x := Over(raw, step);
    OverTimes(raw, step);
    TimesSum(x, VOLUME_EPS, step);
    TimesMonotone((x + VOLUME_EPS).Floor as real, x + VOLUME_EPS, step);
  }

  lemma TimesWhole(k: int, n: int)
    ensures Times(k as real, n as real) == (k * n) as real
  {
  }

  lemma MultipleOnGrid(step: real, k: int, digits: nat)
    requires OnGrid(step, digits)
    ensures OnGrid(Times(k as real, step), digits)
  {
    hide Times, Over, Pow10;
    var n :| step == GridPoint(n, digits);
    var p := Pow10(digits);
    OverTimes(n as real, p);
    TimesAssociate(k as real, step, p);
    TimesWhole(k, n);
    OverIs((k * n) as real, p, Times(k as real, step));
    assert Times(k as real, step) == GridPoint(k * n, digits);
  }

  /** "Never round up": true for a step that its own digits can write (every power
      of ten is one), up to the 1e-12 of a step that forgives float noise. */
  lemma NeverRoundedUp(raw: real, spec: Spec)
    requires spec.volumeStep > 0.0 && OnGrid(spec.volumeStep, VolumeDigits(spec.volumeStep))
    ensures raw > 0.0 ==> NormalizeVolume(raw, spec) <= Max(0.0, raw + Times(VOLUME_EPS, spec.volumeStep))
  {
    if raw > 0.0 {
      StepsStay(raw, spec.volumeStep, VolumeDigits(spec.volumeStep));
    }
  }

  lemma StepsStay(raw: real, step: real, digits: nat)
    requires step > 0.0 && OnGrid(step, digits)
    ensures Round(Stepped(raw, step), digits) == Stepped(raw, step) <= raw + Times(VOLUME_EPS, step)
  {
    FloorBelow(raw, step);
    hide Times, Over, OnGrid, Round;
    MultipleOnGrid(step, (Over(raw, step) + VOLUME_EPS).Floor, digits);
    RoundIsProjection(Stepped(raw, step), digits);
  }

  // ----- the lots, exactly --------------------------------------------------------------

  /** `k` whole steps. */
  function Whole(step: real, k: nat): real { Times(k as real, step) }

  /** `k` is the number of whole steps in a volume, up to 1e-12 of a step. */
  lemma WholeStepsIn(raw: real, step: real)
    requires raw > 0.0 && step > 0.0
    ensures var k := (Over(raw, step) + VOLUME_EPS).Floor;
            && k >= 0 && Stepped(raw, step) == Times(k as real, step)
            && Times(k as real, step) <= raw + Times(VOLUME_EPS, step) < Times((k + 1) as real, step)
  {
    hide Times, Over;
    var x := Over(raw, step) + VOLUME_EPS;
    OverSign(raw, step);
    OverTimes(raw, step);
    TimesSum(Over(raw, step), VOLUME_EPS, step);
    var k := x.Floor;
    TimesMonotone(k as real, x, step);
    var rest := (k + 1) as real - x;
    TimesSum(rest, x, step);
    TimesSign(rest, step);
    assert rest + x == (k + 1) as real;
  }

  /** For a step that its own digits can write, a volume becomes the most whole steps it
      holds, nothing below the venue's minimum and never more than its maximum. */
  lemma NormalizesExactly(raw: real, spec: Spec)
    requires spec.volumeStep > 0.0 ==> OnGrid(spec.volumeStep, VolumeDigits(spec.volumeStep))
    ensures raw <= 0.0 || spec.volumeStep <= 0.0 ==> NormalizeVolume(raw, spec) == 0.0
    ensures raw > 0.0 && spec.volumeStep > 0.0 ==>
              var step := spec.volumeStep;
              exists k: nat ::
                && Whole(step, k) <= raw + Times(0.000000000001, step) < Whole(step, k) + step
                && NormalizeVolume(raw, spec) ==
                   if Whole(step, k) < spec.volumeMin - 0.000000000001 then 0.0
                   else if Whole(step, k) > spec.volumeMax then spec.volumeMax else Whole(step, k)
  {
    if raw > 0.0 && spec.volumeStep > 0.0 {
      var step := spec.volumeStep;
      StepsStay(raw, step, VolumeDigits(step));
      WholeStepsIn(raw, step);
      hide Times, Over, Stepped, OnGrid, VolumeDigits, Round;
      var k: nat := (Over(raw, step) + VOLUME_EPS).Floor;
      TimesSum(k as real, 1.0, step);
      TimesUnits(step);
      assert (k + 1) as real == k as real + 1.0;
      assert Whole(step, k) <= raw + Times(0.000000000001, step) < Whole(step, k) + step;
    }
  }

  /** The lots for a risk: the budget over the cost of one lot's stop-out, in whole steps;
      none without equity, a share or a cost, and none when the rounded lots would still cost
      more than the allowed multiple. */
  lemma LotsExactly(equity: real, riskPct: real, entry: real, sl: real, spec: Spec, maxMultiple: real)
    ensures var tick := if spec.tickSize != 0.0 then spec.tickSize else spec.point;
            var perLot := if tick <= 0.0 then 0.0 else Abs(entry - sl) / tick * spec.tickValue;
            var budget := equity * riskPct;
            LotsForRisk(equity, riskPct, entry, sl, spec, maxMultiple) ==
            if equity <= 0.0 || riskPct <= 0.0 || perLot <= 0.0 then 0.0
            else
              var lots := NormalizeVolume(budget / perLot, spec);
              if lots <= 0.0 || perLot * lots > budget * maxMultiple + 0.000000001 then 0.0 else lots
  {
    hide NormalizeVolume, MoneyPerLot;
    PerLotExactly(entry, sl, spec);
    var tick := if spec.tickSize != 0.0 then spec.tickSize else spec.point;
    var perLot := if tick <= 0.0 then 0.0 else Abs(entry - sl) / tick * spec.tickValue;
    assert perLot == MoneyPerLot(entry, sl, spec);
    if equity > 0.0 && riskPct > 0.0 && perLot > 0.0 {
      var lots := NormalizeVolume(equity * riskPct / perLot, spec);
      assert lots == NormalizeVolume(equity * riskPct / MoneyPerLot(entry, sl, spec), spec);
    }
  }

  lemma PerLotExactly(entry: real, sl: real, spec: Spec)
    ensures var tick := if spec.tickSize != 0.0 then spec.tickSize else spec.point;
            MoneyPerLot(entry, sl, spec) == if tick <= 0.0 then 0.0 else Abs(entry - sl) / tick * spec.tickValue
  {
  }

  /** And they are the most: one more step would cost more than the budget, unless the
      venue's maximum is reached. */
  lemma LotsAreMost(equity: real, riskPct: real, entry: real, sl: real, spec: Spec, maxMultiple: real)
    requires spec.volumeStep > 0.0 && OnGrid(spec.volumeStep, VolumeDigits(spec.volumeStep))
    ensures var lots := LotsForRisk(equity, riskPct, entry, sl, spec, maxMultiple);
            0.0 < lots < spec.volumeMax ==>
              Times(MoneyPerLot(entry, sl, spec), lots + spec.volumeStep) > equity * riskPct
  {
    var lots, perLot := LotsForRisk(equity, riskPct, entry, sl, spec, maxMultiple), MoneyPerLot(entry, sl, spec);
    if 0.0 < lots < spec.volumeMax {
      var budget := equity * riskPct;
      RawIsBudget(budget, perLot);
      hide MoneyPerLot, NormalizeVolume, Times, OnGrid, VolumeDigits;
      NormalizesExactly(budget / perLot, spec);
      NextStepIsMore(budget / perLot, spec, lots);
      TimesFlip(perLot, lots + spec.volumeStep);
      TimesFlip(perLot, budget / perLot);
      var more := lots + spec.volumeStep - budget / perLot;
      TimesSum(more, budget / perLot, perLot);
      TimesSign(more, perLot);
      assert more + budget / perLot == lots + spec.volumeStep;
    }
  }

  lemma RawIsBudget(budget: real, perLot: real)
    requires perLot > 0.0
    ensures Times(perLot, budget / perLot) == budget
  {
  }

  lemma NextStepIsMore(raw: real, spec: Spec, lots: real)
    requires spec.volumeStep > 0.0 && OnGrid(spec.volumeStep, VolumeDigits(spec.volumeStep))
    requires lots == NormalizeVolume(raw, spec) && 0.0 < lots < spec.volumeMax
    ensures lots + spec.volumeStep > raw
  {
    hide Times, NormalizeVolume, OnGrid, VolumeDigits;
    var step := spec.volumeStep;
    NormalizesExactly(raw, spec);
    assert exists k: nat :: Whole(step, k) <= raw + Times(0.000000000001, step) < Whole(step, k) + step
                            && lots == Whole(step, k);
    TimesSign(0.000000000001, step);
  }

  // ----- and false for every other step -------------------------------------------

  lemma JustBelow(y: real, m: int, part: real)
    requires y == m as real + part && (0.5 < part < 1.0 || (part == 0.5 && m % 2 == 1))
    ensures RoundHalfEven(y) as real > y
  {
    assert y.Floor == m;
  }

  /** Enough copies of a small fraction pass one half without passing one. */
  lemma PassesHalf(h: real, f: real, x: real)
    requires Times(h, f) == 0.5 && 0.0 < f < 0.5 && h < x <= h + 1.0
    ensures 0.5 < Times(x, f) < 1.0
  {
    hide Times;
    var more, less := x - h, h + 1.0 - x;
    TimesSum(h, more, f);
    TimesSign(more, f);
    TimesSum(x, less, f);
    TimesSign(less, f);
    TimesSum(h, 1.0, f);
    TimesUnits(f);
    assert h + more == x && x + less == h + 1.0;
  }

  lemma HalfOver(f: real) returns (h: real)
    requires f > 0.0
    ensures Times(h, f) == 0.5 && h > 0.0
  {
    h := Over(0.5, f);
    OverTimes(0.5, f);
    OverSign(0.5, f);
  }

  lemma FractionTimes(k: nat, s: real, n: int, f: real)
    requires s == n as real + f
    ensures Times(k as real, s) == (k * n) as real + Times(k as real, f)
  {
    hide Times;
    var x := k as real;
    TimesFlip(x, s);
    TimesFlip(x, f);
    TimesSum(n as real, f, x);
    TimesFlip(n as real, x);
    TimesWhole(k, n);
  }

  lemma CopiesPastHalf(f: real) returns (k: nat)
    requires 0.0 < f < 0.5
    ensures k >= 1 && 0.5 < Times(k as real, f) < 1.0
  {
    hide Times;
    var h := HalfOver(f);
    k := h.Floor + 1;
    PassesHalf(h, f, k as real);
  }

  /** Some multiple of a number with a fraction rounds up. */
  lemma UpwardMultiple(s: real) returns (k: nat)
    requires s > 0.0 && s.Floor as real != s
    ensures k >= 1 && RoundHalfEven(Times(k as real, s)) as real > Times(k as real, s)
  {
    hide RoundHalfEven, Times;
    var n := s.Floor;
    var f := s - n as real;
    TimesUnits(s);
    if f > 0.5 || (f == 0.5 && n % 2 == 1) {
      k := 1;
      JustBelow(s, n, f);
    } else if f == 0.5 {
      k := 3;
      JustBelow(s + s + s, 3 * n + 1, 0.5);
    } else {
      k := CopiesPastHalf(f);
      FractionTimes(k, s, n, f);
      JustBelow(Times(k as real, s), k * n, Times(k as real, f));
    }
  }

  predicate WholeKept(spec: Spec, k: nat) {
    NormalizeVolume(Whole(spec.volumeStep, k), spec) <= Whole(spec.volumeStep, k)
  }

  lemma WholeSteps(step: real, k: nat)
    requires step > 0.0 && k >= 1
    ensures Whole(step, k) > 0.0 && Stepped(Whole(step, k), step) == Whole(step, k)
  {
    hide Times, Over;
    var x := Whole(step, k);
    TimesSign(k as real, step);
    OverIs(x, step, k as real);
    assert (k as real + VOLUME_EPS).Floor == k;
  }

  lemma WholeIsOnGrid(step: real, digits: nat)
    requires step > 0.0
    ensures var s := Times(step, Pow10(digits));
            s > 0.0 && (s.Floor as real == s ==> OnGrid(step, digits))
  {
    var p := Pow10(digits);
    hide Times, Over;
    var s := Times(step, p);
    TimesSign(step, p);
    if s.Floor as real == s {
      OverIs(s.Floor as real, p, step);
      assert step == GridPoint(s.Floor, digits);
    }
  }

  lemma RoundedUp(x: real, digits: nat)
    requires RoundHalfEven(Times(x, Pow10(digits))) as real > Times(x, Pow10(digits))
    ensures Round(x, digits) > x
  {
    hide Times, Over, RoundHalfEven;
    var p := Pow10(digits);
    var n := Nearest(x, p) as real;
    var r := Over(n, p);
    OverTimes(n, p);
    if r <= x { TimesMonotone(r, x, p); }
  }

  /** Of a step off its own grid, some whole multiple comes back as more. */
  lemma OffGridRoundsUp(step: real) returns (k: nat, spec: Spec)
    requires step > 0.0 && !OnGrid(step, VolumeDigits(step))
    ensures k >= 1 && spec.volumeStep == step && !WholeKept(spec, k)
  {
    hide Times, Over, Round, RoundHalfEven, OnGrid, VolumeDigits, Stepped, Pow10;
    var digits := VolumeDigits(step);
    WholeIsOnGrid(step, digits);
    k := UpwardMultiple(Times(step, Pow10(digits)));
    WholeSteps(step, k);
    TimesAssociate(k as real, step, Pow10(digits));
    RoundedUp(Whole(step, k), digits);
    spec := Spec(0, 0.0, 0.0, 0.0, 0.0, 0.0, Round(Whole(step, k), digits), step, 0);
  }

  /** No volume comes back as more than the whole steps it was floored to. */
  ghost predicate NeverUp(step: real)
    requires step > 0.0
  {
    forall spec: Spec, raw: real :: raw > 0.0 && spec.volumeStep == step ==> NormalizeVolume(raw, spec) <= Stepped(raw, step)
  }

  lemma OnGridNeverUp(step: real, spec: Spec, raw: real)
    requires step > 0.0 && OnGrid(step, VolumeDigits(step)) && raw > 0.0 && spec.volumeStep == step
    ensures NormalizeVolume(raw, spec) <= Stepped(raw, step)
  {
    hide VolumeDigits, OnGrid, Round;
    StepsStay(raw, step, VolumeDigits(step));
    hide Stepped;
    SteppedSign(raw, step);
  }

  lemma SteppedSign(raw: real, step: real)
    requires step > 0.0 && raw > 0.0
    ensures Stepped(raw, step) >= 0.0
  {
    hide Times, Over;
    OverSign(raw, step);
    TimesSign((Over(raw, step) + VOLUME_EPS).Floor as real, step);
  }

  /** The exact condition: no volume, and no whole multiple of the step, is ever rounded
      up, under any limits, if and only if the step can be written in its own number of
      digits. */
  lemma NeverRoundedUpExactly(step: real)
    requires step > 0.0
    ensures NeverUp(step) <==> OnGrid(step, VolumeDigits(step))
    ensures (forall spec: Spec, k: nat :: k >= 1 && spec.volumeStep == step ==> WholeKept(spec, k))
            <==> OnGrid(step, VolumeDigits(step))
  {
    hide VolumeDigits, Stepped, OnGrid, NormalizeVolume, Whole;
    if OnGrid(step, VolumeDigits(step)) {
      forall spec: Spec, raw: real | raw > 0.0 && spec.volumeStep == step
        ensures NormalizeVolume(raw, spec) <= Stepped(raw, step)
      {
        OnGridNeverUp(step, spec, raw);
      }
      forall spec: Spec, k: nat | k >= 1 && spec.volumeStep == step ensures WholeKept(spec, k) {
        WholeSteps(step, k);
        OnGridNeverUp(step, spec, Whole(step, k));
      }
    } else {
      var k, spec := OffGridRoundsUp(step);
      WholeSteps(step, k);
      assert !WholeKept(spec, k);
    }
  }

  /** For example, with a step of 0.25, three steps come back as 0.8. */
  lemma QuarterStepRoundsUp(spec: Spec)
    requires spec.volumeStep == 0.25 && spec.volumeMin <= 0.8 <= spec.volumeMax
    ensures NormalizeVolume(0.75, spec) == 0.8
  {
    assert TenSquares(0.25) == 0.625;
    assert DigitsFrom(0.625) == 1 by { assert DigitsFrom(62.5) == 0; }
    assert Pow10(1) == 10.0 by { assert Pow10(0) == 1.0; }
    assert Stepped(0.75, 0.25) == 0.75;
    assert RoundHalfEven(7.5) == 8;
    assert RoundTo(0.75, 10.0) == 0.8;
  }
}
