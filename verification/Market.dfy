/** The venue-neutral types of models.py, and `normalize_price`: rounding to a
    number of decimals, halves to even, over exact reals. */
module Market {
  datatype Side = Buy | Sell

  datatype Bar = Bar(time: int, open: real, high: real, low: real, close: real)

  datatype Tick = Tick(bid: real, ask: real)

  /** An open position. Volume counts units of 1e-8 lots, the broker's own rounding. */
  datatype Position = Position(
    ticket: nat, symbol: string, side: Side, volume: int, priceOpen: real, sl: real, tp: real, magic: int)
  {
    function RiskDistance(): real {
      if sl <= 0.0 then 0.0 else Abs(priceOpen - sl)
    }
  }

  datatype Spec = Spec(
    digits: nat, point: real, tickSize: real, tickValue: real, contractSize: real,
    volumeMin: real, volumeMax: real, volumeStep: real, stopsLevel: int)
  {
    function Normalize(price: real): real {
      Round(price, digits)
    }

    function MinStopDistance(): real {
      stopsLevel as real * point
    }
  }

  function Abs(x: real): real { if x < 0.0 then -x else x }
  function Max(x: real, y: real): real { if x < y then y else x }
  function Min(x: real, y: real): real { if y < x then y else x }

  // ----- products and quotients --------------------------------------------------

  function Times(x: real, y: real): real { x * y }

  function Over(x: real, p: real): real
    requires p != 0.0
  {
    x / p
  }

  lemma TimesSum(a: real, b: real, y: real)
    ensures Times(a + b, y) == Times(a, y) + Times(b, y)
  {
  }

  lemma TimesFlip(x: real, y: real)
    ensures Times(x, y) == Times(y, x)
  {
  }

  lemma TimesAssociate(a: real, b: real, c: real)
    ensures Times(Times(a, b), c) == Times(a, Times(b, c))
  {
  }

  lemma TimesUnits(y: real)
    ensures Times(0.0, y) == 0.0 && Times(1.0, y) == y && Times(3.0, y) == y + y + y
    ensures Times(100.0, y) == 100.0 * y && Times(-1.0, y) == -y
  {
  }

  lemma TimesPositive(x: real, y: real)
    requires x > 0.0 && y > 0.0
    ensures Times(x, y) > 0.0
  {
  }

  /** A positive factor keeps the sign. */
  lemma TimesSign(x: real, y: real)
    requires y > 0.0
    ensures x > 0.0 <==> Times(x, y) > 0.0
    ensures x >= 0.0 <==> Times(x, y) >= 0.0
  {
    hide Times;
    TimesUnits(y);
    TimesSum(x, -x, y);
    if x > 0.0 { TimesPositive(x, y); }
    if x < 0.0 { TimesPositive(-x, y); }
  }

  lemma TimesMonotone(a: real, b: real, p: real)
    requires a <= b && p >= 0.0
    ensures Times(a, p) <= Times(b, p)
  {
    hide Times;
    var d := b - a;
    TimesSum(a, d, p);
    assert a + d == b;
    if p > 0.0 {
      TimesSign(d, p);
    } else {
      TimesFlip(d, p);
      TimesUnits(d);
    }
  }

  /** A positive factor can be dropped from a comparison. */
  lemma FactorDrops(x: real, y: real, p: real)
    requires p > 0.0 && Times(x, p) <= Times(y, p)
    ensures x <= y
  {
    hide Times;
    var d := y - x;
    TimesSum(x, d, p);
    assert x + d == y;
    TimesSign(d, p);
  }

  lemma OverTimes(a: real, p: real)
    requires p != 0.0
    ensures Times(Over(a, p), p) == a
  {
  }

  /** A quotient is what times the divisor gives the dividend. */
  lemma OverIs(a: real, p: real, q: real)
    requires p > 0.0 && Times(q, p) == a
    ensures Over(a, p) == q
  {
    hide Times, Over;
    OverTimes(a, p);
    FactorDrops(Over(a, p), q, p);
    FactorDrops(q, Over(a, p), p);
  }

  lemma OverMonotone(a: real, b: real, p: real)
    requires a <= b && p > 0.0
    ensures Over(a, p) <= Over(b, p)
  {
    hide Times, Over;
    OverTimes(a, p);
    OverTimes(b, p);
    FactorDrops(Over(a, p), Over(b, p), p);
  }

  lemma OverSum(a: real, b: real, p: real)
    requires p > 0.0
    ensures Over(a + b, p) == Over(a, p) + Over(b, p)
  {
    hide Times, Over;
    OverTimes(a, p);
    OverTimes(b, p);
    TimesSum(Over(a, p), Over(b, p), p);
    OverIs(a + b, p, Over(a, p) + Over(b, p));
  }

  lemma OverSign(a: real, p: real)
    requires p > 0.0
    ensures a > 0.0 <==> Over(a, p) > 0.0
    ensures a >= 0.0 <==> Over(a, p) >= 0.0
  {
    hide Times, Over;
    OverTimes(a, p);
    TimesSign(Over(a, p), p);
  }

  /** Quotients against products. */
  lemma OverAgainst(a: real, p: real, k: real)
    requires p > 0.0
    ensures Over(a, p) < k <==> a < Times(k, p)
  {
    hide Times, Over;
    OverTimes(a, p);
    if Over(a, p) < k {
      TimesSum(k - Over(a, p), Over(a, p), p);
      TimesSign(k - Over(a, p), p);
      assert k - Over(a, p) + Over(a, p) == k;
    } else {
      TimesMonotone(k, Over(a, p), p);
    }
  }

  /** The same in plain notation, for products written out. */
  lemma DivMonotone(a: real, b: real, p: real)
    requires a <= b && p > 0.0
    ensures a / p <= b / p
  {
    OverMonotone(a, b, p);
  }

  lemma MulMonotone(a: real, b: real, p: real)
    requires a <= b && p >= 0.0
    ensures a * p <= b * p
  {
    TimesMonotone(a, b, p);
  }

  // ----- rounding -----------------------------------------------------------

  function Pow10(d: nat): (p: real)
    ensures p >= 1.0
  {
    if d == 0 then 1.0 else 10.0 * Pow10(d - 1)
  }

  /** The nearest integer; a tie goes to the even neighbour. */
  function RoundHalfEven(x: real): int {
    var f := x.Floor;
    var rest := x - f as real;
    if rest < 0.5 || (rest == 0.5 && f % 2 == 0) then f else f + 1
  }

  /** How many steps of 1/p. */
  function Nearest(x: real, p: real): int { RoundHalfEven(Times(x, p)) }

  /** Rounding to multiples of 1/p. */
  function RoundTo(x: real, p: real): real
    requires p > 0.0
  {
    Over(Nearest(x, p) as real, p)
  }

  function Round(x: real, digits: nat): real {
    RoundTo(x, Pow10(digits))
  }

  function GridPoint(n: int, digits: nat): real {
    Over(n as real, Pow10(digits))
  }

  /** A price halfway between two grid points goes to the even one. */
  lemma TiesGoToEven(n: int, digits: nat)
    ensures Round(Over(n as real + 0.5, Pow10(digits)), digits) == GridPoint(if n % 2 == 0 then n else n + 1, digits)
  {
    hide Times, Over;
    OverTimes(n as real + 0.5, Pow10(digits));
    assert (n as real + 0.5).Floor == n;
  }

  /** A multiple of the last decimal. */
  ghost predicate OnGrid(x: real, digits: nat) {
    exists n :: x == GridPoint(n, digits)
  }

  lemma RoundHalfEvenMonotone(x: real, y: real)
    requires x <= y
    ensures RoundHalfEven(x) <= RoundHalfEven(y)
  {
    if x.Floor == y.Floor {
    } else {
      assert x.Floor + 1 <= y.Floor;
    }
  }

  lemma RoundHalfEvenNear(y: real)
    ensures -0.5 <= RoundHalfEven(y) as real - y <= 0.5
  {
  }

  lemma RoundHalfEvenOfInt(n: int)
    ensures RoundHalfEven(n as real) == n
  {
  }

  lemma RoundToMonotone(x: real, y: real, p: real)
    requires x <= y && p > 0.0
    ensures RoundTo(x, p) <= RoundTo(y, p)
  {
    hide Times, Over, RoundHalfEven;
    TimesMonotone(x, y, p);
    RoundHalfEvenMonotone(Times(x, p), Times(y, p));
    OverMonotone(Nearest(x, p) as real, Nearest(y, p) as real, p);
  }

  lemma RoundMonotone(x: real, y: real, digits: nat)
    requires x <= y
    ensures Round(x, digits) <= Round(y, digits)
  {
    RoundToMonotone(x, y, Pow10(digits));
  }

  lemma RoundToOfMultiple(n: int, p: real)
    requires p > 0.0
    ensures RoundTo(Over(n as real, p), p) == Over(n as real, p)
  {
    hide Times, Over, RoundHalfEven;
    OverTimes(n as real, p);
    RoundHalfEvenOfInt(n);
  }

  /** Rounding lands on the grid and changes nothing there. */
  lemma RoundIsProjection(x: real, digits: nat)
    ensures OnGrid(Round(x, digits), digits)
    ensures Round(x, digits) == x <==> OnGrid(x, digits)
  {
    hide Times, Over, RoundHalfEven, Pow10;
    if OnGrid(x, digits) {
      var n :| x == GridPoint(n, digits);
      RoundToOfMultiple(n, Pow10(digits));
    }
    assert Round(x, digits) == GridPoint(Nearest(x, Pow10(digits)), digits);
  }

  lemma RoundToNear(x: real, p: real)
    requires p > 0.0
    ensures -Over(0.5, p) <= RoundTo(x, p) - x <= Over(0.5, p)
  {
    hide Times, Over, RoundHalfEven;
    var n := Nearest(x, p) as real;
    RoundHalfEvenNear(Times(x, p));
    OverTimes(n, p);
    OverTimes(0.5, p);
    WithinByFactor(Over(n, p), x, Over(0.5, p), p);
  }

  lemma WithinByFactor(r: real, x: real, half: real, p: real)
    requires p > 0.0 && Times(half, p) == 0.5 && -0.5 <= Times(r, p) - Times(x, p) <= 0.5
    ensures -half <= r - x <= half
  {
    hide Times;
    TimesSum(x, half, p);
    FactorDrops(r, x + half, p);
    TimesSum(r, half, p);
    FactorDrops(x, r + half, p);
  }

  /** Rounding moves a price by at most half a grid step. */
  lemma RoundIsNear(x: real, digits: nat)
    ensures Abs(Round(x, digits) - x) <= 0.5 / Pow10(digits)
  {
    RoundToNear(x, Pow10(digits));
  }
}
