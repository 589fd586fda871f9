/** Stop management of strategy.py as the engine applies it, and the signal
    re-pricing of models.py. */
module Strategy {
  import opened Wrappers
  import opened Market
  import opened Confirm
  import Indicators

  datatype Config = Config(atrPeriod: nat, breakevenR: real, trailR: real, trailAtrMult: real)

  /** The last value that is defined. */
  function LastDefined(xs: seq<Option<real>>): Option<real> {
    if xs == [] then None
    else if xs[|xs| - 1].Some? then xs[|xs| - 1]
    else LastDefined(xs[..|xs| - 1])
  }

  /** How far the last close has moved in the position's favour, in units of its
      current risk distance. */
  function RMultiple(pos: Position, close: real): real
    requires pos.RiskDistance() > 0.0
  {
    Over(if pos.side == Buy then close - pos.priceOpen else pos.priceOpen - close, pos.RiskDistance())
  }

  function Breakeven(pos: Position): real {
    if pos.side == Buy then Max(pos.sl, pos.priceOpen)
    else if pos.sl > 0.0 then Min(pos.sl, pos.priceOpen) else pos.priceOpen
  }

  function Trailed(side: Side, sl: real, close: real, trail: real, spec: Spec): real {
    if side == Buy then Max(sl, spec.Normalize(close - trail))
    else
      var candidate := spec.Normalize(close + trail);
      if sl > 0.0 then Min(sl, candidate) else candidate
  }

  /** The stop before rounding: breakeven first, then the trail. */
  function Level(cfg: Config, pos: Position, close: real, atr: real, spec: Spec): real
    requires pos.RiskDistance() > 0.0
  {
    var r := RMultiple(pos, close);
    LevelAt(pos, r >= cfg.breakevenR, r >= cfg.trailR, close, TrailDistance(cfg, atr), spec)
  }

  function TrailDistance(cfg: Config, atr: real): real { Times(cfg.trailAtrMult, atr) }

  function LevelAt(pos: Position, secures: bool, trails: bool, close: real, trail: real, spec: Spec): real {
    var sl := if secures then Breakeven(pos) else pos.sl;
    if trails then Trailed(pos.side, sl, close, trail, spec) else sl
  }

  function LastAtr(cfg: Config, bars: seq<Bar>): Option<real>
    requires cfg.atrPeriod > 0
  {
    LastDefined(Indicators.Atrs(bars, cfg.atrPeriod))
  }

  /** Enough bars, a positive ATR and a stop away from the entry. */
  predicate Manages(cfg: Config, pos: Position, bars: seq<Bar>)
    requires cfg.atrPeriod > 0
  {
    && |bars| >= cfg.atrPeriod + 1
    && LastAtr(cfg, bars).Some? && LastAtr(cfg, bars).value > 0.0
    && pos.RiskDistance() > 0.0
  }

  /** `manage`: the new stop and target. */
  function Manage(cfg: Config, pos: Position, bars: seq<Bar>, spec: Spec): (real, real)
    requires cfg.atrPeriod > 0
  {
    if !Manages(cfg, pos, bars) then (pos.sl, pos.tp)
    else
      (spec.Normalize(Level(cfg, pos, bars[|bars| - 1].close, LastAtr(cfg, bars).value, spec)),
       if pos.tp == 0.0 then 0.0 else spec.Normalize(pos.tp))
  }

  /** The change is worth sending: one level moves by at least 1e-12. */
  predicate Sends(cfg: Config, pos: Position, bars: seq<Bar>, spec: Spec)
    requires cfg.atrPeriod > 0
  {
    var (sl, tp) := Manage(cfg, pos, bars, spec);
    !(Abs(sl - pos.sl) < 0.000000000001 && Abs(tp - pos.tp) < 0.000000000001)
  }

  /** One pass of the engine: a change too small is not sent, and the venue may refuse
      the rest. */
  function Applied(cfg: Config, pos: Position, bars: seq<Bar>, spec: Spec, accepted: bool): Position
    requires cfg.atrPeriod > 0
  {
    var (sl, tp) := Manage(cfg, pos, bars, spec);
    if !Sends(cfg, pos, bars, spec) then pos
    else if !accepted then pos
    else pos.(sl := spec.Normalize(sl), tp := if tp == 0.0 then 0.0 else spec.Normalize(tp))
  }

  datatype Pass = Pass(bars: seq<Bar>, accepted: bool)

  function Run(cfg: Config, pos: Position, passes: seq<Pass>, spec: Spec): Position
    requires cfg.atrPeriod > 0
    decreases |passes|
  {
    if passes == [] then pos
    else Run(cfg, Applied(cfg, pos, passes[0].bars, spec, passes[0].accepted), passes[1..], spec)
  }

  /** On the price grid, opened at a positive price. */
  ghost predicate Placed(pos: Position, spec: Spec) {
    OnGrid(pos.sl, spec.digits) && OnGrid(pos.tp, spec.digits) && pos.priceOpen > 0.0
  }

  /** At least as protective: a buy's stop no lower, a sell's no higher. */
  predicate NoLooser(side: Side, before: real, after: real) {
    if side == Buy then after >= before else after <= before
  }

  lemma LevelTightens(cfg: Config, pos: Position, close: real, atr: real, spec: Spec)
    requires pos.RiskDistance() > 0.0 && pos.priceOpen > 0.0
    ensures NoLooser(pos.side, pos.sl, Level(cfg, pos, close, atr, spec))
  {
    hide RMultiple, TrailDistance, Round;
  }

  lemma ManageTightens(cfg: Config, pos: Position, bars: seq<Bar>, spec: Spec)
    requires cfg.atrPeriod > 0 && Placed(pos, spec)
    ensures var (sl, tp) := Manage(cfg, pos, bars, spec);
            NoLooser(pos.side, pos.sl, sl) && OnGrid(sl, spec.digits) && tp == pos.tp
  {
    hide Level, LastAtr, Round;
    RoundIsProjection(pos.sl, spec.digits);
    RoundIsProjection(pos.tp, spec.digits);
    if Manages(cfg, pos, bars) {
      var close, atr := bars[|bars| - 1].close, LastAtr(cfg, bars).value;
      var level := Level(cfg, pos, close, atr, spec);
      LevelTightens(cfg, pos, close, atr, spec);
      RoundIsProjection(level, spec.digits);
      if pos.side == Buy {
        RoundMonotone(pos.sl, level, spec.digits);
      } else {
        RoundMonotone(level, pos.sl, spec.digits);
      }
    }
  }

  lemma AppliedTightens(cfg: Config, pos: Position, pass: Pass, spec: Spec)
    requires cfg.atrPeriod > 0 && Placed(pos, spec)
    ensures var next := Applied(cfg, pos, pass.bars, spec, pass.accepted);
            && Placed(next, spec) && NoLooser(pos.side, pos.sl, next.sl) && next.tp == pos.tp
            && next.side == pos.side && next.priceOpen == pos.priceOpen
  {
    hide Manage, Round;
    ManageTightens(cfg, pos, pass.bars, spec);
    RoundIsProjection(Manage(cfg, pos, pass.bars, spec).0, spec.digits);
    RoundIsProjection(pos.tp, spec.digits);
  }

  /** Over any run of passes, on any bar windows and with any refusals by the venue:
      a buy's stop never falls, a sell's stop never rises, the target never moves,
      and both stay on the grid. */
  lemma {:induction false} StopNeverLoosens(cfg: Config, pos: Position, passes: seq<Pass>, spec: Spec)
    requires cfg.atrPeriod > 0 && Placed(pos, spec)
    ensures var end := Run(cfg, pos, passes, spec);
            Placed(end, spec) && NoLooser(pos.side, pos.sl, end.sl) && end.tp == pos.tp
            && end.side == pos.side && end.priceOpen == pos.priceOpen
    decreases |passes|
  {
    hide Applied, Placed;
    if passes != [] {
      AppliedTightens(cfg, pos, passes[0], spec);
      StopNeverLoosens(cfg, Applied(cfg, pos, passes[0].bars, spec, passes[0].accepted), passes[1..], spec);
    }
  }

  // ----- the new stop, exactly ---------------------------------------------------------------

  /** From one full window on, the last defined ATR is that of the last bar. */
  lemma LastAtrIsLast(cfg: Config, bars: seq<Bar>)
    requires cfg.atrPeriod > 0 && |bars| >= cfg.atrPeriod
    ensures LastAtr(cfg, bars) == Indicators.Atrs(bars, cfg.atrPeriod)[|bars| - 1] && LastAtr(cfg, bars).Some?
  {
    hide Indicators.WilderAt;
  }

  lemma RiskReached(pos: Position, close: real, k: real)
    requires pos.RiskDistance() > 0.0
    ensures RMultiple(pos, close) >= k <==>
            (if pos.side == Buy then close - pos.priceOpen else pos.priceOpen - close) >= Times(k, Abs(pos.priceOpen - pos.sl))
  {
    hide Times, Over;
    OverAgainst(if pos.side == Buy then close - pos.priceOpen else pos.priceOpen - close, pos.RiskDistance(), k);
  }

  /** One pass, for every position and window. Nothing changes without one bar more than the
      period, a positive ATR, a stop and a distance from it to the entry. Otherwise the stop
      moves to the entry once the close has gained `breakevenR` risks, and to the trail point
      once it has gained `trailR`, each only if that is closer, and is rounded; the target
      stays, rounded. */
  lemma ManageExactly(cfg: Config, pos: Position, bars: seq<Bar>, spec: Spec)
    requires cfg.atrPeriod > 0
    ensures var (sl, tp) := Manage(cfg, pos, bars, spec);
            var n := |bars|;
            if n < cfg.atrPeriod + 1 || Indicators.Atrs(bars, cfg.atrPeriod)[n - 1].value <= 0.0
               || pos.sl <= 0.0 || pos.sl == pos.priceOpen
            then (sl, tp) == (pos.sl, pos.tp)
            else
              var close, trail := bars[n - 1].close, Times(cfg.trailAtrMult, Indicators.Atrs(bars, cfg.atrPeriod)[n - 1].value);
              var gain := if pos.side == Buy then close - pos.priceOpen else pos.priceOpen - close;
              var risk := Abs(pos.priceOpen - pos.sl);
              var secures, trails := gain >= Times(cfg.breakevenR, risk), gain >= Times(cfg.trailR, risk);
              && tp == (if pos.tp == 0.0 then 0.0 else Round(pos.tp, spec.digits))
              && (pos.side == Buy ==>
                    var kept := if secures && pos.priceOpen > pos.sl then pos.priceOpen else pos.sl;
                    var point := Round(close - trail, spec.digits);
                    sl == Round(if trails && point > kept then point else kept, spec.digits))
              && (pos.side == Sell ==>
                    var kept := if secures && pos.priceOpen < pos.sl then pos.priceOpen else pos.sl;
                    var point := Round(close + trail, spec.digits);
                    sl == Round(if trails && (point < kept || kept <= 0.0) then point else kept, spec.digits))
  {
    hide Round, RMultiple, Times, LastAtr;
    if |bars| >= cfg.atrPeriod { LastAtrIsLast(cfg, bars); }
    if |bars| >= cfg.atrPeriod + 1 && pos.RiskDistance() > 0.0 {
      RiskReached(pos, bars[|bars| - 1].close, cfg.breakevenR);
      RiskReached(pos, bars[|bars| - 1].close, cfg.trailR);
    }
  }

  /** What the engine makes of it: the new levels if one of them moves by at least 1e-12 and
      the venue accepts, else nothing. */
  lemma AppliedExactly(cfg: Config, pos: Position, bars: seq<Bar>, spec: Spec, accepted: bool)
    requires cfg.atrPeriod > 0 && OnGrid(pos.sl, spec.digits) && OnGrid(pos.tp, spec.digits)
    ensures var (sl, tp) := Manage(cfg, pos, bars, spec);
            Applied(cfg, pos, bars, spec, accepted) ==
            if accepted && (Abs(sl - pos.sl) >= 0.000000000001 || Abs(tp - pos.tp) >= 0.000000000001)
            then pos.(sl := sl, tp := tp) else pos
  {
    hide Round, Level, LastAtr;
    var (sl, tp) := Manage(cfg, pos, bars, spec);
    RoundIsProjection(pos.tp, spec.digits);
    RoundIsProjection(pos.sl, spec.digits);
    if Manages(cfg, pos, bars) {
      RoundIsProjection(Level(cfg, pos, bars[|bars| - 1].close, LastAtr(cfg, bars).value, spec), spec.digits);
    }
    RoundIsProjection(sl, spec.digits);
    RoundIsProjection(tp, spec.digits);
  }

  /** An adverse or short move leaves the stop where it is. */
  lemma NothingBeforeBreakeven(cfg: Config, pos: Position, bars: seq<Bar>, spec: Spec)
    requires cfg.atrPeriod > 0 && bars != [] && OnGrid(pos.sl, spec.digits) && OnGrid(pos.tp, spec.digits)
    requires var gain := if pos.side == Buy then bars[|bars| - 1].close - pos.priceOpen else pos.priceOpen - bars[|bars| - 1].close;
             gain < Times(cfg.breakevenR, Abs(pos.priceOpen - pos.sl)) && gain < Times(cfg.trailR, Abs(pos.priceOpen - pos.sl))
    ensures Manage(cfg, pos, bars, spec) == (pos.sl, pos.tp)
  {
    hide Round, RMultiple, Times, LastAtr, Manage;
    ManageExactly(cfg, pos, bars, spec);
    RoundIsProjection(pos.sl, spec.digits);
    RoundIsProjection(pos.tp, spec.digits);
  }

  // ----- when a stop stays a stop --------------------------------------------------------

  /** The pass moves the stop to the entry, and lets it trail. */
  predicate Secures(cfg: Config, pos: Position, bars: seq<Bar>)
    requires cfg.atrPeriod > 0 && Manages(cfg, pos, bars)
  {
    RMultiple(pos, bars[|bars| - 1].close) >= cfg.breakevenR
  }

  predicate Trails(cfg: Config, pos: Position, bars: seq<Bar>)
    requires cfg.atrPeriod > 0 && Manages(cfg, pos, bars)
  {
    RMultiple(pos, bars[|bars| - 1].close) >= cfg.trailR
  }

  /** Where a sell's trail points. */
  function TrailPoint(cfg: Config, bars: seq<Bar>, spec: Spec): real
    requires cfg.atrPeriod > 0 && bars != [] && LastAtr(cfg, bars).Some?
  {
    spec.Normalize(bars[|bars| - 1].close + TrailDistance(cfg, LastAtr(cfg, bars).value))
  }

  /** Rounding goes through a minimum with a rounded price. */
  lemma RoundOfMin(x: real, y: real, digits: nat)
    requires OnGrid(y, digits)
    ensures Round(Min(x, y), digits) == Min(Round(x, digits), y)
  {
    hide Round;
    RoundIsProjection(y, digits);
    if y < x { RoundMonotone(y, x, digits); } else { RoundMonotone(x, y, digits); }
  }

  /** What a pass must meet for a sell's stop to stay above zero: the entry it is moved to
      does not round to zero, and the point it trails to is above zero. */
  predicate KeepsStop(cfg: Config, pos: Position, bars: seq<Bar>, spec: Spec)
    requires cfg.atrPeriod > 0
  {
    Manages(cfg, pos, bars) ==>
      && (Secures(cfg, pos, bars) ==> spec.Normalize(pos.priceOpen) > 0.0)
      && (Trails(cfg, pos, bars) ==> TrailPoint(cfg, bars, spec) > 0.0)
  }

  /** Every pass that moves the stop meets it, at the stop it finds. */
  predicate AllKeepStop(cfg: Config, pos: Position, passes: seq<Pass>, spec: Spec)
    requires cfg.atrPeriod > 0
    decreases |passes|
  {
    passes == [] ||
    (&& (passes[0].accepted && Sends(cfg, pos, passes[0].bars, spec) ==> KeepsStop(cfg, pos, passes[0].bars, spec))
     && AllKeepStop(cfg, Applied(cfg, pos, passes[0].bars, spec, passes[0].accepted), passes[1..], spec))
  }

  /** A sell's stop at or below zero is no stop any more. Over any run of passes it is
      above zero at the end if and only if every accepted pass keeps it so; a buy's stop
      always stays. */
  lemma {:induction false} StopStaysPositiveExactly(cfg: Config, pos: Position, passes: seq<Pass>, spec: Spec)
    requires cfg.atrPeriod > 0 && Placed(pos, spec) && pos.sl > 0.0
    ensures Run(cfg, pos, passes, spec).sl > 0.0 <==> pos.side == Buy || AllKeepStop(cfg, pos, passes, spec)
    decreases |passes|
  {
    hide Applied, Placed, KeepsStop, Sends, Manage;
    if pos.side == Buy {
      StopNeverLoosens(cfg, pos, passes, spec);
    } else if passes != [] {
      var next := Applied(cfg, pos, passes[0].bars, spec, passes[0].accepted);
      AppliedTightens(cfg, pos, passes[0], spec);
      AppliedStaysPositive(cfg, pos, passes[0], spec);
      if next.sl > 0.0 {
        StopStaysPositiveExactly(cfg, next, passes[1..], spec);
      } else {
        BreakevenFreezes(cfg, next, passes[1..], spec);
      }
    }
  }

  /** One pass, sent and accepted or not. */
  lemma AppliedStaysPositive(cfg: Config, pos: Position, pass: Pass, spec: Spec)
    requires cfg.atrPeriod > 0 && Placed(pos, spec) && pos.side == Sell && pos.sl > 0.0
    ensures Applied(cfg, pos, pass.bars, spec, pass.accepted).sl > 0.0 <==>
            (pass.accepted && Sends(cfg, pos, pass.bars, spec) ==> KeepsStop(cfg, pos, pass.bars, spec))
  {
    hide Manage, KeepsStop, Round;
    ManagedStaysPositive(cfg, pos, pass.bars, spec);
    ManageTightens(cfg, pos, pass.bars, spec);
    RoundIsProjection(Manage(cfg, pos, pass.bars, spec).0, spec.digits);
  }

  lemma ManagedStaysPositive(cfg: Config, pos: Position, bars: seq<Bar>, spec: Spec)
    requires cfg.atrPeriod > 0 && Placed(pos, spec) && pos.side == Sell && pos.sl > 0.0
    ensures Manage(cfg, pos, bars, spec).0 > 0.0 <==> KeepsStop(cfg, pos, bars, spec)
  {
    if Manages(cfg, pos, bars) { MovedStaysPositive(cfg, pos, bars, spec); }
  }

  lemma MovedStaysPositive(cfg: Config, pos: Position, bars: seq<Bar>, spec: Spec)
    requires cfg.atrPeriod > 0 && Placed(pos, spec) && pos.side == Sell && pos.sl > 0.0 && Manages(cfg, pos, bars)
    ensures Manage(cfg, pos, bars, spec).0 > 0.0 <==>
              && (Secures(cfg, pos, bars) ==> spec.Normalize(pos.priceOpen) > 0.0)
              && (Trails(cfg, pos, bars) ==> TrailPoint(cfg, bars, spec) > 0.0)
  {
    hide Round, RMultiple, TrailDistance, LastAtr;
    var digits := spec.digits;
    var base := if Secures(cfg, pos, bars) then Min(pos.sl, pos.priceOpen) else pos.sl;
    RoundIsProjection(pos.sl, digits);
    var entry := Round(pos.priceOpen, digits);
    RoundMonotone(pos.priceOpen, pos.priceOpen, digits);
    RoundOfMinBoth(pos.sl, pos.priceOpen, digits);
    if Trails(cfg, pos, bars) {
      var point := TrailPoint(cfg, bars, spec);
      RoundIsProjection(bars[|bars| - 1].close + TrailDistance(cfg, LastAtr(cfg, bars).value), digits);
      RoundOfMin(base, point, digits);
    }
  }

  lemma RoundOfMinBoth(x: real, y: real, digits: nat)
    ensures Round(Min(x, y), digits) == Min(Round(x, digits), Round(y, digits))
  {
    hide Round;
    if y < x { RoundMonotone(y, x, digits); } else { RoundMonotone(x, y, digits); }
  }

  /** Quotes a venue can show: the last close is a positive grid price. */
  ghost predicate QuotedOnGrid(bars: seq<Bar>, spec: Spec) {
    bars != [] ==> bars[|bars| - 1].close > 0.0 && OnGrid(bars[|bars| - 1].close, spec.digits)
  }

  /** On such quotes the stop stays a stop over any run of passes. */
  lemma {:induction false} StopStaysPositive(cfg: Config, pos: Position, passes: seq<Pass>, spec: Spec)
    requires cfg.atrPeriod > 0 && cfg.trailAtrMult >= 0.0 && Placed(pos, spec) && pos.sl > 0.0
    requires OnGrid(pos.priceOpen, spec.digits)
    requires forall i :: 0 <= i < |passes| ==> QuotedOnGrid(passes[i].bars, spec)
    ensures Run(cfg, pos, passes, spec).sl > 0.0
    decreases |passes|
  {
    hide Applied, Placed, QuotedOnGrid, Manage;
    if passes != [] {
      assert QuotedOnGrid(passes[0].bars, spec);
      AppliedTightens(cfg, pos, passes[0], spec);
      QuotedStaysPositive(cfg, pos, passes[0], spec);
      StopStaysPositive(cfg, Applied(cfg, pos, passes[0].bars, spec, passes[0].accepted), passes[1..], spec);
    }
  }

  lemma QuotedStaysPositive(cfg: Config, pos: Position, pass: Pass, spec: Spec)
    requires cfg.atrPeriod > 0 && cfg.trailAtrMult >= 0.0 && Placed(pos, spec) && pos.sl > 0.0
    requires OnGrid(pos.priceOpen, spec.digits) && QuotedOnGrid(pass.bars, spec)
    ensures Applied(cfg, pos, pass.bars, spec, pass.accepted).sl > 0.0
  {
    hide Manage, KeepsStop, Round, QuotedOnGrid;
    ManageStaysPositive(cfg, pos, pass.bars, spec);
    ManageTightens(cfg, pos, pass.bars, spec);
    RoundIsProjection(Manage(cfg, pos, pass.bars, spec).0, spec.digits);
  }

  lemma ManageStaysPositive(cfg: Config, pos: Position, bars: seq<Bar>, spec: Spec)
    requires cfg.atrPeriod > 0 && cfg.trailAtrMult >= 0.0 && Placed(pos, spec) && pos.sl > 0.0
    requires OnGrid(pos.priceOpen, spec.digits) && QuotedOnGrid(bars, spec)
    ensures Manage(cfg, pos, bars, spec).0 > 0.0
  {
    hide Round, RMultiple, LastAtr, Level, Times;
    RoundIsProjection(pos.sl, spec.digits);
    RoundIsProjection(pos.priceOpen, spec.digits);
    if Manages(cfg, pos, bars) {
      if pos.side == Buy {
        ManageTightens(cfg, pos, bars, spec);
      } else {
        var close, atr := bars[|bars| - 1].close, LastAtr(cfg, bars).value;
        TimesMonotone(0.0, cfg.trailAtrMult, atr);
        TimesUnits(atr);
        RoundIsProjection(close, spec.digits);
        RoundMonotone(close, close + TrailDistance(cfg, atr), spec.digits);
        MovedStaysPositive(cfg, pos, bars, spec);
      }
    }
  }

  // ----- a window with any close and a range of one -----------------------------------------

  function FlatBars(close: real, n: nat): seq<Bar> {
    seq(n, i => Bar(i, close, close + 0.5, close - 0.5, close))
  }

  lemma FlatAtr(cfg: Config, close: real)
    requires cfg.atrPeriod > 0
    ensures LastAtr(cfg, FlatBars(close, cfg.atrPeriod + 1)) == Some(1.0)
  {
    var n := cfg.atrPeriod + 1;
    var bars := FlatBars(close, n);
    var ranges := Indicators.TrueRanges(bars);
    forall j | 0 <= j < n ensures ranges[j] == 1.0 {
    }
    hide Indicators.WilderAt;
    Indicators.WilderConstant(ranges, 1.0, cfg.atrPeriod, n - 1);
    assert Indicators.Atrs(bars, cfg.atrPeriod)[n - 1] == Some(1.0);
  }

  /** The failing family is real: a sell at 5 with its stop at 10, a last close of -37
      and a trail of two ranges. */
  lemma NegativeQuoteRemovesStop(pos: Position, spec: Spec)
    requires pos.side == Sell && pos.sl == 10.0 && pos.priceOpen == 5.0 && spec.digits == 0
    ensures var cfg := Config(1, 1.0, 1.0, 2.0);
            Manage(cfg, pos, FlatBars(-37.0, 2), spec).0 == -35.0
  {
    var cfg := Config(1, 1.0, 1.0, 2.0);
    FlatAtr(cfg, -37.0);
    RoundOfWhole(-35);
    hide Round, LastAtr;
    assert RMultiple(pos, -37.0) == 8.4;
  }

  lemma RoundOfWhole(n: int)
    ensures Round(n as real, 0) == n as real
  {
    hide Times, Over, RoundHalfEven;
    TimesFlip(n as real, 1.0);
    TimesUnits(n as real);
    RoundHalfEvenOfInt(n);
    TimesFlip(1.0, n as real);
    OverIs(n as real, 1.0, n as real);
    assert Pow10(0) == 1.0;
  }

  // ----- when a stop can still move, exactly -------------------------------------------------

  /** A stop that sits on the entry price has no risk distance left, so no later
      pass moves it again: trailing never resumes after an exact breakeven. */
  lemma {:induction false} BreakevenFreezes(cfg: Config, pos: Position, passes: seq<Pass>, spec: Spec)
    requires cfg.atrPeriod > 0 && (pos.sl == pos.priceOpen || pos.sl <= 0.0)
    ensures Run(cfg, pos, passes, spec) == pos
    decreases |passes|
  {
    if passes != [] {
      BreakevenFreezes(cfg, pos, passes[1..], spec);
    }
  }

  /** And the first favourable move short of the trail puts it exactly there. */
  lemma BreakevenReached(cfg: Config, pos: Position, bars: seq<Bar>, spec: Spec)
    requires cfg.atrPeriod > 0 && Manages(cfg, pos, bars) && Placed(pos, spec) && OnGrid(pos.priceOpen, spec.digits)
    requires cfg.breakevenR <= RMultiple(pos, bars[|bars| - 1].close) < cfg.trailR
    requires if pos.side == Buy then pos.sl < pos.priceOpen else pos.sl > pos.priceOpen
    ensures Manage(cfg, pos, bars, spec).0 == pos.priceOpen
  {
    hide Round, RMultiple, LastAtr;
    RoundIsProjection(pos.priceOpen, spec.digits);
  }

  /** A favourable distance that passes both thresholds. */
  function Far(cfg: Config, pos: Position): real {
    Times(Max(Max(cfg.breakevenR, cfg.trailR), 0.0), pos.RiskDistance())
    + Abs(pos.sl) + Abs(pos.priceOpen) + Abs(cfg.trailAtrMult) + 10.0
  }

  function FarClose(cfg: Config, pos: Position): real {
    if pos.side == Buy then pos.priceOpen + Far(cfg, pos) else pos.priceOpen - Far(cfg, pos)
  }

  lemma FarReachesBoth(cfg: Config, pos: Position)
    requires pos.RiskDistance() > 0.0
    ensures RMultiple(pos, FarClose(cfg, pos)) >= cfg.breakevenR && RMultiple(pos, FarClose(cfg, pos)) >= cfg.trailR
  {
    hide Times, Over;
    var k, d := Max(Max(cfg.breakevenR, cfg.trailR), 0.0), pos.RiskDistance();
    OverMonotone(Times(k, d), Far(cfg, pos), d);
    OverIs(Times(k, d), d, k);
  }

  lemma HalfStepSmall(x: real, digits: nat)
    ensures x - 0.5 <= Round(x, digits) <= x + 0.5
  {
    hide Round, Over;
    RoundToNearHalf(x, digits);
  }

  lemma RoundToNearHalf(x: real, digits: nat)
    ensures -0.5 <= Round(x, digits) - x <= 0.5
  {
    hide Times, Over, RoundHalfEven;
    var p := Pow10(digits);
    RoundToNear(x, p);
    OverTimes(0.5, p);
    OverSign(0.5, p);
    TimesMonotone(1.0, p, Over(0.5, p));
    TimesFlip(Over(0.5, p), p);
    TimesUnits(Over(0.5, p));
  }

  /** One accepted pass on a far window moves the stop. */
  lemma FarMoves(cfg: Config, pos: Position, spec: Spec)
    requires cfg.atrPeriod > 0 && pos.RiskDistance() > 0.0
    ensures var bars := FlatBars(FarClose(cfg, pos), cfg.atrPeriod + 1);
            Applied(cfg, pos, bars, spec, true).sl != pos.sl
  {
    var close := FarClose(cfg, pos);
    var bars := FlatBars(close, cfg.atrPeriod + 1);
    FlatAtr(cfg, close);
    FarReachesBoth(cfg, pos);
    TimesFlip(cfg.trailAtrMult, 1.0);
    TimesUnits(cfg.trailAtrMult);
    hide Round, LastAtr, RMultiple, Times;
    FarIsFar(cfg, pos);
    var m := cfg.trailAtrMult;
    HalfStepSmall(close - m, spec.digits);
    HalfStepSmall(close + m, spec.digits);
    var level := Level(cfg, pos, close, 1.0, spec);
    assert if pos.side == Buy then level > pos.sl + 5.0 else level < pos.sl - 5.0;
    HalfStepSmall(level, spec.digits);
    HalfStepSmall(Round(level, spec.digits), spec.digits);
  }

  lemma FarIsFar(cfg: Config, pos: Position)
    requires pos.RiskDistance() > 0.0
    ensures Far(cfg, pos) >= Abs(pos.sl) + Abs(pos.priceOpen) + Abs(cfg.trailAtrMult) + 10.0
  {
    hide Times;
    TimesMonotone(0.0, Max(Max(cfg.breakevenR, cfg.trailR), 0.0), pos.RiskDistance());
    TimesUnits(pos.RiskDistance());
  }

  lemma FarRun(cfg: Config, pos: Position, spec: Spec) returns (passes: seq<Pass>)
    requires cfg.atrPeriod > 0 && pos.RiskDistance() > 0.0
    ensures Run(cfg, pos, passes, spec).sl != pos.sl
  {
    hide Applied, FlatBars;
    var bars := FlatBars(FarClose(cfg, pos), cfg.atrPeriod + 1);
    FarMoves(cfg, pos, spec);
    passes := [Pass(bars, true)];
    assert passes[1..] == [];
    assert Run(cfg, Applied(cfg, pos, bars, spec, true), [], spec) == Applied(cfg, pos, bars, spec, true);
  }

  /** Some run of passes still moves the stop if and only if it is a stop away from the
      entry price. */
  lemma StopMovesExactly(cfg: Config, pos: Position, spec: Spec)
    requires cfg.atrPeriod > 0
    ensures (exists passes :: Run(cfg, pos, passes, spec).sl != pos.sl) <==> pos.sl > 0.0 && pos.sl != pos.priceOpen
  {
    hide Applied;
    if pos.sl > 0.0 && pos.sl != pos.priceOpen {
      var passes := FarRun(cfg, pos, spec);
      assert Run(cfg, pos, passes, spec).sl != pos.sl;
    } else {
      forall passes ensures Run(cfg, pos, passes, spec).sl == pos.sl {
        BreakevenFreezes(cfg, pos, passes, spec);
      }
    }
  }

  // ----- re-pricing --------------------------------------------------------------

  /** `reprice`: the stop and target keep their distance to the new entry. */
  function Reprice(s: Signal, entry: real, spec: Spec): Signal {
    if s.kind == BuyKind then
      s.(entry := spec.Normalize(entry), sl := spec.Normalize(entry - (s.entry - s.sl)),
         tp := spec.Normalize(entry + (s.tp - s.entry)))
    else if s.kind == SellKind then
      s.(entry := spec.Normalize(entry), sl := spec.Normalize(entry + (s.sl - s.entry)),
         tp := spec.Normalize(entry - (s.entry - s.tp)))
    else s
  }

  function RiskDistance(s: Signal): real { Abs(s.entry - s.sl) }

  function GridStep(spec: Spec): real { Over(1.0, Pow10(spec.digits)) }

  /** Both distances survive up to one grid step, whatever side the levels are on, and
      the order of stop, entry and target never turns around. */
  lemma RepriceKeepsDistances(s: Signal, entry: real, spec: Spec)
    requires s.kind != FlatKind
    ensures var n := Reprice(s, entry, spec);
            && Abs(RiskDistance(n) - RiskDistance(s)) <= GridStep(spec)
            && Abs(Abs(n.tp - n.entry) - Abs(s.tp - s.entry)) <= GridStep(spec)
            && (s.sl <= s.entry ==> n.sl <= n.entry) && (s.sl >= s.entry ==> n.sl >= n.entry)
            && (s.tp <= s.entry ==> n.tp <= n.entry) && (s.tp >= s.entry ==> n.tp >= n.entry)
  {
    hide Round, Over;
    LevelKeepsDistance(entry, entry - s.entry + s.sl, spec);
    LevelKeepsDistance(entry, entry - s.entry + s.tp, spec);
  }

  /** A re-priced signal stands at the new entry, its levels moved by as much as the entry,
      all within half a grid step, and is otherwise the same; a flat one is untouched. */
  lemma RepriceMovesAll(s: Signal, entry: real, spec: Spec)
    ensures var n, half := Reprice(s, entry, spec), Over(0.5, Pow10(spec.digits));
            if s.kind == FlatKind then n == s
            else
              && n == s.(entry := n.entry, sl := n.sl, tp := n.tp)
              && Abs(n.entry - entry) <= half
              && Abs(n.sl - (s.sl + (entry - s.entry))) <= half
              && Abs(n.tp - (s.tp + (entry - s.entry))) <= half
              && OnGrid(n.entry, spec.digits) && OnGrid(n.sl, spec.digits) && OnGrid(n.tp, spec.digits)
  {
    hide Round, Over;
    var d := spec.digits;
    var sl, tp := entry - s.entry + s.sl, entry - s.entry + s.tp;
    RoundNearOver(entry, d);
    RoundNearOver(sl, d);
    RoundNearOver(tp, d);
    RoundIsProjection(entry, d);
    RoundIsProjection(sl, d);
    RoundIsProjection(tp, d);
  }

  /** Two prices rounded together. */
  lemma LevelKeepsDistance(entry: real, level: real, spec: Spec)
    ensures var e, l := spec.Normalize(entry), spec.Normalize(level);
            && Abs((e - l) - (entry - level)) <= GridStep(spec)
            && (level <= entry ==> l <= e) && (level >= entry ==> l >= e)
  {
    hide Round, Over, Times;
    var d := spec.digits;
    RoundNearOver(entry, d);
    RoundNearOver(level, d);
    OverSum(0.5, 0.5, Pow10(d));
    if level <= entry { RoundMonotone(level, entry, d); }
    if level >= entry { RoundMonotone(entry, level, d); }
  }

  lemma RoundNearOver(x: real, digits: nat)
    ensures -Over(0.5, Pow10(digits)) <= Round(x, digits) - x <= Over(0.5, Pow10(digits))
  {
    hide Times, Over, RoundHalfEven;
    RoundToNear(x, Pow10(digits));
  }
}
