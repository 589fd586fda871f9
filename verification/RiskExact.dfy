/** What the limits of risk.py decide, in the fields of the account, the proposal and the
    snapshot: when the circuit is open, when an evaluate allows, which reason it names, and
    what holds a halt. */
module RiskExact {
  import opened Wrappers
  import opened Market
  import opened Confirm
  import opened StateFile
  import opened Sizing
  import opened Risk
  import opened RiskRuns

  // ----- our positions and their currencies ----------------------------------------------

  /** How many of the positions carry our magic number. */
  function CountOurs(ps: seq<Position>, magic: int): nat {
    if ps == [] then 0 else (if ps[0].magic == magic then 1 else 0) + CountOurs(ps[1..], magic)
  }

  /** What a deal in a pair adds to one currency: a buy takes one of the base and gives one
      of the quote. */
  function Adds(pair: Option<(string, string)>, buy: bool, code: string): int {
    if pair.None? then 0
    else
      (if pair.value.0 == code then (if buy then 1 else -1) else 0)
      + (if pair.value.1 == code then (if buy then -1 else 1) else 0)
  }

  /** The net of our positions in one currency. */
  function NetHeld(ps: seq<Position>, magic: int, pair: string -> Option<(string, string)>, code: string): int {
    if ps == [] then 0
    else
      (if ps[0].magic == magic then Adds(pair(ps[0].symbol), ps[0].side == Buy, code) else 0)
      + NetHeld(ps[1..], magic, pair, code)
  }

  /** A pair with this currency. */
  predicate In(pair: Option<(string, string)>, code: string) {
    pair.Some? && code in {pair.value.0, pair.value.1}
  }

  /** One of ours, or the proposed deal, is in this currency. */
  predicate Touched(ps: seq<Position>, magic: int, pair: string -> Option<(string, string)>, symbol: string, code: string) {
    In(pair(symbol), code) || OursIn(ps, magic, pair, code)
  }

  /** The net after the deal is past the limit in some currency that is traded. */
  ghost predicate PastLimit(cfg: Config, q: Proposal) {
    exists code: string ::
      Touched(q.positions, cfg.magic, q.pair, q.sig.symbol, code) &&
      Abs((NetHeld(q.positions, cfg.magic, q.pair, code) + Adds(q.pair(q.sig.symbol), q.sig.kind == BuyKind, code)) as real)
      > cfg.maxCurrencyExposure as real
  }

  lemma {:induction false} CountSnoc(ps: seq<Position>, p: Position, magic: int)
    ensures CountOurs(ps + [p], magic) == CountOurs(ps, magic) + if p.magic == magic then 1 else 0
  {
    if ps == [] {
      assert [] + [p] == [p] && [p][1..] == [];
    } else {
      CountSnoc(ps[1..], p, magic);
      assert (ps + [p])[1..] == ps[1..] + [p];
    }
  }

  lemma {:induction false} NetSnoc(ps: seq<Position>, p: Position, magic: int, pair: string -> Option<(string, string)>, code: string)
    ensures NetHeld(ps + [p], magic, pair, code) ==
            NetHeld(ps, magic, pair, code) + if p.magic == magic then Adds(pair(p.symbol), p.side == Buy, code) else 0
  {
    if ps == [] {
      assert [] + [p] == [p] && [p][1..] == [];
    } else {
      NetSnoc(ps[1..], p, magic, pair, code);
      assert (ps + [p])[1..] == ps[1..] + [p];
    }
  }

  lemma {:induction false} OursAreOurs(cfg: Config, ps: seq<Position>)
    ensures |Ours(cfg, ps)| == CountOurs(ps, cfg.magic)
    ensures forall p :: p in Ours(cfg, ps) <==> p in ps && p.magic == cfg.magic
  {
    if ps != [] {
      var n := |ps| - 1;
      OursAreOurs(cfg, ps[..n]);
      CountSnoc(ps[..n], ps[n], cfg.magic);
      assert ps == ps[..n] + [ps[n]];
    }
  }

  lemma LegAdds(pair: (string, string), side: Side, code: string)
    ensures Leg(pair, side, code) == Adds(Some(pair), side == Buy, code)
  {
  }

  lemma NetOfSnoc(legs: seq<((string, string), Side)>, leg: ((string, string), Side), code: string)
    ensures Net(legs + [leg], code) == Net(legs, code) + Leg(leg.0, leg.1, code)
  {
    assert (legs + [leg])[..|legs|] == legs;
  }

  lemma OursSnoc(cfg: Config, ps: seq<Position>, p: Position)
    ensures Ours(cfg, ps + [p]) == if p.magic == cfg.magic then Ours(cfg, ps) + [p] else Ours(cfg, ps)
  {
    assert (ps + [p])[..|ps|] == ps;
  }

  lemma LegsSnoc(ps: seq<Position>, p: Position, pair: string -> Option<(string, string)>)
    ensures Legs(ps + [p], pair) ==
            if pair(p.symbol).Some? then Legs(ps, pair) + [(pair(p.symbol).value, p.side)] else Legs(ps, pair)
  {
    assert (ps + [p])[..|ps|] == ps;
  }

  lemma NoneHeld(cfg: Config, pair: string -> Option<(string, string)>, code: string)
    ensures Net(Legs(Ours(cfg, []), pair), code) == 0 == NetHeld([], cfg.magic, pair, code)
  {
  }

  lemma {:induction false} HeldIsNet(cfg: Config, ps: seq<Position>, pair: string -> Option<(string, string)>, code: string)
    ensures Net(Legs(Ours(cfg, ps), pair), code) == NetHeld(ps, cfg.magic, pair, code)
  {
    hide Leg, Adds, Net, NetHeld, Ours, Legs;
    if ps == [] {
      NoneHeld(cfg, pair, code);
    } else {
      var n := |ps| - 1;
      var front, p := ps[..n], ps[n];
      assert ps == front + [p];
      HeldIsNet(cfg, front, pair, code);
      NetSnoc(front, p, cfg.magic, pair, code);
      OursSnoc(cfg, front, p);
      LegsSnoc(Ours(cfg, front), p, pair);
      if pair(p.symbol).Some? {
        NetOfSnoc(Legs(Ours(cfg, front), pair), (pair(p.symbol).value, p.side), code);
        LegAdds(pair(p.symbol).value, p.side, code);
      } else {
        NothingAdded(pair(p.symbol), p.side == Buy, code);
      }
    }
  }

  lemma NothingAdded(pair: Option<(string, string)>, buy: bool, code: string)
    requires pair.None?
    ensures Adds(pair, buy, code) == 0
  {
  }

  lemma AllIsNet(cfg: Config, q: Proposal, code: string)
    requires q.sig.kind != FlatKind
    ensures Net(AllLegs(cfg, q), code) ==
            NetHeld(q.positions, cfg.magic, q.pair, code) + Adds(q.pair(q.sig.symbol), q.sig.kind == BuyKind, code)
  {
    hide Leg, Adds, Ours, Legs;
    HeldIsNet(cfg, q.positions, q.pair, code);
    var held := Legs(Ours(cfg, q.positions), q.pair);
    if q.pair(q.sig.symbol).Some? {
      NetOfSnoc(held, (q.pair(q.sig.symbol).value, SideOf(q.sig.kind)), code);
      LegAdds(q.pair(q.sig.symbol).value, SideOf(q.sig.kind), code);
    } else {
      NothingAdded(q.pair(q.sig.symbol), q.sig.kind == BuyKind, code);
    }
  }

  /** Which currencies the legs are in. */
  predicate LegIn(legs: seq<((string, string), Side)>, code: string) {
    exists i :: 0 <= i < |legs| && In(Some(legs[i].0), code)
  }

  lemma LegInSnoc(legs: seq<((string, string), Side)>, leg: ((string, string), Side), code: string)
    ensures LegIn(legs + [leg], code) <==> LegIn(legs, code) || In(Some(leg.0), code)
  {
    var all := legs + [leg];
    if LegIn(legs, code) {
      var i :| 0 <= i < |legs| && In(Some(legs[i].0), code);
      assert In(Some(all[i].0), code);
    }
    if In(Some(leg.0), code) { assert In(Some(all[|legs|].0), code); }
    if LegIn(all, code) {
      var i :| 0 <= i < |all| && In(Some(all[i].0), code);
      if i < |legs| { assert In(Some(legs[i].0), code); }
    }
  }

  lemma {:induction false} ExposedCodes(legs: seq<((string, string), Side)>, code: string)
    ensures code in Exposure(legs) <==> LegIn(legs, code)
  {
    if legs != [] {
      var n := |legs| - 1;
      ExposedCodes(legs[..n], code);
      LegInSnoc(legs[..n], legs[n], code);
      assert legs == legs[..n] + [legs[n]];
    }
  }

  /** One of the first `n` positions is ours and in the currency. */
  predicate OursIn(ps: seq<Position>, magic: int, pair: string -> Option<(string, string)>, code: string) {
    exists i :: 0 <= i < |ps| && ps[i].magic == magic && In(pair(ps[i].symbol), code)
  }

  lemma OursInSnoc(ps: seq<Position>, p: Position, magic: int, pair: string -> Option<(string, string)>, code: string)
    ensures OursIn(ps + [p], magic, pair, code) <==>
            OursIn(ps, magic, pair, code) || (p.magic == magic && In(pair(p.symbol), code))
  {
    hide In;
    var all := ps + [p];
    if OursIn(ps, magic, pair, code) {
      var i :| 0 <= i < |ps| && ps[i].magic == magic && In(pair(ps[i].symbol), code);
      assert all[i] == ps[i];
    }
    if p.magic == magic && In(pair(p.symbol), code) { assert all[|ps|] == p; }
    if OursIn(all, magic, pair, code) {
      var i :| 0 <= i < |all| && all[i].magic == magic && In(pair(all[i].symbol), code);
      if i < |ps| { assert ps[i] == all[i]; }
    }
  }

  lemma {:induction false} HeldCodes(cfg: Config, ps: seq<Position>, pair: string -> Option<(string, string)>, code: string)
    ensures LegIn(Legs(Ours(cfg, ps), pair), code) <==> OursIn(ps, cfg.magic, pair, code)
  {
    hide In, LegIn, OursIn, Ours, Legs;
    if ps == [] {
      NoLegs(cfg, pair, code);
    } else {
      var n := |ps| - 1;
      var front, p := ps[..n], ps[n];
      assert ps == front + [p];
      HeldCodes(cfg, front, pair, code);
      OursInSnoc(front, p, cfg.magic, pair, code);
      OursSnoc(cfg, front, p);
      LegsSnoc(Ours(cfg, front), p, pair);
      if pair(p.symbol).Some? {
        LegInSnoc(Legs(Ours(cfg, front), pair), (pair(p.symbol).value, p.side), code);
      } else {
        NoneIsIn(pair(p.symbol), code);
      }
    }
  }

  lemma NoLegs(cfg: Config, pair: string -> Option<(string, string)>, code: string)
    ensures !LegIn(Legs(Ours(cfg, []), pair), code) && !OursIn([], cfg.magic, pair, code)
  {
  }

  lemma NoneIsIn(pair: Option<(string, string)>, code: string)
    requires pair.None?
    ensures !In(pair, code)
  {
  }

  lemma OverexposedExactly(cfg: Config, q: Proposal)
    requires q.sig.kind != FlatKind
    ensures Overexposed(cfg, Exposure(AllLegs(cfg, q))) <==> PastLimit(cfg, q)
  {
    hide In, Adds, NetHeld, Exposure, AllLegs;
    var m := Exposure(AllLegs(cfg, q));
    forall code
      ensures code in m <==> Touched(q.positions, cfg.magic, q.pair, q.sig.symbol, code)
      ensures code in m ==>
                m[code] == NetHeld(q.positions, cfg.magic, q.pair, code) + Adds(q.pair(q.sig.symbol), q.sig.kind == BuyKind, code)
    {
      TouchedExactly(cfg, q, code);
      ExposureIsNet(AllLegs(cfg, q), code);
      AllIsNet(cfg, q, code);
    }
  }

  lemma TouchedExactly(cfg: Config, q: Proposal, code: string)
    ensures code in Exposure(AllLegs(cfg, q)) <==> Touched(q.positions, cfg.magic, q.pair, q.sig.symbol, code)
  {
    hide In, Ours, Legs;
    var held := Legs(Ours(cfg, q.positions), q.pair);
    ExposedCodes(AllLegs(cfg, q), code);
    HeldCodes(cfg, q.positions, q.pair, code);
    if q.pair(q.sig.symbol).Some? {
      LegInSnoc(held, (q.pair(q.sig.symbol).value, SideOf(q.sig.kind)), code);
    } else {
      NoneIsIn(q.pair(q.sig.symbol), code);
    }
  }

  // ----- an evaluate, exactly ---------------------------------------------------------------

  /** The gates before sizing, in the source's order. */
  ghost function FirstFailing(cfg: Config, snap: Snapshot, a: Account, q: Proposal): string {
    var risk, spread := Abs(q.sig.entry - q.sig.sl), q.tick.ask - q.tick.bid;
    if q.sig.kind == FlatKind then "no_signal"
    else if !(q.manual || q.inSession) then "outside_session"
    else if CountOurs(q.positions, cfg.magic) >= cfg.maxPositions then "max_positions"
    else if cfg.maxTradesPerDay > 0 && snap.trades >= cfg.maxTradesPerDay then "max_trades_per_day"
    else if exists i :: 0 <= i < |q.positions| && q.positions[i].magic == cfg.magic && q.positions[i].symbol == q.sig.symbol
    then "already_in_symbol"
    else if PastLimit(cfg, q) then "currency_exposure"
    else if q.sig.sl <= 0.0 || q.sig.entry == q.sig.sl then "sl_required"
    else if Abs(q.sig.tp - q.sig.entry) < Times(cfg.minRR - MONEY_EPS, risk) then "rr_below_min"
    else if !q.specMeasured then "spec_not_measured"
    else if risk < q.spec.stopsLevel as real * q.spec.point then "stops_level"
    else if q.sig.atr > 0.0 && spread > Times(cfg.maxSpreadAtrFrac, q.sig.atr) then "spread_too_wide"
    else if q.spec.point > 0.0 && spread > 0.0
            && Times(q.deviation + MONEY_EPS, q.spec.point) < Times(cfg.minDeviationSpreadMultiple, spread)
    then "deviation_below_spread"
    else if a.equity > 0.0 && a.margin > 0.0 && a.marginFree < Times(cfg.minFreeMarginPct, a.equity) then "margin_buffer"
    else ""
  }

  lemma RewardExactly(cfg: Config, s: Signal)
    requires s.entry != s.sl
    ensures RewardRisk(s) + MONEY_EPS < cfg.minRR <==> Abs(s.tp - s.entry) < Times(cfg.minRR - MONEY_EPS, Abs(s.entry - s.sl))
  {
    hide Times, Over;
    OverAgainst(Abs(s.tp - s.entry), SignalRisk(s), cfg.minRR - MONEY_EPS);
  }

  lemma DeviationExactly(cfg: Config, q: Proposal)
    ensures var spread := q.tick.ask - q.tick.bid;
            (Points(q.spec, spread) > 0.0
             && q.deviation < Times(cfg.minDeviationSpreadMultiple, Points(q.spec, spread)) - MONEY_EPS)
            <==> (q.spec.point > 0.0 && spread > 0.0
                  && Times(q.deviation + MONEY_EPS, q.spec.point) < Times(cfg.minDeviationSpreadMultiple, spread))
  {
    hide Times, Over;
    var spread, m, point := q.tick.ask - q.tick.bid, cfg.minDeviationSpreadMultiple, q.spec.point;
    if point > 0.0 {
      OverSign(spread, point);
      OverTimes(spread, point);
      TimesAssociate(m, Over(spread, point), point);
      var floor, d := Times(m, Over(spread, point)), q.deviation + MONEY_EPS;
      if d < floor {
        TimesSum(floor - d, d, point);
        TimesSign(floor - d, point);
        assert floor - d + d == floor;
      } else {
        TimesMonotone(floor, d, point);
      }
    }
  }

  lemma MarginExactly(cfg: Config, a: Account)
    ensures (a.equity > 0.0 && a.margin > 0.0 && Over(a.marginFree, a.equity) < cfg.minFreeMarginPct)
            <==> (a.equity > 0.0 && a.margin > 0.0 && a.marginFree < Times(cfg.minFreeMarginPct, a.equity))
  {
    hide Times, Over;
    if a.equity > 0.0 { OverAgainst(a.marginFree, a.equity, cfg.minFreeMarginPct); }
  }

  lemma SymbolHeldExactly(cfg: Config, ps: seq<Position>, symbol: string)
    ensures (exists i :: 0 <= i < |Ours(cfg, ps)| && Ours(cfg, ps)[i].symbol == symbol)
            <==> exists i :: 0 <= i < |ps| && ps[i].magic == cfg.magic && ps[i].symbol == symbol
  {
    hide Ours;
    OursAreOurs(cfg, ps);
    var ours := Ours(cfg, ps);
    if i :| 0 <= i < |ours| && ours[i].symbol == symbol {
      assert ours[i] in ours;
      var j :| 0 <= j < |ps| && ps[j] == ours[i];
    }
    if i :| 0 <= i < |ps| && ps[i].magic == cfg.magic && ps[i].symbol == symbol {
      assert ps[i] in ours;
      var j :| 0 <= j < |ours| && ours[j] == ps[i];
    }
  }

  lemma PreGateExactly(cfg: Config, snap: Snapshot, a: Account, q: Proposal)
    ensures PreGate(cfg, snap, a, q) == FirstFailing(cfg, snap, a, q)
  {
    hide Ours, Overexposed, PastLimit, Points, RewardRisk, Times, Over, Exposure, AllLegs;
    OursAreOurs(cfg, q.positions);
    SymbolHeldExactly(cfg, q.positions, q.sig.symbol);
    if q.sig.kind != FlatKind { OverexposedExactly(cfg, q); }
    if q.sig.entry != q.sig.sl { RewardExactly(cfg, q.sig); }
    DeviationExactly(cfg, q);
    MarginExactly(cfg, a);
  }

  /** What one observation makes of the state, in its fields: the day's start, the peak and
      the counters, the one halt a new day lifts, and the save, which happens exactly when a
      durable field moved and the file was readable. */
  lemma ObservesExactly(r: State, a: Account, day: string, time: int, end: SaveEnd)
    ensures var o, next := Observed(r, a, day, time, end), r.snap.day != day;
            var moved := next || a.equity > r.snap.peak;
            var lifted := next && r.reason == "daily_loss";
            var failed := moved && r.integrity != UNREADABLE && !end.Saved?;
            && o.snap == Snapshot(time, a.balance, a.equity, if a.equity > r.snap.peak then a.equity else r.snap.peak,
                                  if next then a.equity else r.snap.dayStart, day,
                                  if next then 0 else r.snap.trades, if next then 0 else r.snap.advice)
            && o.disk == (if moved && r.integrity != UNREADABLE && !end.Unsaved? then Save(o.snap) else r.disk)
            && (o.halted <==> (r.halted && !lifted) || failed)
            && o.integrity == (if failed then UNWRITABLE else r.integrity)
            && o.reason == (if r.halted && !lifted then r.reason
                            else if failed then UNWRITABLE
                            else if lifted then "" else r.reason)
            && o.haltFile == r.haltFile
  {
    hide Save;
  }

  /** The circuit of an observed state is open if and only if no HALT file is there, nothing
      is halted, the account may trade (a real-money one only if that was accepted), the
      day's loss is below its share of the day's start and the drawdown below its share of
      the peak. Else the first that fails names the reason, and what halts stays halted. */
  lemma CircuitExactly(cfg: Config, r: State, a: Account, day: string, time: int, end: SaveEnd)
    ensures var o, (r1, d) := Observed(r, a, day, time, end), Risk.Circuit(cfg, r, a, day, time, end);
            var dayLoss := o.snap.dayStart - a.equity >= o.snap.dayStart * cfg.dailyLossPct;
            var drawdown := o.snap.peak > 0.0 && o.snap.peak - a.equity >= o.snap.peak * cfg.maxDrawdownPct;
            var unaccepted := cfg.liveMode && a.realMoney && !cfg.liveAccepted;
            && (d.allowed <==>
                  && !o.haltFile && !o.halted && a.tradeAllowed && a.tradeExpert && !unaccepted && !dayLoss && !drawdown)
            && d.reason == (if o.haltFile then "halt_file"
                            else if o.halted then o.reason
                            else if !a.tradeAllowed || !a.tradeExpert then "trade_not_allowed"
                            else if unaccepted then "live_not_accepted"
                            else if dayLoss then "daily_loss" else if drawdown then "max_drawdown" else "ok")
            && (d.halt <==> r1.halted) && (d.flatten <==> d.halt)
            && (r1.halted <==> o.haltFile || o.halted
                               || (a.tradeAllowed && a.tradeExpert && !unaccepted && (dayLoss || drawdown)))
            && r1 == o.(halted := r1.halted, reason := if d.halt then d.reason else o.reason)
  {
    hide Observed;
  }

  /** Every evaluate with a clear circuit: the reason is that of the first test that fails,
      in the order of the source, and it allows, with the sizer's lots, if and only if none
      does. A manual proposal skips the session; positions are counted by magic number;
      a currency is past its limit when its net with this deal is; the last test holds the
      full stop-out against both the trade's budget and the room to the halts. */
  lemma EvaluatesExactly(cfg: Config, r: State, a: Account, day: string, time: int, end: SaveEnd, q: Proposal)
    requires Risk.Circuit(cfg, r, a, day, time, end).1.allowed
    ensures var (r1, d) := Evaluated(cfg, r, a, day, time, end, q);
            var snap, sig := r1.snap, q.sig;
            var risk, spread := Abs(sig.entry - sig.sl), q.tick.ask - q.tick.bid;
            var lots := LotsForRisk(a.equity, cfg.riskPct, sig.entry, sig.sl, q.spec, cfg.maxRiskMultiple);
            var worst := MoneyPerLot(sig.entry, sig.sl, q.spec) * lots;
            var dayRoom := snap.dayStart * cfg.dailyLossPct - (snap.dayStart - a.equity);
            var peakRoom := snap.peak * cfg.maxDrawdownPct - (snap.peak - a.equity);
            && r1 == Observed(r, a, day, time, end)
            && d.reason == (
                 if sig.kind == FlatKind then "no_signal"
                 else if !q.manual && !q.inSession then "outside_session"
                 else if CountOurs(q.positions, cfg.magic) >= cfg.maxPositions then "max_positions"
                 else if cfg.maxTradesPerDay > 0 && snap.trades >= cfg.maxTradesPerDay then "max_trades_per_day"
                 else if exists i :: 0 <= i < |q.positions| && q.positions[i].magic == cfg.magic
                                     && q.positions[i].symbol == sig.symbol then "already_in_symbol"
                 else if exists code: string :: Touched(q.positions, cfg.magic, q.pair, sig.symbol, code) &&
                           Abs((NetHeld(q.positions, cfg.magic, q.pair, code)
                                + Adds(q.pair(sig.symbol), sig.kind == BuyKind, code)) as real)
                           > cfg.maxCurrencyExposure as real then "currency_exposure"
                 else if sig.sl <= 0.0 || sig.entry == sig.sl then "sl_required"
                 else if Abs(sig.tp - sig.entry) < Times(cfg.minRR - 0.000000001, risk) then "rr_below_min"
                 else if !q.specMeasured then "spec_not_measured"
                 else if risk < q.spec.stopsLevel as real * q.spec.point then "stops_level"
                 else if sig.atr > 0.0 && spread > Times(cfg.maxSpreadAtrFrac, sig.atr) then "spread_too_wide"
                 else if q.spec.point > 0.0 && spread > 0.0
                         && Times(q.deviation + 0.000000001, q.spec.point) < Times(cfg.minDeviationSpreadMultiple, spread)
                 then "deviation_below_spread"
                 else if a.equity > 0.0 && a.margin > 0.0 && a.marginFree < Times(cfg.minFreeMarginPct, a.equity)
                 then "margin_buffer"
                 else if lots <= 0.0 then "size_zero"
                 else if worst > a.equity * cfg.riskPct * cfg.maxRiskMultiple + 0.000000001
                         || worst > dayRoom + 0.000000001 || (snap.peak > 0.0 && worst > peakRoom + 0.000000001)
                 then "size_exceeds_risk"
                 else "ok")
            && (d.allowed <==> d.reason == "ok") && (d.allowed ==> d.volume == lots)
            && !d.halt && !d.flatten
  {
    hide Observed, PreGate, PastLimit, NetHeld, Adds, Touched, CountOurs, LotsForRisk, MoneyPerLot, EquityHalt, Times;
    var o := Observed(r, a, day, time, end);
    CircuitAllows(cfg, o, a);
    PreGateExactly(cfg, o.snap, a, q);
    PastLimitIs(cfg, q);
    NoReasonIsOk(cfg, o.snap, a, q);
  }

  lemma PastLimitIs(cfg: Config, q: Proposal)
    ensures PastLimit(cfg, q) <==>
            exists code: string :: Touched(q.positions, cfg.magic, q.pair, q.sig.symbol, code) &&
              Abs((NetHeld(q.positions, cfg.magic, q.pair, code) + Adds(q.pair(q.sig.symbol), q.sig.kind == BuyKind, code)) as real)
              > cfg.maxCurrencyExposure as real
  {
    hide Touched, NetHeld, Adds;
  }

  lemma NoReasonIsOk(cfg: Config, snap: Snapshot, a: Account, q: Proposal)
    ensures FirstFailing(cfg, snap, a, q) != "ok"
  {
    hide PastLimit, Times;
  }

  // ----- what holds a halt -------------------------------------------------------------------

  /** The operator's clearing removes the HALT file and every halt but those that hold
      without it: a damaged or unwritten state file, a daily loss, a drawdown. */
  lemma ClearsExactly(cfg: Config, r: State)
    ensures var c, s := OperatorCleared(cfg, r), r.snap;
            var dayLoss := s.dayStart - s.equity >= s.dayStart * cfg.dailyLossPct;
            var drawdown := s.peak > 0.0 && s.peak - s.equity >= s.peak * cfg.maxDrawdownPct;
            && !c.haltFile && c.snap == r.snap && c.integrity == r.integrity && c.disk == r.disk
            && (c.halted <==> r.integrity != "" || dayLoss || drawdown)
            && c.reason == (if r.integrity != "" then r.integrity else if dayLoss then "daily_loss"
                            else if drawdown then "max_drawdown" else "")
  {
  }

  /** What may lift a halt: the operator, or a new day when the reason is the daily loss. */
  predicate MayLift(r: State, op: Op) {
    op.ClearHalt? || ((op.Observe? || op.Circuit?) && op.day != r.snap.day && r.reason == "daily_loss")
  }

  /** No step on the way may lift the halt in force. */
  predicate NothingLifts(cfg: Config, r: State, ops: seq<Op>)
    decreases |ops|
  {
    ops == [] || (!MayLift(r, ops[0]) && NothingLifts(cfg, Done(cfg, r, ops[0]), ops[1..]))
  }

  lemma HaltStep(cfg: Config, r: State, op: Op)
    requires r.halted && !MayLift(r, op)
    ensures Done(cfg, r, op).halted && !Allows(cfg, r, op)
  {
    hide Save;
  }

  /** A halt holds, and the circuit stays closed, over every sequence of steps in which
      nothing may lift it, restored quotes and a removed HALT file notwithstanding. */
  lemma {:induction false} HaltHolds(cfg: Config, r: State, ops: seq<Op>)
    requires r.halted && NothingLifts(cfg, r, ops)
    ensures AfterOps(cfg, r, ops).halted && !EverAllows(cfg, r, ops)
    decreases |ops|
  {
    hide Done, Allows, MayLift;
    if ops != [] {
      HaltStep(cfg, r, ops[0]);
      HaltHolds(cfg, Done(cfg, r, ops[0]), ops[1..]);
    }
  }

  /** A drawdown halt is one that no day lifts. */
  lemma {:induction false} DrawdownHolds(cfg: Config, r: State, ops: seq<Op>)
    requires r.halted && r.reason != "daily_loss" && forall i :: 0 <= i < |ops| ==> !ops[i].ClearHalt?
    ensures AfterOps(cfg, r, ops).halted && !EverAllows(cfg, r, ops)
    decreases |ops|
  {
    hide Done, Allows;
    if ops != [] {
      HaltStep(cfg, r, ops[0]);
      ReasonStays(cfg, r, ops[0]);
      DrawdownHolds(cfg, Done(cfg, r, ops[0]), ops[1..]);
    }
  }

  lemma ReasonStays(cfg: Config, r: State, op: Op)
    requires r.halted && r.reason != "daily_loss" && !op.ClearHalt?
    ensures Done(cfg, r, op).reason != "daily_loss"
  {
    hide Save;
    NamesDiffer();
    if op.Observe? || op.Circuit? {
      ObservedReasonStays(r, op.a, op.day, op.time, op.end);
      hide Observed;
    }
  }

  lemma ObservedReasonStays(r: State, a: Account, day: string, time: int, end: SaveEnd)
    requires r.halted && r.reason != "daily_loss"
    ensures Observed(r, a, day, time, end).halted && Observed(r, a, day, time, end).reason != "daily_loss"
  {
    hide Save;
    NamesDiffer();
  }
}
