/** risk.py: the account-level state machine (daily loss, drawdown, HALT file, state
    integrity, daily caps) and the last gate before a send. Whether a write of the
    snapshot file succeeds is an input of every step that may write. */
module Risk {
  import opened Wrappers
  import opened Market
  import opened Confirm
  import opened Sizing
  import opened StateFile

  datatype Account = Account(
    balance: real, equity: real, margin: real, marginFree: real, tradeAllowed: bool, tradeExpert: bool, realMoney: bool)

  datatype Config = Config(
    riskPct: real, dailyLossPct: real, maxDrawdownPct: real, maxPositions: nat, maxCurrencyExposure: int,
    minRR: real, maxSpreadAtrFrac: real, minFreeMarginPct: real, magic: int, maxRiskMultiple: real,
    minDeviationSpreadMultiple: real, maxTradesPerDay: nat, liveMode: bool, liveAccepted: bool, initialBalance: real)
  {
    /** `BotConfig.validate`. */
    predicate Valid() {
      && 0.0 < riskPct <= 0.05 && 0.0 < dailyLossPct <= 0.2 && 0.0 < maxDrawdownPct <= 0.5
      && maxPositions >= 1 && minDeviationSpreadMultiple >= 1.0
    }
  }

  datatype Decision = Decision(allowed: bool, reason: string, volume: real, halt: bool, flatten: bool)

  function Refuse(reason: string): Decision { Decision(false, reason, 0.0, false, false) }
  function Halting(reason: string): Decision { Decision(false, reason, 0.0, true, true) }

  /** The manager's memory, the snapshot file and whether the HALT file is there. */
  datatype State = State(
    snap: Snapshot, halted: bool, reason: string, integrity: string, disk: Content, haltFile: bool)

  const UNREADABLE := "state_unreadable"
  const UNWRITABLE := "state_unwritable"

  // ----- the state machine, on values ------------------------------------------------

  function Fresh(cfg: Config): Snapshot {
    Snapshot(0, cfg.initialBalance, cfg.initialBalance, cfg.initialBalance, cfg.initialBalance, "", 0, 0)
  }

  /** A process start on what the last one left on disk. */
  function Started(cfg: Config, disk: Content, haltFile: bool): State {
    match Load(disk)
    case Err(_) => State(Fresh(cfg), true, UNREADABLE, UNREADABLE, disk, haltFile)
    case Ok(s) => State(if s.Some? then s.value else Fresh(cfg), false, "", "", disk, haltFile)
  }

  /** `_persist_state`: an unreadable file is never overwritten, and a failed write
      is a halt of its own unless some halt is already in force. */
  function Persisted(r: State, end: SaveEnd): State {
    if r.integrity == UNREADABLE then r
    else
      var r1 := if end.Unsaved? then r else r.(disk := Save(r.snap));
      if end.Saved? then r1
      else if r.halted then r1.(integrity := UNWRITABLE)
      else r1.(integrity := UNWRITABLE, halted := true, reason := UNWRITABLE)
  }

  function Durable(s: Snapshot): (string, real, real, nat, nat) {
    (s.day, s.dayStart, s.peak, s.trades, s.advice)
  }

  /** The new day's budget, and the one halt a new day clears. */
  function Rolled(r: State, equity: real, day: string): State {
    if r.snap.day == day then r
    else
      var r1 := r.(snap := r.snap.(dayStart := equity, day := day, trades := 0, advice := 0));
      if r.reason == "daily_loss" then r1.(halted := false, reason := "") else r1
  }

  function Marked(r: State, a: Account, time: int): State {
    r.(snap := r.snap.(time := time, balance := a.balance, equity := a.equity,
                       peak := if a.equity > r.snap.peak then a.equity else r.snap.peak))
  }

  function Observed(r: State, a: Account, day: string, time: int, end: SaveEnd): State {
    var r1 := Marked(Rolled(r, a.equity, day), a, time);
    if Durable(r1.snap) != Durable(r.snap) then Persisted(r1, end) else r1
  }

  function Traded(r: State, end: SaveEnd): State {
    Persisted(r.(snap := r.snap.(trades := r.snap.trades + 1)), end)
  }

  function Advised(r: State, end: SaveEnd): State {
    Persisted(r.(snap := r.snap.(advice := r.snap.advice + 1)), end)
  }

  /** The two equity halts, from a snapshot and an equity. */
  function EquityHalt(cfg: Config, s: Snapshot, equity: real): string {
    if s.dayStart - equity >= s.dayStart * cfg.dailyLossPct then "daily_loss"
    else if s.peak > 0.0 && s.peak - equity >= s.peak * cfg.maxDrawdownPct then "max_drawdown"
    else ""
  }

  /** `circuit` once the account has been observed. */
  function Tripped(cfg: Config, r: State, a: Account): (State, Decision) {
    if r.haltFile then (r.(halted := true, reason := "halt_file"), Halting("halt_file"))
    else if r.halted then (r, Halting(r.reason))
    else if !a.tradeAllowed || !a.tradeExpert then (r, Refuse("trade_not_allowed"))
    else if cfg.liveMode && a.realMoney && !cfg.liveAccepted then (r, Refuse("live_not_accepted"))
    else
      var why := EquityHalt(cfg, r.snap, a.equity);
      if why != "" then (r.(halted := true, reason := why), Halting(why))
      else (r, Decision(true, "ok", 0.0, false, false))
  }

  /** `circuit_reason` once the account has been observed: it reports and trips nothing. */
  function Why(cfg: Config, r: State, a: Account): string {
    if r.haltFile then "halt_file"
    else if r.halted then (if r.reason != "" then r.reason else "halted")
    else if !a.tradeAllowed || !a.tradeExpert then "trade_not_allowed"
    else if cfg.liveMode && a.realMoney && !cfg.liveAccepted then "live_not_accepted"
    else EquityHalt(cfg, r.snap, a.equity)
  }

  /** The report and the gate agree on every state. */
  lemma ReasonAgreesWithCircuit(cfg: Config, r: State, a: Account)
    ensures Why(cfg, r, a) == "" <==> Tripped(cfg, r, a).1.allowed
    ensures Why(cfg, r, a) != "" && !(r.halted && r.reason == "") ==> Tripped(cfg, r, a).1.reason == Why(cfg, r, a)
  {
  }

  function Circuit(cfg: Config, r: State, a: Account, day: string, time: int, end: SaveEnd): (State, Decision) {
    Tripped(cfg, Observed(r, a, day, time, end), a)
  }

  /** `clear_operator_halt`: what is true without the HALT file stays in force. */
  function OperatorCleared(cfg: Config, r: State): State {
    var r1 := r.(haltFile := false);
    if r.integrity != "" then r1.(halted := true, reason := r.integrity)
    else
      var why := EquityHalt(cfg, r.snap, r.snap.equity);
      if why != "" then r1.(halted := true, reason := why) else r1.(halted := false, reason := "")
  }

  /** Money the account may still lose before an equity halt. */
  function LossRoom(cfg: Config, s: Snapshot, equity: real): real {
    var room := s.dayStart * cfg.dailyLossPct - (s.dayStart - equity);
    if s.peak > 0.0 then Min(room, s.peak * cfg.maxDrawdownPct - (s.peak - equity)) else room
  }

  /** Room is left exactly while no equity halt is due. */
  lemma RoomIffClear(cfg: Config, s: Snapshot, equity: real)
    ensures LossRoom(cfg, s, equity) > 0.0 <==> EquityHalt(cfg, s, equity) == ""
  {
  }

  // ----- currency exposure -----------------------------------------------------------

  /** Buying a pair is one unit of the base against one unit of the quote. */
  function Leg(pair: (string, string), side: Side, code: string): int {
    var sign := if side == Buy then 1 else -1;
    (if pair.0 == code then sign else 0) - (if pair.1 == code then sign else 0)
  }

  function CountOf(m: map<string, int>, code: string): int { if code in m then m[code] else 0 }

  function WithLeg(m: map<string, int>, pair: (string, string), side: Side): map<string, int> {
    var sign := if side == Buy then 1 else -1;
    var m1 := m[pair.0 := CountOf(m, pair.0) + sign];
    m1[pair.1 := CountOf(m1, pair.1) - sign]
  }

  /** `currency_exposure`: the running net count per code. */
  method CurrencyExposure(legs: seq<((string, string), Side)>) returns (counts: map<string, int>)
    ensures counts == Exposure(legs)
  {
    counts := map[];
    var i := 0;
    while i < |legs|
      invariant 0 <= i <= |legs| && counts == Exposure(legs[..i])
    {
      assert legs[..i + 1][..i] == legs[..i];
      counts := WithLeg(counts, legs[i].0, legs[i].1);
      i := i + 1;
    }
    assert legs[..i] == legs;
  }

  function Exposure(legs: seq<((string, string), Side)>): map<string, int> {
    if legs == [] then map[]
    else WithLeg(Exposure(legs[..|legs| - 1]), legs[|legs| - 1].0, legs[|legs| - 1].1)
  }

  function Net(legs: seq<((string, string), Side)>, code: string): int {
    if legs == [] then 0 else Net(legs[..|legs| - 1], code) + Leg(legs[|legs| - 1].0, legs[|legs| - 1].1, code)
  }

  /** Each bucket holds the sum of the legs in its currency. */
  lemma {:induction false} ExposureIsNet(legs: seq<((string, string), Side)>, code: string)
    ensures CountOf(Exposure(legs), code) == Net(legs, code)
  {
    if legs != [] {
      ExposureIsNet(legs[..|legs| - 1], code);
    }
  }

  // ----- the gates of evaluate -----------------------------------------------------------

  /** `pair` is the resolver's answer per symbol, `deviation` the configured points,
      `specMeasured` whether every field the sizer reads was a measurement. */
  datatype Proposal = Proposal(
    sig: Signal, spec: Spec, specMeasured: bool, tick: Tick, positions: seq<Position>, manual: bool, inSession: bool,
    deviation: real, pair: string -> Option<(string, string)>)

  function Ours(cfg: Config, positions: seq<Position>): seq<Position> {
    if positions == [] then []
    else
      var front, p := Ours(cfg, positions[..|positions| - 1]), positions[|positions| - 1];
      if p.magic == cfg.magic then front + [p] else front
  }

  /** The pairs among our positions; anything else is excluded from the limit. */
  function Legs(ours: seq<Position>, pair: string -> Option<(string, string)>): seq<((string, string), Side)> {
    if ours == [] then []
    else
      var front, p := Legs(ours[..|ours| - 1], pair), ours[|ours| - 1];
      if pair(p.symbol).Some? then front + [(pair(p.symbol).value, p.side)] else front
  }

  function SideOf(k: Kind): Side { if k == BuyKind then Buy else Sell }

  function AllLegs(cfg: Config, q: Proposal): seq<((string, string), Side)> {
    var held := Legs(Ours(cfg, q.positions), q.pair);
    if q.pair(q.sig.symbol).Some? then held + [(q.pair(q.sig.symbol).value, SideOf(q.sig.kind))] else held
  }

  predicate Overexposed(cfg: Config, m: map<string, int>) {
    exists c :: c in m && (m[c] > cfg.maxCurrencyExposure || -m[c] > cfg.maxCurrencyExposure)
  }

  function SignalRisk(s: Signal): real { Abs(s.entry - s.sl) }
  function RewardRisk(s: Signal): real {
    if SignalRisk(s) <= 0.0 then 0.0 else Over(Abs(s.tp - s.entry), SignalRisk(s))
  }

  function Points(spec: Spec, distance: real): real {
    if spec.point <= 0.0 then 0.0 else Over(distance, spec.point)
  }

  /** The gates before sizing, in the order of the source; "" is a pass. */
  function PreGate(cfg: Config, snap: Snapshot, a: Account, q: Proposal): string {
    var ours := Ours(cfg, q.positions);
    var spread := q.tick.ask - q.tick.bid;
    if q.sig.kind == FlatKind then "no_signal"
    else if !q.manual && !q.inSession then "outside_session"
    else if |ours| >= cfg.maxPositions then "max_positions"
    else if cfg.maxTradesPerDay != 0 && snap.trades >= cfg.maxTradesPerDay then "max_trades_per_day"
    else if exists i :: 0 <= i < |ours| && ours[i].symbol == q.sig.symbol then "already_in_symbol"
    else if Overexposed(cfg, Exposure(AllLegs(cfg, q))) then "currency_exposure"
    else if q.sig.sl <= 0.0 || SignalRisk(q.sig) <= 0.0 then "sl_required"
    else if RewardRisk(q.sig) + MONEY_EPS < cfg.minRR then "rr_below_min"
    else if !q.specMeasured then "spec_not_measured"
    else if SignalRisk(q.sig) < q.spec.MinStopDistance() then "stops_level"
    else if q.sig.atr > 0.0 && spread > Times(cfg.maxSpreadAtrFrac, q.sig.atr) then "spread_too_wide"
    else if Points(q.spec, spread) > 0.0
            && q.deviation < Times(cfg.minDeviationSpreadMultiple, Points(q.spec, spread)) - MONEY_EPS
    then "deviation_below_spread"
    else if a.equity > 0.0 && a.margin > 0.0 && Over(a.marginFree, a.equity) < cfg.minFreeMarginPct then "margin_buffer"
    else ""
  }

  function Lots(cfg: Config, a: Account, q: Proposal): real {
    LotsForRisk(a.equity, cfg.riskPct, q.sig.entry, q.sig.sl, q.spec, cfg.maxRiskMultiple)
  }

  /** What a full stop-out on the volume would cost. */
  function StopOut(q: Proposal, lots: real): real {
    MoneyPerLot(q.sig.entry, q.sig.sl, q.spec) * lots
  }

  /** Everything after the circuit. */
  function Gate(cfg: Config, snap: Snapshot, a: Account, q: Proposal): Decision {
    var pre := PreGate(cfg, snap, a, q);
    var lots := Lots(cfg, a, q);
    if pre != "" then Refuse(pre)
    else if lots <= 0.0 then Refuse("size_zero")
    else if StopOut(q, lots) > Min(a.equity * cfg.riskPct * cfg.maxRiskMultiple, LossRoom(cfg, snap, a.equity)) + MONEY_EPS
    then Refuse("size_exceeds_risk")
    else Decision(true, "ok", lots, false, false)
  }

  function Evaluated(cfg: Config, r: State, a: Account, day: string, time: int, end: SaveEnd, q: Proposal): (State, Decision) {
    var (r1, trip) := Circuit(cfg, r, a, day, time, end);
    if !trip.allowed then (r1, trip) else (r1, Gate(cfg, r1.snap, a, q))
  }

  /** What passing the gates means for the sizes. */
  lemma GateAllows(cfg: Config, snap: Snapshot, a: Account, q: Proposal)
    requires Gate(cfg, snap, a, q).allowed
    ensures var lots := Gate(cfg, snap, a, q).volume;
            && lots == Lots(cfg, a, q) && lots > 0.0
            && StopOut(q, lots) <= LossRoom(cfg, snap, a.equity) + MONEY_EPS
            && PreGate(cfg, snap, a, q) == ""
  {
    hide PreGate, Lots, StopOut, LossRoom;
  }

  lemma PreGatePasses(cfg: Config, snap: Snapshot, a: Account, q: Proposal)
    requires PreGate(cfg, snap, a, q) == ""
    ensures !Overexposed(cfg, Exposure(AllLegs(cfg, q)))
    ensures cfg.maxTradesPerDay > 0 ==> snap.trades < cfg.maxTradesPerDay
  {
    hide Exposure, AllLegs, Overexposed, Ours, RewardRisk, Points;
  }

  lemma CircuitAllows(cfg: Config, r: State, a: Account)
    requires Tripped(cfg, r, a).1.allowed
    ensures Tripped(cfg, r, a).0 == r && !r.halted && !r.haltFile && EquityHalt(cfg, r.snap, a.equity) == ""
  {
  }

  /** Every allowed decision: a positive volume within the venue's limits, whose full
      stop-out leaves the equity at or above both floors (within 1e-9), on a day whose
      cap is not used up, with no currency netting past the limit. */
  lemma AllowedIsSafe(cfg: Config, r: State, a: Account, day: string, time: int, end: SaveEnd, q: Proposal, code: string)
    requires cfg.maxCurrencyExposure >= 0
    ensures var (r1, d) := Evaluated(cfg, r, a, day, time, end, q);
            d.allowed ==>
              && d.volume > 0.0 && d.volume <= q.spec.volumeMax
              && a.equity - StopOut(q, d.volume) >= r1.snap.dayStart * (1.0 - cfg.dailyLossPct) - MONEY_EPS
              && (r1.snap.peak > 0.0 ==>
                    a.equity - StopOut(q, d.volume) >= r1.snap.peak * (1.0 - cfg.maxDrawdownPct) - MONEY_EPS)
              && (cfg.maxTradesPerDay > 0 ==> r1.snap.trades < cfg.maxTradesPerDay)
              && -cfg.maxCurrencyExposure <= Net(AllLegs(cfg, q), code) <= cfg.maxCurrencyExposure
              && !r1.halted && !r1.haltFile && LossRoom(cfg, r1.snap, a.equity) > 0.0
  {
    hide Gate, PreGate, Lots, StopOut, LossRoom, AllLegs, Net, Tripped, Observed, EquityHalt;
    var r0 := Observed(r, a, day, time, end);
    var (r1, d) := Evaluated(cfg, r, a, day, time, end, q);
    if d.allowed {
      CircuitAllows(cfg, r0, a);
      GateAllows(cfg, r1.snap, a, q);
      PreGatePasses(cfg, r1.snap, a, q);
      LotsAreWithinLimits(cfg, a, q);
      RoomIffClear(cfg, r1.snap, a.equity);
      RoomCoversFloors(cfg, r1.snap, a.equity, StopOut(q, d.volume));
      NotOverexposed(cfg, q, code);
    }
  }

  lemma LotsAreWithinLimits(cfg: Config, a: Account, q: Proposal)
    ensures Lots(cfg, a, q) > 0.0 ==>
              && Lots(cfg, a, q) <= q.spec.volumeMax
              && StopOut(q, Lots(cfg, a, q)) <= a.equity * cfg.riskPct * cfg.maxRiskMultiple + MONEY_EPS
  {
    hide LotsForRisk, MoneyPerLot;
    LotsWithinBudget(a.equity, cfg.riskPct, q.sig.entry, q.sig.sl, q.spec, cfg.maxRiskMultiple);
  }

  lemma NotOverexposed(cfg: Config, q: Proposal, code: string)
    requires cfg.maxCurrencyExposure >= 0 && !Overexposed(cfg, Exposure(AllLegs(cfg, q)))
    ensures -cfg.maxCurrencyExposure <= Net(AllLegs(cfg, q), code) <= cfg.maxCurrencyExposure
  {
    ExposureIsNet(AllLegs(cfg, q), code);
  }

  lemma RoomCoversFloors(cfg: Config, s: Snapshot, equity: real, worst: real)
    requires worst <= LossRoom(cfg, s, equity) + MONEY_EPS
    ensures equity - worst >= s.dayStart * (1.0 - cfg.dailyLossPct) - MONEY_EPS
    ensures s.peak > 0.0 ==> equity - worst >= s.peak * (1.0 - cfg.maxDrawdownPct) - MONEY_EPS
  {
    assert s.dayStart * (1.0 - cfg.dailyLossPct) == s.dayStart - s.dayStart * cfg.dailyLossPct;
    assert s.peak * (1.0 - cfg.maxDrawdownPct) == s.peak - s.peak * cfg.maxDrawdownPct;
  }

  // ----- what an allowed order leaves on the book --------------------------------------

  predicate OnePerSymbol(ps: seq<Position>) {
    forall i, j :: 0 <= i < j < |ps| ==> ps[i].symbol != ps[j].symbol
  }

  /** The limits on our own positions. */
  predicate WithinLimits(cfg: Config, ours: seq<Position>) {
    |ours| <= cfg.maxPositions && OnePerSymbol(ours)
  }

  lemma PreGateBook(cfg: Config, snap: Snapshot, a: Account, q: Proposal)
    requires PreGate(cfg, snap, a, q) == ""
    ensures var ours := Ours(cfg, q.positions);
            && |ours| < cfg.maxPositions && (forall i :: 0 <= i < |ours| ==> ours[i].symbol != q.sig.symbol)
            && q.sig.kind != FlatKind && !Overexposed(cfg, Exposure(AllLegs(cfg, q)))
  {
    hide Exposure, AllLegs, Overexposed, Ours, RewardRisk, Points;
  }

  /** The position of an allowed order keeps the book within its limits: no more of
      ours than the maximum, one per symbol, and no currency past its net limit. */
  lemma OpenedStaysWithinLimits(cfg: Config, snap: Snapshot, a: Account, q: Proposal, p: Position, code: string)
    requires cfg.maxCurrencyExposure >= 0 && Gate(cfg, snap, a, q).allowed
    requires OnePerSymbol(Ours(cfg, q.positions))
    requires p.magic == cfg.magic && p.symbol == q.sig.symbol && p.side == SideOf(q.sig.kind)
    ensures var ours := Ours(cfg, q.positions + [p]);
            && WithinLimits(cfg, ours)
            && -cfg.maxCurrencyExposure <= Net(Legs(ours, q.pair), code) <= cfg.maxCurrencyExposure
  {
    hide PreGate, Gate;
    GateAllows(cfg, snap, a, q);
    PreGateBook(cfg, snap, a, q);
    NotOverexposed(cfg, q, code);
    var held := Ours(cfg, q.positions);
    assert (q.positions + [p])[..|q.positions|] == q.positions;
    assert (held + [p])[..|held|] == held;
    assert Ours(cfg, q.positions + [p]) == held + [p];
    assert Legs(held + [p], q.pair) == AllLegs(cfg, q);
  }

  lemma PreGateMarket(cfg: Config, snap: Snapshot, a: Account, q: Proposal)
    requires PreGate(cfg, snap, a, q) == ""
    ensures q.sig.sl > 0.0 && SignalRisk(q.sig) > 0.0 && SignalRisk(q.sig) >= q.spec.MinStopDistance()
    ensures RewardRisk(q.sig) + MONEY_EPS >= cfg.minRR && (q.manual || q.inSession) && q.specMeasured
    ensures q.sig.atr > 0.0 ==> q.tick.ask - q.tick.bid <= Times(cfg.maxSpreadAtrFrac, q.sig.atr)
    ensures a.equity > 0.0 && a.margin > 0.0 ==> Over(a.marginFree, a.equity) >= cfg.minFreeMarginPct
    ensures Points(q.spec, q.tick.ask - q.tick.bid) > 0.0 ==>
              q.deviation >= Times(cfg.minDeviationSpreadMultiple, Points(q.spec, q.tick.ask - q.tick.bid)) - MONEY_EPS
  {
    hide Exposure, AllLegs, Overexposed, Ours, RewardRisk, Points;
  }

  /** The market an allowed order goes into: a real stop at the venue's distance, a
      reward worth its risk, a spread within its share of the ATR, a slippage tolerance
      of at least the demanded number of spreads, and a margin buffer. */
  lemma AllowedMeetsMarketGates(cfg: Config, snap: Snapshot, a: Account, q: Proposal)
    requires Gate(cfg, snap, a, q).allowed
    ensures var risk, spread := Abs(q.sig.entry - q.sig.sl), q.tick.ask - q.tick.bid;
            && q.sig.sl > 0.0 && risk > 0.0 && risk >= q.spec.MinStopDistance()
            && Abs(q.sig.tp - q.sig.entry) >= Times(cfg.minRR - MONEY_EPS, risk)
            && (q.sig.atr > 0.0 ==> spread <= Times(cfg.maxSpreadAtrFrac, q.sig.atr))
            && (spread > 0.0 && q.spec.point > 0.0 ==>
                  Times(q.deviation + MONEY_EPS, q.spec.point) >= Times(cfg.minDeviationSpreadMultiple, spread))
            && (a.equity > 0.0 && a.margin > 0.0 ==> a.marginFree >= Times(cfg.minFreeMarginPct, a.equity))
  {
    hide PreGate, Gate, RewardRisk, Points, Times, Over;
    GateAllows(cfg, snap, a, q);
    PreGateMarket(cfg, snap, a, q);
    RewardCovered(cfg, q.sig);
    DeviationCovered(cfg, q);
    MarginCovered(cfg, a);
  }

  lemma RewardCovered(cfg: Config, s: Signal)
    requires SignalRisk(s) > 0.0 && RewardRisk(s) + MONEY_EPS >= cfg.minRR
    ensures Abs(s.tp - s.entry) >= Times(cfg.minRR - MONEY_EPS, Abs(s.entry - s.sl))
  {
    hide Times, Over;
    OverTimes(Abs(s.tp - s.entry), SignalRisk(s));
    TimesMonotone(cfg.minRR - MONEY_EPS, RewardRisk(s), SignalRisk(s));
  }

  lemma MarginCovered(cfg: Config, a: Account)
    requires a.equity > 0.0 && a.margin > 0.0 ==> Over(a.marginFree, a.equity) >= cfg.minFreeMarginPct
    ensures a.equity > 0.0 && a.margin > 0.0 ==> a.marginFree >= Times(cfg.minFreeMarginPct, a.equity)
  {
    hide Times, Over;
    if a.equity > 0.0 && a.margin > 0.0 {
      OverTimes(a.marginFree, a.equity);
      TimesMonotone(cfg.minFreeMarginPct, Over(a.marginFree, a.equity), a.equity);
    }
  }

  lemma DeviationCovered(cfg: Config, q: Proposal)
    requires Points(q.spec, q.tick.ask - q.tick.bid) > 0.0 ==>
               q.deviation >= Times(cfg.minDeviationSpreadMultiple, Points(q.spec, q.tick.ask - q.tick.bid)) - MONEY_EPS
    ensures q.tick.ask - q.tick.bid > 0.0 && q.spec.point > 0.0 ==>
              Times(q.deviation + MONEY_EPS, q.spec.point)
              >= Times(cfg.minDeviationSpreadMultiple, q.tick.ask - q.tick.bid)
  {
    hide Times, Over;
    var spread, point, multiple := q.tick.ask - q.tick.bid, q.spec.point, cfg.minDeviationSpreadMultiple;
    if spread > 0.0 && point > 0.0 {
      var points := Over(spread, point);
      OverTimes(spread, point);
      OverSign(spread, point);
      TimesAssociate(multiple, points, point);
      TimesMonotone(Times(multiple, points), q.deviation + MONEY_EPS, point);
    }
  }

  /** The last-line refusal can only come from the loss room: the sizer has already
      kept the per-trade half, whatever the spec says. */
  lemma SizeExceedsOnlyByRoom(cfg: Config, snap: Snapshot, a: Account, q: Proposal)
    ensures Gate(cfg, snap, a, q).reason == "size_exceeds_risk" ==>
              var worst := StopOut(q, Lots(cfg, a, q));
              worst > LossRoom(cfg, snap, a.equity) + MONEY_EPS
              && worst <= a.equity * cfg.riskPct * cfg.maxRiskMultiple + MONEY_EPS
  {
    hide Lots, StopOut, LossRoom;
    LotsAreWithinLimits(cfg, a, q);
    PreGateNames(cfg, snap, a, q);
    DistinctNames();
  }

  lemma DistinctNames()
    ensures "size_zero" != "size_exceeds_risk" && "ok" != "size_exceeds_risk"
  {
    assert |"size_zero"| == 9 && |"ok"| == 2 && |"size_exceeds_risk"| == 17;
  }

  lemma PreGateNames(cfg: Config, snap: Snapshot, a: Account, q: Proposal)
    ensures PreGate(cfg, snap, a, q) != "size_exceeds_risk"
  {
    hide Exposure, AllLegs, Overexposed, Ours, RewardRisk, Points;
    assert |"size_exceeds_risk"| == 17 && "size_exceeds_risk"[0] == 's';
    var p := PreGate(cfg, snap, a, q);
    assert |p| != 17 || p[0] != 's' || p[1] != 'i';
  }
}
