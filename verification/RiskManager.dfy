/** The manager object of risk.py. Its fields, the snapshot file and the HALT file
    together are the `State` of the Risk module; each method is tied to the step
    function of the same step. */
module RiskManager {
  import opened StateFile
  import opened Risk

  class RiskManager {
    const cfg: Config
    var snapshot: Snapshot
    var halted: bool
    var haltReason: string
    var stateIntegrityReason: string
    var stateFile: Content       // on disk
    var haltFile: bool           // on disk

    function St(): State
      reads this
    {
      State(snapshot, halted, haltReason, stateIntegrityReason, stateFile, haltFile)
    }

    /** `_restore_state`: absent is a clean start, unreadable is closed. */
    constructor (cfg: Config, stateFile: Content, haltFile: bool)
      ensures this.cfg == cfg && St() == Started(cfg, stateFile, haltFile)
    {
      this.cfg, this.stateFile, this.haltFile := cfg, stateFile, haltFile;
      snapshot, halted, haltReason, stateIntegrityReason := Fresh(cfg), false, "", "";
      new;
      var restored := Load(stateFile);
      if restored.Err? {
        halted, haltReason, stateIntegrityReason := true, UNREADABLE, UNREADABLE;
      } else if restored.value.Some? {
        snapshot := restored.value.value;
      }
    }

    method PersistState(end: SaveEnd)
      modifies this`stateFile, this`stateIntegrityReason, this`halted, this`haltReason
      ensures St() == Persisted(old(St()), end)
    {
      if stateIntegrityReason == UNREADABLE {
        return;
      }
      if !end.Unsaved? {
        stateFile := Save(snapshot);
      }
      if !end.Saved? {
        stateIntegrityReason := UNWRITABLE;
        if !halted {
          halted, haltReason := true, UNWRITABLE;
        }
      }
    }

    method Observe(a: Account, day: string, time: int, end: SaveEnd)
      modifies this
      ensures St() == Observed(old(St()), a, day, time, end)
    {
      hide Save, Persisted;
      var before := Durable(snapshot);
      if snapshot.day != day {
        snapshot := snapshot.(dayStart := a.equity, day := day, trades := 0, advice := 0);
        if haltReason == "daily_loss" {
          halted, haltReason := false, "";
        }
      }
      snapshot := snapshot.(time := time, balance := a.balance, equity := a.equity);
      if a.equity > snapshot.peak {
        snapshot := snapshot.(peak := a.equity);
      }
      if Durable(snapshot) != before {
        PersistState(end);
      }
    }

    method RecordTrade(end: SaveEnd)
      modifies this
      ensures St() == Traded(old(St()), end)
    {
      snapshot := snapshot.(trades := snapshot.trades + 1);
      PersistState(end);
    }

    method RecordAdviceTurn(end: SaveEnd)
      modifies this
      ensures St() == Advised(old(St()), end)
    {
      snapshot := snapshot.(advice := snapshot.advice + 1);
      PersistState(end);
    }

    method Halt(reason: string) returns (d: Decision)
      modifies this`halted, this`haltReason
      ensures halted && haltReason == reason && d == Halting(reason)
    {
      halted, haltReason := true, reason;
      d := Halting(reason);
    }

    method Circuit(a: Account, day: string, time: int, end: SaveEnd) returns (d: Decision)
      modifies this
      ensures (St(), d) == Risk.Circuit(cfg, old(St()), a, day, time, end)
    {
      Observe(a, day, time, end);
      if haltFile {
        d := Halt("halt_file");
        return;
      }
      if halted {
        return Halting(haltReason);
      }
      if !a.tradeAllowed || !a.tradeExpert {
        return Refuse("trade_not_allowed");
      }
      if cfg.liveMode && a.realMoney && !cfg.liveAccepted {
        return Refuse("live_not_accepted");
      }
      if snapshot.dayStart - a.equity >= snapshot.dayStart * cfg.dailyLossPct {
        d := Halt("daily_loss");
        return;
      }
      if snapshot.peak > 0.0 && snapshot.peak - a.equity >= snapshot.peak * cfg.maxDrawdownPct {
        d := Halt("max_drawdown");
        return;
      }
      d := Decision(true, "ok", 0.0, false, false);
    }

    method CircuitReason(a: Account, day: string, time: int, end: SaveEnd) returns (why: string)
      modifies this
      ensures St() == Observed(old(St()), a, day, time, end) && why == Why(cfg, St(), a)
    {
      Observe(a, day, time, end);
      if haltFile {
        return "halt_file";
      }
      if halted {
        return if haltReason != "" then haltReason else "halted";
      }
      if !a.tradeAllowed || !a.tradeExpert {
        return "trade_not_allowed";
      }
      if cfg.liveMode && a.realMoney && !cfg.liveAccepted {
        return "live_not_accepted";
      }
      why := EquityHaltReason(a.equity);
    }

    method EquityHaltReason(equity: real) returns (why: string)
      ensures why == EquityHalt(cfg, snapshot, equity)
    {
      if snapshot.dayStart - equity >= snapshot.dayStart * cfg.dailyLossPct {
        return "daily_loss";
      }
      if snapshot.peak > 0.0 && snapshot.peak - equity >= snapshot.peak * cfg.maxDrawdownPct {
        return "max_drawdown";
      }
      why := "";
    }

    /** Removes the HALT file and re-asserts whatever is true without it. */
    method ClearOperatorHalt() returns (left: string)
      modifies this`halted, this`haltReason, this`haltFile
      ensures St() == OperatorCleared(cfg, old(St()))
      ensures left == haltReason && (left == "" <==> !halted)
    {
      haltFile := false;
      if stateIntegrityReason != "" {
        halted, haltReason := true, stateIntegrityReason;
        return stateIntegrityReason;
      }
      var sticky := EquityHaltReason(snapshot.equity);
      if sticky != "" {
        halted, haltReason := true, sticky;
        return sticky;
      }
      halted, haltReason := false, "";
      left := "";
    }

    method RoomForLoss(a: Account) returns (room: real)
      ensures room == LossRoom(cfg, snapshot, a.equity)
    {
      room := snapshot.dayStart * cfg.dailyLossPct - (snapshot.dayStart - a.equity);
      if snapshot.peak > 0.0 {
        var dd := snapshot.peak * cfg.maxDrawdownPct - (snapshot.peak - a.equity);
        room := if dd < room then dd else room;
      }
    }

    /** The circuit first, then the gates, then the size and its two caps. */
    method Evaluate(a: Account, day: string, time: int, end: SaveEnd, q: Proposal) returns (d: Decision)
      modifies this
      ensures (St(), d) == Evaluated(cfg, old(St()), a, day, time, end, q)
    {
      hide PreGate, Lots, StopOut, LossRoom;
      var trip := Circuit(a, day, time, end);
      if !trip.allowed {
        return trip;
      }
      var pre := PreGate(cfg, snapshot, a, q);
      if pre != "" {
        return Refuse(pre);
      }
      var lots := Lots(cfg, a, q);
      if lots <= 0.0 {
        return Refuse("size_zero");
      }
      var worst := StopOut(q, lots);
      var room := RoomForLoss(a);
      var perTrade := a.equity * cfg.riskPct * cfg.maxRiskMultiple;
      if worst > (if room < perTrade then room else perTrade) + 0.000000001 {
        return Refuse("size_exceeds_risk");
      }
      d := Decision(true, "ok", lots, false, false);
    }
  }
}
