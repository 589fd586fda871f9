/** Runs of the risk manager inside one process: what no sequence of steps can undo. */
module RiskRuns {
  import opened Market
  import opened StateFile
  import opened Risk

  // ----- inside one process ---------------------------------------------------------

  /** Everything that can happen to a live manager. `end` is how a save of the
      snapshot would end at that moment. */
  datatype Op =
    | Observe(a: Account, day: string, time: int, end: SaveEnd)   // also circuit_reason
    | Circuit(a: Account, day: string, time: int, end: SaveEnd)   // also evaluate
    | RecordTrade(end: SaveEnd)
    | RecordAdvice(end: SaveEnd)
    | HaltFile(there: bool)
    | ClearHalt

  function Done(cfg: Config, r: State, op: Op): State {
    match op
    case Observe(a, day, time, end) => Observed(r, a, day, time, end)
    case Circuit(a, day, time, end) => Risk.Circuit(cfg, r, a, day, time, end).0
    case RecordTrade(end) => Traded(r, end)
    case RecordAdvice(end) => Advised(r, end)
    case HaltFile(there) => r.(haltFile := there)
    case ClearHalt => OperatorCleared(cfg, r)
  }

  predicate Allows(cfg: Config, r: State, op: Op) {
    op.Circuit? && Risk.Circuit(cfg, r, op.a, op.day, op.time, op.end).1.allowed
  }

  function AfterOps(cfg: Config, r: State, ops: seq<Op>): State
    decreases |ops|
  {
    if ops == [] then r else AfterOps(cfg, Done(cfg, r, ops[0]), ops[1..])
  }

  predicate EverAllows(cfg: Config, r: State, ops: seq<Op>)
    decreases |ops|
  {
    ops != [] && (Allows(cfg, r, ops[0]) || EverAllows(cfg, Done(cfg, r, ops[0]), ops[1..]))
  }

  /** Halted over the state file, and not under the one reason a new day clears. */
  predicate Latched(r: State) {
    r.halted && r.integrity in {UNREADABLE, UNWRITABLE} && r.reason != "daily_loss"
  }

  lemma NamesDiffer()
    ensures UNREADABLE != "daily_loss" && UNWRITABLE != "daily_loss" && "halt_file" != "daily_loss"
    ensures UNREADABLE != UNWRITABLE && UNREADABLE != "" && UNWRITABLE != ""
  {
    assert |UNREADABLE| == 16 && |UNWRITABLE| == 16 && |"daily_loss"| == 10 && |"halt_file"| == 9;
    assert UNREADABLE[8] == 'r' && UNWRITABLE[8] == 'w';
  }

  lemma ObserveKeepsLatch(r: State, a: Account, day: string, time: int, end: SaveEnd)
    requires Latched(r)
    ensures var r1 := Observed(r, a, day, time, end);
            Latched(r1) && (r.integrity == UNREADABLE ==> r1.integrity == UNREADABLE && r1.disk == r.disk)
  {
    NamesDiffer();
  }

  lemma LatchStep(cfg: Config, r: State, op: Op)
    requires Latched(r)
    ensures Latched(Done(cfg, r, op)) && !Allows(cfg, r, op)
    ensures r.integrity == UNREADABLE ==> Done(cfg, r, op).integrity == UNREADABLE && Done(cfg, r, op).disk == r.disk
  {
    NamesDiffer();
    if op.Observe? || op.Circuit? {
      ObserveKeepsLatch(r, op.a, op.day, op.time, op.end);
    }
  }

  lemma {:induction false} LatchedForever(cfg: Config, r: State, ops: seq<Op>)
    requires Latched(r)
    ensures !EverAllows(cfg, r, ops)
    ensures r.integrity == UNREADABLE ==> AfterOps(cfg, r, ops).disk == r.disk
    decreases |ops|
  {
    if ops != [] {
      LatchStep(cfg, r, ops[0]);
      LatchedForever(cfg, Done(cfg, r, ops[0]), ops[1..]);
    }
  }

  /** A start: from a missing file with the configured balance, from a file whose every
      field is sound with what it says, unhalted both; from anything else halted, whatever
      is wrong with the file, and without touching it. */
  lemma StartsExactly(cfg: Config, disk: Content, haltFile: bool)
    ensures var r := Started(cfg, disk, haltFile);
            && (r.halted <==> disk != Missing && !(disk.Object? && Trusted(disk.fields)))
            && (r.halted ==> r.reason == UNREADABLE && r.integrity == UNREADABLE && r.snap.trades == 0 && r.snap.day == "")
            && (!r.halted ==> r.reason == "" && r.integrity == "")
            && (disk == Missing ==>
                  && r.snap.day == "" && r.snap.trades == 0 && r.snap.advice == 0
                  && r.snap.peak == cfg.initialBalance && r.snap.dayStart == cfg.initialBalance)
            && (disk.Object? && Trusted(disk.fields) ==>
                  && r.snap.day == disk.fields["day_key"].s
                  && r.snap.peak == ValueAt(disk.fields, "peak_equity")
                  && r.snap.dayStart == ValueAt(disk.fields, "day_start_equity")
                  && r.snap.trades == CounterAt(disk.fields, "trades_today")
                  && r.snap.advice == CounterAt(disk.fields, "advice_turns_today"))
            && r.disk == disk && r.haltFile == haltFile
  {
    LoadsExactly(disk);
    hide Load, Trusted, ValueAt, CounterAt;
  }

  /** A snapshot that cannot be read, is blank or no object, or has one unsound field is
      fatal for the process: no sequence of steps ever opens the circuit, and the bad file
      is never touched. */
  lemma UnreadableIsFatal(cfg: Config, disk: Content, haltFile: bool, ops: seq<Op>)
    requires disk == IoError || disk == Garbage || (disk.Object? && !Trusted(disk.fields))
    ensures !EverAllows(cfg, Started(cfg, disk, haltFile), ops)
    ensures AfterOps(cfg, Started(cfg, disk, haltFile), ops).disk == disk
  {
    hide Trusted, Load;
    NamesDiffer();
    StartsExactly(cfg, disk, haltFile);
    LatchedForever(cfg, Started(cfg, disk, haltFile), ops);
  }

  /** Every observation of the steps carries this day. */
  predicate OnDay(ops: seq<Op>, day: string) {
    forall i :: 0 <= i < |ops| && (ops[i].Observe? || ops[i].Circuit?) ==> ops[i].day == day
  }

  /** A failed write can be followed by trading in the same process exactly when a
      daily-loss halt was in force at that moment: any other UTC day, whichever comes
      next, lifts both. */
  lemma UnwritableLatchExactly(cfg: Config, r: State, day: string)
    requires cfg.Valid() && r.halted && r.integrity == UNWRITABLE && day != r.snap.day
    ensures (exists ops :: EverAllows(cfg, r, ops)) <==> r.reason == "daily_loss"
    ensures (exists ops :: OnDay(ops, day) && EverAllows(cfg, r, ops)) <==> r.reason == "daily_loss"
  {
    if r.reason != "daily_loss" {
      forall ops ensures !EverAllows(cfg, r, ops) {
        LatchedForever(cfg, r, ops);
      }
    } else {
      var ops := NextDay(cfg, r, day);
      assert r.reason == "daily_loss" && OnDay(ops, day) && EverAllows(cfg, r, ops);
      assert exists ops :: EverAllows(cfg, r, ops);
      assert exists ops :: OnDay(ops, day) && EverAllows(cfg, r, ops);
    }
  }

  lemma NextDay(cfg: Config, r: State, day: string) returns (ops: seq<Op>)
    requires cfg.Valid() && r.halted && r.integrity == UNWRITABLE && r.reason == "daily_loss" && day != r.snap.day
    ensures OnDay(ops, day) && EverAllows(cfg, r, ops)
  {
    NamesDiffer();
    var equity := if r.snap.peak > 1.0 then r.snap.peak else 1.0;
    var a := Account(equity, equity, 0.0, equity, true, true, false);
    var r1 := r.(haltFile := false);
    var seen := Observed(r1, a, day, 0, Saved);
    assert !seen.halted && seen.snap.dayStart == equity && seen.snap.peak == equity;
    assert EquityHalt(cfg, seen.snap, equity) == "" by { HealthyIsClear(cfg, seen.snap, equity); }
    var step := Op.Circuit(a, day, 0, Saved);
    assert Allows(cfg, r1, step);
    ops := [HaltFile(false), step];
    assert ops[1..] == [step];
    assert EverAllows(cfg, r1, [step]);
  }

  lemma HealthyIsClear(cfg: Config, s: Snapshot, equity: real)
    requires cfg.Valid() && equity > 0.0 && s.dayStart == equity && s.peak == equity
    ensures EquityHalt(cfg, s, equity) == ""
  {
    TimesPositive(equity, cfg.dailyLossPct);
    TimesPositive(equity, cfg.maxDrawdownPct);
  }
}
