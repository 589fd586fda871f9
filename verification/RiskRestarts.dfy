/** Runs of the risk manager across restarts: what the snapshot file carries over, and how
    many opening sends a UTC day can see. Saves fail, processes die between a send and its
    record, and UTC days come in any order. */
module RiskRestarts {
  import opened Wrappers
  import opened StateFile
  import opened Risk
  import opened RiskRuns

  /** The key of a UTC day. */
  type Day = s: string | s != "" witness "1970-01-01"

  /** What an operator does: write the HALT file, or clear the halt. */
  type Operation = op: Op | op.HaltFile? || op.ClearHalt? witness ClearHalt

  /** The manager with its file, and per day the opening sends, the times the manager
      entered the day, and the sends whose record never reached the file. */
  datatype Sys = Sys(risk: State, sends: multiset<string>, entered: multiset<string>, lost: multiset<string>)

  /** How the record of a send ends. */
  datatype Recording = Recorded(end: SaveEnd) | Died

  /** One step between two possible crashes. A send is an evaluate that allows, the order
      that leaves and the `record_trade` that follows, if the process lives that long. */
  datatype Step =
    | See(a: Account, day: Day, time: int, end: SaveEnd)
    | Send(a: Account, day: Day, time: int, q: Proposal, end: SaveEnd, recording: Recording)
    | Advice(end: SaveEnd)
    | Operator(op: Operation)
    | Restart(haltFile: bool)

  function Entering(s: Sys, day: Day): multiset<string> {
    if s.risk.snap.day == day then s.entered else s.entered + multiset{day}
  }

  /** The state after an opening send and its record. */
  function Sending(cfg: Config, s: Sys, r: State, day: Day, recording: Recording): Sys {
    match recording
    case Recorded(end) =>
      Sys(Traded(r, end), s.sends + multiset{day}, Entering(s, day),
          if end.Unsaved? then s.lost + multiset{day} else s.lost)
    case Died =>
      Sys(Started(cfg, r.disk, r.haltFile), s.sends + multiset{day}, Entering(s, day), s.lost + multiset{day})
  }

  function Next(cfg: Config, s: Sys, step: Step): Sys {
    match step
    case See(a, day, time, end) =>
      s.(risk := Risk.Circuit(cfg, s.risk, a, day, time, end).0, entered := Entering(s, day))
    case Send(a, day, time, q, end, recording) =>
      var (r, d) := Evaluated(cfg, s.risk, a, day, time, end, q);
      if d.allowed then Sending(cfg, s, r, day, recording) else s.(risk := r, entered := Entering(s, day))
    case Advice(end) => s.(risk := Advised(s.risk, end))
    case Operator(op) => s.(risk := Done(cfg, s.risk, op))
    case Restart(haltFile) => s.(risk := Started(cfg, s.risk.disk, haltFile))
  }

  function Ran(cfg: Config, s: Sys, steps: seq<Step>): Sys
    decreases |steps|
  {
    if steps == [] then s else Ran(cfg, Next(cfg, s, steps[0]), steps[1..])
  }

  function Boot(cfg: Config, haltFile: bool): Sys {
    Sys(Started(cfg, Missing, haltFile), multiset{}, multiset{}, multiset{})
  }

  // ----- the daily cap on every run -------------------------------------------------------

  function Allowance(cfg: Config, times: nat): nat
    decreases times
  {
    if times == 0 then 0 else Allowance(cfg, times - 1) + cfg.maxTradesPerDay
  }

  lemma {:induction false} AllowanceIs(cfg: Config, times: nat)
    ensures Allowance(cfg, times) == cfg.maxTradesPerDay * times
  {
    if times > 0 { AllowanceIs(cfg, times - 1); }
  }

  predicate DayWithin(cfg: Config, s: Sys, day: string) {
    s.sends[day] <= Allowance(cfg, s.entered[day]) + s.lost[day]
  }

  /** What a snapshot counts on its day makes up for this entry of the day. */
  predicate Counts(cfg: Config, s: Sys, x: Snapshot) {
    x.day != "" ==>
      && s.entered[x.day] >= 1
      && s.sends[x.day] <= Allowance(cfg, s.entered[x.day] - 1) + x.trades + s.lost[x.day]
  }

  predicate FileCounts(cfg: Config, s: Sys, disk: Content) {
    Load(disk).Ok? && Load(disk).value.Some? ==> Counts(cfg, s, Load(disk).value.value)
  }

  /** What a start would restore is what memory holds, or the file is one that a start
      refuses, or nothing was ever observed. */
  predicate Agrees(cfg: Config, r: State) {
    match Load(r.disk)
    case Ok(None) => Durable(r.snap) == Durable(Fresh(cfg))
    case Ok(Some(kept)) => Durable(kept) == Durable(r.snap)
    case Err(_) => r.snap.peak < 0.0 || r.snap.dayStart < 0.0
  }

  /** A manager that may act, or to which nothing bad happened, agrees with its file. */
  predicate Faithful(cfg: Config, r: State) {
    && (r.integrity == UNREADABLE ==> Latched(r))
    && (!r.halted || r.integrity == "" ==> Agrees(cfg, r))
  }

  ghost predicate Sound(cfg: Config, s: Sys) {
    && Faithful(cfg, s.risk) && Counts(cfg, s, s.risk.snap) && FileCounts(cfg, s, s.risk.disk)
    && forall d :: DayWithin(cfg, s, d)
  }

  /** A save leaves a faithful manager, and a file that was there before or is memory. */
  lemma PersistedIsFaithful(cfg: Config, r: State, end: SaveEnd)
    requires r.integrity == UNREADABLE ==> Latched(r)
    ensures var r1 := Persisted(r, end);
            && Faithful(cfg, r1) && r1.snap == r.snap && r1.haltFile == r.haltFile
            && r1.disk == if end.Unsaved? || r.integrity == UNREADABLE then r.disk else Save(r.snap)
  {
    hide Load, Save;
    NamesDiffer();
    SaveLoadExactly(r.snap);
  }

  lemma ObservedIsFaithful(cfg: Config, r: State, a: Account, day: Day, time: int, end: SaveEnd)
    requires Faithful(cfg, r)
    ensures var r1 := Observed(r, a, day, time, end);
            && Faithful(cfg, r1) && r1.snap.day == day
            && r1.snap.trades == (if r.snap.day == day then r.snap.trades else 0)
            && (r1.disk == r.disk || r1.disk == Save(r1.snap))
  {
    hide Load, Save, Persisted;
    var r1 := Marked(Rolled(r, a.equity, day), a, time);
    if r.integrity == UNREADABLE { NamesDiffer(); }
    PersistedIsFaithful(cfg, r1, end);
  }

  lemma TrippedIsFaithful(cfg: Config, r: State, a: Account)
    requires Faithful(cfg, r)
    ensures var r1 := Tripped(cfg, r, a).0;
            Faithful(cfg, r1) && r1.snap == r.snap && r1.disk == r.disk && r1.haltFile == r.haltFile
  {
    hide Load, Durable;
    NamesDiffer();
  }

  lemma StartedIsFaithful(cfg: Config, disk: Content, haltFile: bool)
    ensures var r := Started(cfg, disk, haltFile);
            Faithful(cfg, r) && r.disk == disk && (r.snap.day == "" || Load(disk) == Ok(Some(r.snap)))
  {
    hide Load;
    NamesDiffer();
  }

  lemma ClearedIsFaithful(cfg: Config, r: State, op: Operation)
    requires Faithful(cfg, r)
    ensures Faithful(cfg, Done(cfg, r, op)) && Done(cfg, r, op).snap == r.snap && Done(cfg, r, op).disk == r.disk
  {
    hide Load, Durable;
    NamesDiffer();
  }

  /** Counts of a file that was saved from counted memory. */
  lemma SavedCounts(cfg: Config, s: Sys, x: Snapshot)
    requires Counts(cfg, s, x)
    ensures FileCounts(cfg, s, Save(x))
  {
    hide Load, Save, Allowance;
    SaveLoadExactly(x);
  }

  /** Entering a day. */
  lemma EnteredCounts(cfg: Config, s: Sys, r: State, day: Day)
    requires Sound(cfg, s) && Faithful(cfg, r) && r.snap.day == day
    requires r.snap.trades == if s.risk.snap.day == day then s.risk.snap.trades else 0
    requires r.disk == s.risk.disk || r.disk == Save(r.snap)
    ensures Sound(cfg, s.(risk := r, entered := Entering(s, day)))
  {
    hide Load, Save, Faithful;
    var s1 := s.(risk := r, entered := Entering(s, day));
    assert DayWithin(cfg, s, day);
    assert Counts(cfg, s1, r.snap);
    SavedCounts(cfg, s1, r.snap);
    forall d ensures DayWithin(cfg, s1, d) { assert DayWithin(cfg, s, d); }
  }

  lemma SeenIsSound(cfg: Config, s: Sys, a: Account, day: Day, time: int, end: SaveEnd)
    requires Sound(cfg, s)
    ensures var r := Risk.Circuit(cfg, s.risk, a, day, time, end).0;
            Sound(cfg, s.(risk := r, entered := Entering(s, day))) && r.snap.day == day
  {
    hide Load, Save, Observed, Tripped, Faithful, Counts, FileCounts, DayWithin;
    ObservedIsFaithful(cfg, s.risk, a, day, time, end);
    TrippedIsFaithful(cfg, Observed(s.risk, a, day, time, end), a);
    EnteredCounts(cfg, s, Risk.Circuit(cfg, s.risk, a, day, time, end).0, day);
  }

  /** A send and its loss cancel out. */
  lemma LostCounts(cfg: Config, s: Sys, s1: Sys, day: Day, disk: Content)
    requires FileCounts(cfg, s, disk) && s1.entered == s.entered
    requires s1.sends == s.sends + multiset{day} && s1.lost == s.lost + multiset{day}
    ensures FileCounts(cfg, s1, disk)
  {
    hide Load, Allowance;
  }

  /** An opening send that was allowed, and counted. */
  lemma RecordedIsSound(cfg: Config, s: Sys, r: State, day: Day, end: SaveEnd)
    requires Sound(cfg, s.(risk := r)) && s.entered[day] >= 1
    requires r.snap.day == day && !r.halted && r.snap.trades < cfg.maxTradesPerDay
    ensures Sound(cfg, Sys(Traded(r, end), s.sends + multiset{day}, s.entered,
                           if end.Unsaved? then s.lost + multiset{day} else s.lost))
  {
    hide Load, Save, Agrees, Persisted;
    var s1 := Sys(Traded(r, end), s.sends + multiset{day}, s.entered,
                  if end.Unsaved? then s.lost + multiset{day} else s.lost);
    var r0 := r.(snap := r.snap.(trades := r.snap.trades + 1));
    PersistedIsFaithful(cfg, r0, end);
    assert Counts(cfg, s1, r0.snap);
    SavedCounts(cfg, s1, r0.snap);
    if end.Unsaved? { LostCounts(cfg, s.(risk := r), s1, day, r.disk); }
    forall d ensures DayWithin(cfg, s1, d) { assert DayWithin(cfg, s.(risk := r), d); }
  }

  /** An opening send that was allowed, and died with its process. */
  lemma DiedIsSound(cfg: Config, s: Sys, r: State, day: Day)
    requires Sound(cfg, s.(risk := r)) && s.entered[day] >= 1
    requires r.snap.day == day && !r.halted && r.snap.trades < cfg.maxTradesPerDay
    ensures Sound(cfg, Sys(Started(cfg, r.disk, r.haltFile), s.sends + multiset{day}, s.entered, s.lost + multiset{day}))
  {
    hide Load, Save, Faithful, Started;
    var s1 := Sys(Started(cfg, r.disk, r.haltFile), s.sends + multiset{day}, s.entered, s.lost + multiset{day});
    StartedIsFaithful(cfg, r.disk, r.haltFile);
    LostCounts(cfg, s.(risk := r), s1, day, r.disk);
    forall d ensures DayWithin(cfg, s1, d) { assert DayWithin(cfg, s.(risk := r), d); }
  }

  lemma SendIsSound(cfg: Config, s: Sys, a: Account, day: Day, time: int, q: Proposal, end: SaveEnd, recording: Recording)
    requires Sound(cfg, s) && cfg.maxTradesPerDay > 0
    ensures Sound(cfg, Next(cfg, s, Send(a, day, time, q, end, recording)))
  {
    hide Load, Gate, PreGate, Persisted, Started, Risk.Circuit, Faithful, Counts, FileCounts, DayWithin;
    SeenIsSound(cfg, s, a, day, time, end);
    var (r, d) := Evaluated(cfg, s.risk, a, day, time, end, q);
    if d.allowed {
      var s0 := s.(entered := Entering(s, day));
      assert s0.(risk := r) == s.(risk := r, entered := Entering(s, day));
      AllowedFacts(cfg, s.risk, a, day, time, end, q);
      EnteredOnce(cfg, s0.(risk := r));
      match recording {
        case Recorded(e) => RecordedIsSound(cfg, s0, r, day, e);
        case Died => DiedIsSound(cfg, s0, r, day);
      }
    }
  }

  lemma EnteredOnce(cfg: Config, s: Sys)
    requires Sound(cfg, s) && s.risk.snap.day != ""
    ensures s.entered[s.risk.snap.day] >= 1
  {
    hide Faithful, FileCounts, DayWithin, Allowance;
  }

  lemma AllowedFacts(cfg: Config, r: State, a: Account, day: Day, time: int, end: SaveEnd, q: Proposal)
    requires Evaluated(cfg, r, a, day, time, end, q).1.allowed
    ensures var r1 := Evaluated(cfg, r, a, day, time, end, q).0;
            && r1 == Observed(r, a, day, time, end) && !r1.halted && !r1.haltFile
            && EquityHalt(cfg, r1.snap, a.equity) == "" && Gate(cfg, r1.snap, a, q).allowed
            && (cfg.maxTradesPerDay > 0 ==> r1.snap.trades < cfg.maxTradesPerDay)
  {
    hide Gate, PreGate, Observed, EquityHalt;
    var r1 := Observed(r, a, day, time, end);
    CircuitAllows(cfg, r1, a);
    GateAllows(cfg, r1.snap, a, q);
    PreGatePasses(cfg, r1.snap, a, q);
  }

  lemma SoundStep(cfg: Config, s: Sys, step: Step)
    requires Sound(cfg, s) && cfg.maxTradesPerDay > 0
    ensures Sound(cfg, Next(cfg, s, step))
  {
    hide Load, Save, Evaluated, Risk.Circuit, Persisted, Started, Faithful, Done, DayWithin, Sending;
    match step {
      case See(a, day, time, end) => SeenIsSound(cfg, s, a, day, time, end);
      case Send(a, day, time, q, end, recording) => SendIsSound(cfg, s, a, day, time, q, end, recording);
      case Advice(end) => AdvisedIsSound(cfg, s, end);
      case Operator(op) => ClearedIsSound(cfg, s, op);
      case Restart(haltFile) => RestartIsSound(cfg, s, haltFile);
    }
  }

  lemma AdvisedIsSound(cfg: Config, s: Sys, end: SaveEnd)
    requires Sound(cfg, s)
    ensures Sound(cfg, s.(risk := Advised(s.risk, end)))
  {
    hide Load, Save, Agrees, Persisted, Allowance;
    var r0 := s.risk.(snap := s.risk.snap.(advice := s.risk.snap.advice + 1));
    var s1 := s.(risk := Advised(s.risk, end));
    PersistedIsFaithful(cfg, r0, end);
    assert Counts(cfg, s1, r0.snap);
    SavedCounts(cfg, s1, r0.snap);
    forall d ensures DayWithin(cfg, s1, d) { assert DayWithin(cfg, s, d); }
  }

  lemma ClearedIsSound(cfg: Config, s: Sys, op: Operation)
    requires Sound(cfg, s)
    ensures Sound(cfg, s.(risk := Done(cfg, s.risk, op)))
  {
    hide Load, Faithful, Done, Allowance;
    ClearedIsFaithful(cfg, s.risk, op);
    var s1 := s.(risk := Done(cfg, s.risk, op));
    forall d ensures DayWithin(cfg, s1, d) { assert DayWithin(cfg, s, d); }
  }

  lemma RestartIsSound(cfg: Config, s: Sys, haltFile: bool)
    requires Sound(cfg, s)
    ensures Sound(cfg, s.(risk := Started(cfg, s.risk.disk, haltFile)))
  {
    hide Load, Faithful, Started, Allowance;
    StartedIsFaithful(cfg, s.risk.disk, haltFile);
    var s1 := s.(risk := Started(cfg, s.risk.disk, haltFile));
    forall d ensures DayWithin(cfg, s1, d) { assert DayWithin(cfg, s, d); }
  }

  lemma {:induction false} RunIsSound(cfg: Config, s: Sys, steps: seq<Step>)
    requires Sound(cfg, s) && cfg.maxTradesPerDay > 0
    ensures Sound(cfg, Ran(cfg, s, steps))
    decreases |steps|
  {
    hide Sound, Next;
    if steps != [] {
      SoundStep(cfg, s, steps[0]);
      RunIsSound(cfg, Next(cfg, s, steps[0]), steps[1..]);
    }
  }

  lemma BootIsSound(cfg: Config, haltFile: bool)
    ensures Sound(cfg, Boot(cfg, haltFile))
  {
    hide Started;
    StartedIsFaithful(cfg, Missing, haltFile);
    assert Load(Missing) == Ok(None);
    assert Started(cfg, Missing, haltFile).snap.day == "";
  }

  /** On every run whatsoever, with saves that fail, processes that die and UTC days in any
      order: the opening sends of a day are at most the cap for each time the manager
      entered the day, plus the sends whose record never reached the file. And a manager
      that is not halted agrees with its file. */
  lemma CapSafety(cfg: Config, haltFile: bool, steps: seq<Step>, day: string)
    requires cfg.maxTradesPerDay > 0
    ensures var e := Ran(cfg, Boot(cfg, haltFile), steps);
            && e.sends[day] <= cfg.maxTradesPerDay * e.entered[day] + e.lost[day]
            && (!e.risk.halted ==> Agrees(cfg, e.risk))
  {
    hide Agrees, Counts, FileCounts, Next;
    BootIsSound(cfg, haltFile);
    RunIsSound(cfg, Boot(cfg, haltFile), steps);
    var e := Ran(cfg, Boot(cfg, haltFile), steps);
    assert DayWithin(cfg, e, day);
    AllowanceIs(cfg, e.entered[day]);
  }

  // ----- a day that comes back --------------------------------------------------------------

  /** The snapshot of an account on a day just entered. */
  function Entered(a: Account, day: Day, time: int, peak: real): Snapshot {
    Snapshot(time, a.balance, a.equity, if a.equity > peak then a.equity else peak, a.equity, day, 0, 0)
  }

  lemma EnteredSnap(r: State, a: Account, day: Day, time: int)
    requires r.snap.day != day
    ensures var r1 := Observed(r, a, day, time, Saved);
            r1.snap == Entered(a, day, time, r.snap.peak) && r1.haltFile == r.haltFile && (!r.halted ==> !r1.halted)
  {
    hide Save;
  }

  predicate Open(cfg: Config, r: State, a: Account, snap: Snapshot, q: Proposal) {
    && !r.halted && !r.haltFile
    && a.tradeAllowed && a.tradeExpert && !(cfg.liveMode && a.realMoney && !cfg.liveAccepted)
    && EquityHalt(cfg, snap, a.equity) == "" && Gate(cfg, snap, a, q).allowed
  }

  /** An evaluate allows exactly when the observed state is open. */
  lemma AllowsExactly(cfg: Config, r: State, a: Account, day: Day, time: int, q: Proposal)
    ensures var r1 := Observed(r, a, day, time, Saved);
            Evaluated(cfg, r, a, day, time, Saved, q).1.allowed <==> Open(cfg, r1, a, r1.snap, q)
  {
    hide Gate, EquityHalt, Observed;
  }

  lemma SendsOnce(cfg: Config, s: Sys, a: Account, day: Day, time: int, q: Proposal)
    requires s.risk.snap.day != day
    ensures var s1 := Next(cfg, s, Send(a, day, time, q, Saved, Recorded(Saved)));
            Evaluated(cfg, s.risk, a, day, time, Saved, q).1.allowed ==>
              && s1.sends == s.sends + multiset{day} && s1.entered == s.entered + multiset{day}
              && s1.risk.snap == Entered(a, day, time, s.risk.snap.peak).(trades := 1)
              && Open(cfg, s1.risk, a, Entered(a, day, time, s.risk.snap.peak), q)
  {
    hide Gate, EquityHalt, Observed, Save;
    if Evaluated(cfg, s.risk, a, day, time, Saved, q).1.allowed {
      EnteredSnap(s.risk, a, day, time);
      AllowsExactly(cfg, s.risk, a, day, time, q);
      AllowedFacts(cfg, s.risk, a, day, time, Saved, q);
    }
  }

  lemma SeesOther(cfg: Config, s: Sys, a: Account, day: Day, time: int, snap: Snapshot, q: Proposal)
    requires s.risk.snap.day != day && Open(cfg, s.risk, a, snap, q)
    requires snap.dayStart == a.equity && snap.peak == s.risk.snap.peak && a.equity <= snap.peak
    ensures var s1 := Next(cfg, s, See(a, day, time, Saved));
            && s1.sends == s.sends && s1.entered == s.entered + multiset{day}
            && s1.risk.snap == Entered(a, day, time, snap.peak) && !s1.risk.halted && !s1.risk.haltFile
            && Open(cfg, s1.risk, a, snap, q)
  {
    hide Gate, Observed, Save, EquityHalt;
    EnteredSnap(s.risk, a, day, time);
    SameHalts(cfg, snap, Entered(a, day, time, snap.peak), a.equity);
  }

  lemma SameHalts(cfg: Config, x: Snapshot, y: Snapshot, equity: real)
    requires x.dayStart == y.dayStart && x.peak == y.peak
    ensures EquityHalt(cfg, x, equity) == EquityHalt(cfg, y, equity)
  {
  }

  /** The bound is reached: a proposal that opens on a day opens on it again once another
      day was seen in between, however small the cap. */
  lemma DayComesBack(cfg: Config, s: Sys, a: Account, day: Day, other: Day, time: int, q: Proposal)
    requires s.risk.snap.day != day && other != day
    requires Evaluated(cfg, s.risk, a, day, time, Saved, q).1.allowed
    ensures var send := Send(a, day, time, q, Saved, Recorded(Saved));
            var e := Ran(cfg, s, [send, See(a, other, time, Saved), send]);
            e.sends == s.sends + multiset{day, day} && e.entered == s.entered + multiset{day, other, day}
  {
    hide Next, Open, Evaluated, Observed;
    var send, see := Send(a, day, time, q, Saved, Recorded(Saved)), See(a, other, time, Saved);
    var s1 := Next(cfg, s, send);
    var s2 := Next(cfg, s1, see);
    var snap := Entered(a, day, time, s.risk.snap.peak);
    SendsOnce(cfg, s, a, day, time, q);
    SeesOther(cfg, s1, a, other, time, snap, q);
    EnteredSnap(s2.risk, a, day, time);
    StaysOpen(cfg, s2.risk, Observed(s2.risk, a, day, time, Saved), a, snap, q);
    AllowsExactly(cfg, s2.risk, a, day, time, q);
    SendsOnce(cfg, s2, a, day, time, q);
    ThreeSteps(cfg, s, send, see, send);
  }

  lemma StaysOpen(cfg: Config, r: State, r1: State, a: Account, snap: Snapshot, q: Proposal)
    requires Open(cfg, r, a, snap, q) && !r1.halted && !r1.haltFile
    ensures Open(cfg, r1, a, snap, q)
  {
  }

  lemma ThreeSteps(cfg: Config, s: Sys, x: Step, y: Step, z: Step)
    ensures Ran(cfg, s, [x, y, z]) == Next(cfg, Next(cfg, Next(cfg, s, x), y), z)
  {
    hide Next;
    assert [x, y, z][1..] == [y, z] && [y, z][1..] == [z] && [z][1..] == [];
    assert Ran(cfg, Next(cfg, Next(cfg, s, x), y), [z]) == Next(cfg, Next(cfg, Next(cfg, s, x), y), z);
  }

  // ----- saves that succeed -------------------------------------------------------------------

  /** Every save succeeds, and no day starts with negative equity. Within its day an
      account may fall to any depth. */
  predicate Usual(s: Sys, step: Step) {
    match step
    case See(a, day, _, end) => end.Saved? && (s.risk.snap.day != day ==> a.equity >= 0.0)
    case Send(a, day, _, _, end, recording) =>
      end.Saved? && (s.risk.snap.day != day ==> a.equity >= 0.0) && (recording.Recorded? ==> recording.end.Saved?)
    case Advice(end) => end.Saved?
    case _ => true
  }

  predicate UsualRun(cfg: Config, s: Sys, steps: seq<Step>)
    decreases |steps|
  {
    steps == [] || (Usual(s, steps[0]) && UsualRun(cfg, Next(cfg, s, steps[0]), steps[1..]))
  }

  /** What a start would restore is what memory holds. */
  predicate Kept(cfg: Config, r: State) {
    && Load(r.disk).Ok?
    && Durable(r.snap) == Durable(if Load(r.disk).value.Some? then Load(r.disk).value.value else Fresh(cfg))
  }

  predicate Safe(cfg: Config, r: State) {
    r.integrity == "" && r.snap.peak >= 0.0 && r.snap.dayStart >= 0.0 && Kept(cfg, r)
  }

  /** From one state to the next: the peak never falls, and a day's start is fixed while
      the day is not entered anew. */
  predicate Onward(s: Sys, s1: Sys) {
    && s1.risk.snap.peak >= s.risk.snap.peak && s.entered <= s1.entered
    && (s1.entered == s.entered ==>
          s1.risk.snap.day == s.risk.snap.day && s1.risk.snap.dayStart == s.risk.snap.dayStart)
  }

  lemma PersistedIsSafe(cfg: Config, r: State)
    requires r.integrity == "" && r.snap.peak >= 0.0 && r.snap.dayStart >= 0.0
    ensures Safe(cfg, Persisted(r, Saved)) && Persisted(r, Saved).snap == r.snap
  {
    hide Load, Save;
    NamesDiffer();
    SaveLoadExactly(r.snap);
  }

  lemma ObservedIsSafe(cfg: Config, r: State, a: Account, day: Day, time: int)
    requires Safe(cfg, r) && (r.snap.day != day ==> a.equity >= 0.0)
    ensures var r1 := Observed(r, a, day, time, Saved);
            && Safe(cfg, r1) && r1.snap.peak >= r.snap.peak && r1.snap.peak >= a.equity && r1.snap.day == day
            && (r.snap.day == day ==> r1.snap.dayStart == r.snap.dayStart)
  {
    hide Load, Persisted;
    PersistedIsSafe(cfg, Marked(Rolled(r, a.equity, day), a, time));
  }

  lemma SeeIsSafe(cfg: Config, s: Sys, a: Account, day: Day, time: int)
    requires Safe(cfg, s.risk) && (s.risk.snap.day != day ==> a.equity >= 0.0)
    ensures var s1 := s.(risk := Risk.Circuit(cfg, s.risk, a, day, time, Saved).0, entered := Entering(s, day));
            && Safe(cfg, s1.risk) && Onward(s, s1) && s1.risk.snap.peak >= a.equity && s1.risk.snap.day == day
  {
    hide Load, Observed;
    ObservedIsSafe(cfg, s.risk, a, day, time);
    assert (s.entered + multiset{day})[day] == s.entered[day] + 1;
  }

  lemma RestartIsSafe(cfg: Config, r: State, haltFile: bool)
    requires Safe(cfg, r) && cfg.initialBalance >= 0.0
    ensures var r1 := Started(cfg, r.disk, haltFile);
            Safe(cfg, r1) && Durable(r1.snap) == Durable(r.snap)
  {
    hide Load;
  }

  lemma CountedIsSafe(cfg: Config, r: State)
    requires Safe(cfg, r)
    ensures Safe(cfg, Traded(r, Saved)) && Traded(r, Saved).snap == r.snap.(trades := r.snap.trades + 1)
    ensures Safe(cfg, Advised(r, Saved)) && Advised(r, Saved).snap == r.snap.(advice := r.snap.advice + 1)
  {
    hide Load, Persisted;
    PersistedIsSafe(cfg, r.(snap := r.snap.(trades := r.snap.trades + 1)));
    PersistedIsSafe(cfg, r.(snap := r.snap.(advice := r.snap.advice + 1)));
  }

  /** One step keeps the file equal to memory in every durable field. */
  lemma SafeStep(cfg: Config, s: Sys, step: Step)
    requires Safe(cfg, s.risk) && Usual(s, step) && cfg.initialBalance >= 0.0
    ensures var s1 := Next(cfg, s, step);
            && Safe(cfg, s1.risk) && Onward(s, s1)
            && (step.See? || step.Send? ==> s1.risk.snap.peak >= step.a.equity)
  {
    hide Kept, Risk.Circuit, Gate, Persisted, Started, EquityHalt;
    match step {
      case See(a, day, time, end) => SeeIsSafe(cfg, s, a, day, time);
      case Send(a, day, time, q, end, recording) =>
        SeeIsSafe(cfg, s, a, day, time);
        var r := Evaluated(cfg, s.risk, a, day, time, end, q).0;
        CountedIsSafe(cfg, r);
        RestartIsSafe(cfg, r, r.haltFile);
      case Advice(end) => CountedIsSafe(cfg, s.risk);
      case Operator(op) => OperatorIsSafe(cfg, s.risk, op);
      case Restart(haltFile) => RestartIsSafe(cfg, s.risk, haltFile);
    }
  }

  lemma OperatorIsSafe(cfg: Config, r: State, op: Operation)
    requires Safe(cfg, r)
    ensures Safe(cfg, Done(cfg, r, op)) && Done(cfg, r, op).snap == r.snap
  {
    hide Load, Durable;
  }

  lemma {:induction false} RunIsSafe(cfg: Config, s: Sys, steps: seq<Step>)
    requires Safe(cfg, s.risk) && UsualRun(cfg, s, steps) && cfg.initialBalance >= 0.0
    ensures Safe(cfg, Ran(cfg, s, steps).risk) && Onward(s, Ran(cfg, s, steps))
    decreases |steps|
  {
    hide Safe, Usual, Next;
    if steps != [] {
      SafeStep(cfg, s, steps[0]);
      RunIsSafe(cfg, Next(cfg, s, steps[0]), steps[1..]);
    }
  }

  lemma BootIsSafe(cfg: Config, haltFile: bool)
    requires cfg.initialBalance >= 0.0
    ensures Safe(cfg, Boot(cfg, haltFile).risk)
  {
    assert Load(Missing) == Ok(None);
  }

  /** With saves that succeed, over every run with a crash between any two steps and UTC
      days in any order: the file holds exactly the durable fields of memory, the peak never
      falls and bounds every equity ever observed (the run is cut at any observation), and
      the day's start is fixed until another day is entered, restarts included. */
  lemma RestartSafety(cfg: Config, haltFile: bool, steps: seq<Step>, more: seq<Step>)
    requires cfg.initialBalance >= 0.0 && UsualRun(cfg, Boot(cfg, haltFile), steps)
    requires UsualRun(cfg, Ran(cfg, Boot(cfg, haltFile), steps), more)
    ensures var s := Ran(cfg, Boot(cfg, haltFile), steps);
            var e := Ran(cfg, s, more);
            && Kept(cfg, s.risk)
            && e.risk.snap.peak >= s.risk.snap.peak
            && (more != [] && (more[0].See? || more[0].Send?) ==> e.risk.snap.peak >= more[0].a.equity)
            && (e.entered == s.entered ==> e.risk.snap.dayStart == s.risk.snap.dayStart)
  {
    hide Usual, Next, Kept;
    BootIsSafe(cfg, haltFile);
    RunIsSafe(cfg, Boot(cfg, haltFile), steps);
    var s := Ran(cfg, Boot(cfg, haltFile), steps);
    RunIsSafe(cfg, s, more);
    if more != [] {
      SafeStep(cfg, s, more[0]);
      RunIsSafe(cfg, Next(cfg, s, more[0]), more[1..]);
    }
  }

  // ----- days that do not go back ----------------------------------------------------------------

  /** No observation is of an earlier day than the one before; `number` counts the days. */
  predicate Forward(number: string -> int, s: Sys, step: Step) {
    (step.See? || step.Send?) && s.risk.snap.day != "" ==> number(s.risk.snap.day) <= number(step.day)
  }

  predicate ForwardRun(cfg: Config, number: string -> int, s: Sys, steps: seq<Step>)
    decreases |steps|
  {
    steps == [] || (Forward(number, s, steps[0]) && ForwardRun(cfg, number, Next(cfg, s, steps[0]), steps[1..]))
  }

  ghost predicate Counted(number: string -> int) {
    forall d, e :: number(d) == number(e) ==> d == e
  }

  /** Every day entered lies at or before today, and was entered once. */
  ghost predicate Once(number: string -> int, s: Sys) {
    forall d :: s.entered[d] > 0 ==>
      s.entered[d] == 1 && s.risk.snap.day != "" && number(d) <= number(s.risk.snap.day)
  }

  /** Which day a step leaves the manager in. */
  lemma DayAfter(cfg: Config, s: Sys, step: Step)
    requires Safe(cfg, s.risk) && Usual(s, step) && cfg.initialBalance >= 0.0
    ensures var s1 := Next(cfg, s, step);
            if step.See? || step.Send? then s1.risk.snap.day == step.day && s1.entered == Entering(s, step.day)
            else s1.risk.snap.day == s.risk.snap.day && s1.entered == s.entered
  {
    hide Kept, Risk.Circuit, Gate, Persisted, Started, EquityHalt;
    match step {
      case See(a, day, time, end) => SeeIsSafe(cfg, s, a, day, time);
      case Send(a, day, time, q, end, recording) =>
        SeeIsSafe(cfg, s, a, day, time);
        var r := Evaluated(cfg, s.risk, a, day, time, end, q).0;
        CountedIsSafe(cfg, r);
        RestartIsSafe(cfg, r, r.haltFile);
      case Advice(end) => CountedIsSafe(cfg, s.risk);
      case Operator(op) => OperatorIsSafe(cfg, s.risk, op);
      case Restart(haltFile) => RestartIsSafe(cfg, s.risk, haltFile);
    }
  }

  lemma OnceStep(cfg: Config, number: string -> int, s: Sys, step: Step)
    requires Safe(cfg, s.risk) && Usual(s, step) && cfg.initialBalance >= 0.0
    requires Counted(number) && Forward(number, s, step) && Once(number, s)
    ensures var s1 := Next(cfg, s, step);
            && Once(number, s1)
            && (s.risk.snap.day != "" ==> s1.risk.snap.day != "" && number(s.risk.snap.day) <= number(s1.risk.snap.day))
            && (s.risk.snap.day == s1.risk.snap.day ==> s1.entered == s.entered)
  {
    hide Safe, Usual, Next;
    DayAfter(cfg, s, step);
    if (step.See? || step.Send?) && s.risk.snap.day != step.day {
      assert s.entered[step.day] == 0;
    }
  }

  lemma {:induction false} RunIsOnce(cfg: Config, number: string -> int, s: Sys, steps: seq<Step>)
    requires Safe(cfg, s.risk) && UsualRun(cfg, s, steps) && cfg.initialBalance >= 0.0
    requires Counted(number) && ForwardRun(cfg, number, s, steps) && Once(number, s)
    ensures var e := Ran(cfg, s, steps);
            && Once(number, e)
            && (s.risk.snap.day != "" ==> e.risk.snap.day != "" && number(s.risk.snap.day) <= number(e.risk.snap.day))
            && (s.risk.snap.day == e.risk.snap.day ==> e.entered == s.entered)
    decreases |steps|
  {
    hide Safe, Usual, Next, Forward, Once;
    if steps != [] {
      SafeStep(cfg, s, steps[0]);
      OnceStep(cfg, number, s, steps[0]);
      var s1 := Next(cfg, s, steps[0]);
      RunIsOnce(cfg, number, s1, steps[1..]);
      var e := Ran(cfg, s1, steps[1..]);
      if s.risk.snap.day == e.risk.snap.day && s.risk.snap.day != "" {
        assert number(s1.risk.snap.day) == number(s.risk.snap.day);
      }
    }
  }

  /** When days do not go back either, each is entered once: its opening sends stay within
      the cap, up to sends that died before their record, and its start is fixed. */
  lemma ForwardSafety(cfg: Config, number: string -> int, haltFile: bool, steps: seq<Step>, more: seq<Step>, day: string)
    requires cfg.initialBalance >= 0.0 && cfg.maxTradesPerDay > 0 && Counted(number)
    requires UsualRun(cfg, Boot(cfg, haltFile), steps) && ForwardRun(cfg, number, Boot(cfg, haltFile), steps)
    requires var s := Ran(cfg, Boot(cfg, haltFile), steps); UsualRun(cfg, s, more) && ForwardRun(cfg, number, s, more)
    ensures var s := Ran(cfg, Boot(cfg, haltFile), steps);
            var e := Ran(cfg, s, more);
            && s.sends[day] <= cfg.maxTradesPerDay + s.lost[day]
            && (e.risk.snap.day == s.risk.snap.day ==> e.risk.snap.dayStart == s.risk.snap.dayStart)
  {
    hide Safe, Usual, Next, Agrees, Forward;
    BootIsSafe(cfg, haltFile);
    RunIsSafe(cfg, Boot(cfg, haltFile), steps);
    RunIsOnce(cfg, number, Boot(cfg, haltFile), steps);
    CapSafety(cfg, haltFile, steps, day);
    var s := Ran(cfg, Boot(cfg, haltFile), steps);
    RunIsSafe(cfg, s, more);
    RunIsOnce(cfg, number, s, more);
    assert s.entered[day] <= 1;
    assert cfg.maxTradesPerDay * s.entered[day] <= cfg.maxTradesPerDay by {
      if s.entered[day] == 0 { assert cfg.maxTradesPerDay * 0 == 0; }
    }
  }
}
