/** The order-send protocol as a step machine: the desk process (its memory is
    lost in a crash), the durable ledger of open attempts, and the journal.
    Steps are as fine as the points where the process can die or a write can
    fail. Ghost counters per client key: `sent` counts transmissions, `settled` those
    whose verdict removed the ledger entry, `evicted` entries that the cap of the ledger
    dropped, and `slips` the times the pending of a settled key was not cleared for good:
    a crash, an exception or a lost record between the verdict and the clearing. */
module OrderProtocol {
  import opened Wrappers
  import opened Confirm
  import opened JournalLog

  const STAGE := "confirm_stage"
  const CANCEL := "confirm_cancel"
  const SENT := "confirm_sent"
  const CONFIRM := {STAGE, CANCEL, SENT}
  const MAX_OPEN: nat := 64

  /** Where the one send call of the process stands. */
  datatype Pc =
    | Idle
    | Begun(key: string)     // the ledger entry is on disk, nothing has left
    | Wire(key: string)      // transmitted, no reply yet
    | Answered(key: string)  // the venue gave a verdict
    | Settled(key: string)   // the ledger entry is gone, the pending not yet cleared

  datatype Proc = Down | Up(pending: Option<Pending>, pc: Pc)

  datatype World = World(
    proc: Proc, open: set<string>, log: Log, dirty: bool,
    staged: set<string>, auto: set<string>,
    sent: multiset<string>, settled: multiset<string>, evicted: multiset<string>, slips: multiset<string>)

  datatype Action =
    | Stage(p: Pending, now: real, bytes: nat, end: WriteEnd)
    | Clear(event: string, bytes: nat, end: WriteEnd)
    | Begin(key: string, drop: set<string>)                // `drop`: entries evicted by the cap
    | Transmit
    | NoVerdict
    | Verdict
    | Settle
    | SettleFails                                          // the ledger file could not be written
    | Finish(event: string, bytes: nat, end: WriteEnd)     // the pending is cleared after a verdict
    | FinishAuto                                           // the auto leg has no pending to clear
    | Abandon                                              // an exception before the clear
    | Note(rec: Rec, end: WriteEnd)                        // any other journal record
    | Crash
    | Restart(now: real)

  // ----- the step function --------------------------------------------------

  function PcKey(w: World): string {
    if w.proc.Down? || w.proc.pc.Idle? then "" else w.proc.pc.key
  }

  function Pend(w: World): Option<Pending> {
    if w.proc.Down? then None else w.proc.pending
  }

  /** `restore_from_journal`: only an unexpired stage record that is the last
      confirm event of the live file brings a pending back. */
  function Restore(log: Log, now: real): Option<Pending>
    requires log.Valid()
  {
    var rec := LastOf(log.Live(), CONFIRM);
    if rec.None? || rec.value.event != STAGE then None
    else
      var expires := FloatOrZero(Lookup(rec.value.fields, "expires_at"));
      if expires.None? || now > expires.value then None
      else PendingFromRecord(rec.value.fields)
  }

  predicate Fresh(w: World, key: string) {
    key != "" && key !in w.staged && key !in w.auto
  }

  predicate Holds(w: World, key: string) {
    Pend(w).Some? && Pend(w).value.clientId == key
  }

  /** The eviction of `_store`: nothing up to 64 entries, the surplus beyond. */
  predicate Evicts(w: World, key: string, drop: set<string>) {
    drop <= w.open + {key} && |drop| == (if |w.open + {key}| > MAX_OPEN then |w.open + {key}| - MAX_OPEN else 0)
  }

  /** Records other than the confirm events come at any time; with the process down they
      stand for those a start writes before it restores. */
  predicate Enabled(w: World, a: Action) {
    && w.log.Valid()
    && match a
       case Restart(_) => w.proc.Down?
       case Crash => w.proc.Up?
       case Note(rec, _) => rec.event !in CONFIRM
       case Stage(p, now, _, _) =>
         && w.proc.Up? && w.proc.pc.Idle?
         && (w.proc.pending.Some? ==> now > w.proc.pending.value.expiresAt)
         && Restorable(p)
         && (if p.signal.Some? then Fresh(w, p.clientId) else p.clientId == "")
       case Clear(event, _, _) =>
         w.proc.Up? && w.proc.pc.Idle? && w.proc.pending.Some? && event in {CANCEL, SENT}
       case Begin(key, drop) =>
         && w.proc.Up? && w.proc.pc.Idle? && key !in w.open && key != ""
         && (Holds(w, key) || Fresh(w, key))
         && Evicts(w, key, drop)
       case Transmit => w.proc.Up? && w.proc.pc.Begun?
       case NoVerdict => w.proc.Up? && w.proc.pc.Wire?
       case Verdict => w.proc.Up? && w.proc.pc.Wire?
       case Settle => w.proc.Up? && w.proc.pc.Answered?
       case SettleFails => w.proc.Up? && w.proc.pc.Answered?
       case Finish(event, _, _) =>
         w.proc.Up? && w.proc.pc.Settled? && Holds(w, w.proc.pc.key) && event in {CANCEL, SENT}
       case FinishAuto => w.proc.Up? && w.proc.pc.Settled? && !Holds(w, w.proc.pc.key)
       case Abandon => w.proc.Up? && w.proc.pc.Settled?
  }

  /** The record of a clearing step. */
  function ClearRec(w: World, event: string, bytes: nat): Rec
    requires Pend(w).Some?
  {
    Rec(event, RecordOf(Pend(w).value), bytes)
  }

  /** One confirm record: memory already changed, the record lands or does not. */
  function Confirmed(w: World, proc: Proc, rec: Rec, end: WriteEnd): World
    requires w.log.Valid()
  {
    w.(proc := proc, log := w.log.Put(rec, end), dirty := !w.log.Lands(rec, end))
  }

  /** A staged key was settled and its pending still stands. */
  function Slipped(w: World): multiset<string> {
    if w.proc.Up? && w.proc.pc.Settled? && w.proc.pc.key in w.staged then w.slips + multiset{w.proc.pc.key} else w.slips
  }

  function Apply(w: World, a: Action): World
    requires Enabled(w, a)
  {
    match a
    case Stage(p, _, bytes, end) =>
      var staged := if p.clientId == "" then w.staged else w.staged + {p.clientId};
      Confirmed(w, Up(Some(p), Idle), Rec(STAGE, RecordOf(p), bytes), end).(staged := staged)
    case Clear(event, bytes, end) => Confirmed(w, Up(None, Idle), ClearRec(w, event, bytes), end)
    case Begin(key, drop) =>
      w.(proc := Up(w.proc.pending, Begun(key)), open := w.open + {key} - drop,
         auto := if Holds(w, key) then w.auto else w.auto + {key}, evicted := w.evicted + multiset(drop))
    case Transmit => w.(proc := w.proc.(pc := Wire(w.proc.pc.key)), sent := w.sent + multiset{w.proc.pc.key})
    case NoVerdict => w.(proc := w.proc.(pc := Idle))
    case Verdict => w.(proc := w.proc.(pc := Answered(w.proc.pc.key)))
    case Settle =>
      w.(proc := w.proc.(pc := Settled(w.proc.pc.key)), open := w.open - {w.proc.pc.key},
         settled := w.settled + multiset{w.proc.pc.key})
    case SettleFails => w.(proc := w.proc.(pc := Idle))
    case Finish(event, bytes, end) =>
      var rec := ClearRec(w, event, bytes);
      Confirmed(w, Up(None, Idle), rec, end).(slips := if w.log.Lands(rec, end) then w.slips else Slipped(w))
    case FinishAuto => w.(proc := w.proc.(pc := Idle))
    case Abandon => w.(proc := w.proc.(pc := Idle), slips := Slipped(w))
    case Note(rec, end) => w.(log := w.log.Put(rec, end))
    case Crash => w.(proc := Down, slips := Slipped(w))
    case Restart(now) => w.(proc := Up(Restore(w.log, now), Idle), dirty := false)
  }

  const INIT :=
    World(Down, {}, EMPTY_LOG, false, {}, {}, multiset{}, multiset{}, multiset{}, multiset{})

  // ----- runs ---------------------------------------------------------------

  predicate Legal(w: World, run: seq<Action>)
    decreases |run|
  {
    run == [] || (Enabled(w, run[0]) && Legal(Apply(w, run[0]), run[1..]))
  }

  function After(w: World, run: seq<Action>): World
    requires Legal(w, run)
    decreases |run|
  {
    if run == [] then w else After(Apply(w, run[0]), run[1..])
  }

  lemma {:induction false} LegalConcat(w: World, a: seq<Action>, b: seq<Action>)
    requires Legal(w, a) && Legal(After(w, a), b)
    ensures Legal(w, a + b) && After(w, a + b) == After(After(w, a), b)
    decreases |a|
  {
    hide Enabled, Apply;
    if a == [] {
      assert a + b == b;
    } else {
      var ab := a + b;
      assert ab[0] == a[0] && ab[1..] == a[1..] + b;
      LegalConcat(Apply(w, a[0]), a[1..], b);
    }
  }

  lemma LegalOne(w: World, a: Action)
    requires Enabled(w, a)
    ensures Legal(w, [a]) && After(w, [a]) == Apply(w, a)
  {
    hide Enabled, Apply;
    var run := [a];
    assert run[0] == a && run[1..] == [];
    assert Legal(Apply(w, a), []) && After(Apply(w, a), []) == Apply(w, a);
  }

  lemma TwoSteps(w: World, a: Action, b: Action)
    requires Enabled(w, a) && Enabled(Apply(w, a), b)
    ensures Legal(w, [a, b]) && After(w, [a, b]) == Apply(Apply(w, a), b)
  {
    hide Enabled, Apply;
    LegalOne(w, a);
    LegalOne(Apply(w, a), b);
    LegalConcat(w, [a], [b]);
    assert [a] + [b] == [a, b];
  }

  /** No entry is ever evicted: fewer than 64 other attempts are open at each begin. */
  predicate Roomy(w: World, a: Action) {
    a.Begin? ==> |w.open| < MAX_OPEN
  }

  predicate RoomyRun(w: World, run: seq<Action>)
    requires Legal(w, run)
    decreases |run|
  {
    run == [] || (Roomy(w, run[0]) && RoomyRun(Apply(w, run[0]), run[1..]))
  }

  lemma RoomyDropsNothing(w: World, a: Action)
    requires Enabled(w, a) && Roomy(w, a) && a.Begin?
    ensures a.drop == {}
  {
    assert |w.open + {a.key}| == |w.open| + 1;
  }

  lemma {:induction false} RoomyEvictsNothing(w: World, run: seq<Action>)
    requires Legal(w, run) && RoomyRun(w, run)
    ensures After(w, run).evicted == w.evicted
    decreases |run|
  {
    if run != [] {
      if run[0].Begin? { RoomyDropsNothing(w, run[0]); }
      RoomyEvictsNothing(Apply(w, run[0]), run[1..]);
    }
  }

  // ----- what every reachable world satisfies --------------------------------

  predicate StageRecordOk(staged: set<string>, rec: Rec) {
    rec.event == STAGE ==>
      var p := PendingFromRecord(rec.fields);
      && p.Some?
      && (p.value.clientId == "" <==> p.value.signal.None?)
      && (p.value.clientId != "" ==> p.value.clientId in staged)
      && FloatOrZero(Lookup(rec.fields, "expires_at")) == Some(p.value.expiresAt)
  }

  predicate RecordsOk(w: World) {
    forall i :: 0 <= i < |w.log.full| ==> StageRecordOk(w.staged, w.log.full[i])
  }

  /** Keys: staged and automatic ones are apart, and nothing else is in play. */
  ghost predicate Minted(w: World) {
    && w.staged !! w.auto && "" !in w.staged + w.auto
    && w.open <= w.staged + w.auto
    && (forall k :: k in w.sent ==> k in w.staged + w.auto)
  }

  ghost predicate InFlight(w: World) {
    && (Pend(w).Some? ==> var p := Pend(w).value;
        (p.clientId == "" <==> p.signal.None?) && (p.clientId != "" ==> p.clientId in w.staged))
    && (PcKey(w) != "" ==> PcKey(w) in w.staged + w.auto)
    && (PcKey(w) in w.staged ==> Holds(w, PcKey(w)))
    && (w.proc.Up? && !w.proc.pc.Idle? ==> PcKey(w) != "")
  }

  ghost predicate KeysOk(w: World) {
    w.log.Valid() && |w.open| <= MAX_OPEN && Minted(w) && InFlight(w) && RecordsOk(w)
  }

  /** The journal's answer is the desk's memory, unless the last confirm record was lost
      (`dirty`). */
  ghost predicate Replayed(w: World) {
    w.log.Valid() && (w.proc.Up? && !w.dirty && w.proc.pending.Some? ==>
      var rec := LastOf(w.log.full, CONFIRM);
      && rec.Some? && rec.value.event == STAGE
      && PendingFromRecord(rec.value.fields) == w.proc.pending
      && FloatOrZero(Lookup(rec.value.fields, "expires_at")) == Some(w.proc.pending.value.expiresAt))
  }

  /** The client key of a stage record, or "". */
  function RecKey(rec: Option<Rec>): string {
    if rec.None? || rec.value.event != STAGE then ""
    else
      var p := PendingFromRecord(rec.value.fields);
      if p.None? then "" else p.value.clientId
  }

  /** Some record of the log stages this key. */
  predicate Recorded(log: Log, key: string) {
    exists i :: 0 <= i < |log.full| && RecKey(Some(log.full[i])) == key
  }

  /** When the last confirm record was lost, the pending in memory is in no record. */
  ghost predicate LostIsNowhere(w: World) {
    w.proc.Up? && w.dirty && w.proc.pending.Some? && w.proc.pending.value.clientId != "" ==>
      !Recorded(w.log, w.proc.pending.value.clientId)
  }

  ghost predicate Inv(w: World) {
    KeysOk(w) && Replayed(w) && LostIsNowhere(w)
  }

  lemma LastOfMember(s: seq<Rec>, names: set<string>)
    requires LastOf(s, names).Some?
    ensures LastOf(s, names).value in s && LastOf(s, names).value.event in names
  {
  }

  /** What a restart restores is a staged order the log vouches for. */
  lemma RestoreFacts(w: World, now: real)
    requires w.log.Valid() && RecordsOk(w) && Restore(w.log, now).Some?
    ensures var p := Restore(w.log, now);
            var rec := LastOf(w.log.full, CONFIRM);
            && (p.value.clientId == "" <==> p.value.signal.None?)
            && (p.value.clientId != "" ==> p.value.clientId in w.staged)
            && rec.Some? && rec == LastOf(w.log.Live(), CONFIRM) && rec.value.event == STAGE
            && PendingFromRecord(rec.value.fields) == p
            && FloatOrZero(Lookup(rec.value.fields, "expires_at")) == Some(p.value.expiresAt)
  {
    hide PendingFromRecord, FloatOrZero, Lookup;
    LiveNeverDisagrees(w.log, CONFIRM);
    LastOfMember(w.log.full, CONFIRM);
  }

  lemma StageRecordWritten(staged: set<string>, p: Pending, bytes: nat)
    requires Restorable(p) && (p.clientId == "" <==> p.signal.None?)
    ensures StageRecordOk(staged + {p.clientId}, Rec(STAGE, RecordOf(p), bytes))
  {
    hide PendingFromRecord, RecordOf;
    RecordRoundTrip(p);
    ExpiryOfRecord(p);
  }

  lemma RecordStays(staged: set<string>, more: set<string>, rec: Rec)
    requires StageRecordOk(staged, rec) && staged - {""} <= more
    ensures StageRecordOk(more, rec)
  {
    hide PendingFromRecord, Lookup, FloatOrZero;
  }

  /** A write adds its record or none. */
  lemma PutAdds(l: Log, rec: Rec, end: WriteEnd)
    requires l.Valid()
    ensures l.Put(rec, end).full == if l.Lands(rec, end) then l.full + [rec] else l.full
  {
  }

  lemma PutKeepsRecords(staged: set<string>, more: set<string>, l: Log, rec: Rec, end: WriteEnd)
    requires l.Valid() && staged <= more && StageRecordOk(more, rec)
    requires forall i :: 0 <= i < |l.full| ==> StageRecordOk(staged, l.full[i])
    ensures forall i :: 0 <= i < |l.Put(rec, end).full| ==> StageRecordOk(more, l.Put(rec, end).full[i])
  {
    hide StageRecordOk;
    PutAdds(l, rec, end);
    var full := l.Put(rec, end).full;
    forall i | 0 <= i < |full| ensures StageRecordOk(more, full[i]) {
      if i < |l.full| { RecordStays(staged, more, l.full[i]); }
    }
  }

  /** Every stage record of the log stays that of a staged order. */
  lemma RecordsStep(w: World, a: Action)
    requires KeysOk(w) && Enabled(w, a)
    ensures RecordsOk(Apply(w, a))
  {
    hide StageRecordOk, Restore, RecordOf, LastOf;
    assert CANCEL != STAGE && SENT != STAGE by { assert |STAGE| == 13 && |CANCEL| == 14 && |SENT| == 12; }
    match a {
      case Stage(p, _, bytes, end) =>
        var staged := Apply(w, a).staged;
        StageRecordWritten(w.staged, p, bytes);
        RecordStays(w.staged + {p.clientId}, staged, Rec(STAGE, RecordOf(p), bytes));
        PutKeepsRecords(w.staged, staged, w.log, Rec(STAGE, RecordOf(p), bytes), end);
      case Clear(event, bytes, end) => OtherPut(w, ClearRec(w, event, bytes), end);
      case Finish(event, bytes, end) => OtherPut(w, ClearRec(w, event, bytes), end);
      case Note(rec, end) => OtherPut(w, rec, end);
      case _ =>
    }
  }

  lemma OtherPut(w: World, rec: Rec, end: WriteEnd)
    requires w.log.Valid() && RecordsOk(w) && rec.event != STAGE
    ensures RecordsOk(w.(log := w.log.Put(rec, end)))
  {
    PutKeepsRecords(w.staged, w.staged, w.log, rec, end);
  }

  lemma EvictionFits(w: World, key: string, drop: set<string>)
    requires Evicts(w, key, drop)
    ensures |w.open + {key} - drop| <= MAX_OPEN
  {
    assert |w.open + {key} - drop| + |drop| == |w.open + {key}| by {
      assert (w.open + {key} - drop) + drop == w.open + {key};
    }
  }

  lemma FewerOpen(w: World, key: string)
    requires |w.open| <= MAX_OPEN
    ensures |w.open - {key}| <= MAX_OPEN
  {
    SubsetSize(w.open - {key}, w.open);
  }

  lemma MintedBegins(w: World, key: string, drop: set<string>)
    requires KeysOk(w) && Enabled(w, Begin(key, drop))
    ensures var w' := Apply(w, Begin(key, drop));
            w'.log.Valid() && |w'.open| <= MAX_OPEN && Minted(w')
  {
    hide RecordsOk;
    EvictionFits(w, key, drop);
  }

  lemma MintedGoesOn(w: World, a: Action)
    requires KeysOk(w) && Enabled(w, a) && !a.Begin?
    ensures Apply(w, a).log.Valid() && |Apply(w, a).open| <= MAX_OPEN && Minted(Apply(w, a))
  {
    hide RecordsOk, Restore, RecordOf, LastOf, Restorable, Evicts;
    if a.Settle? { FewerOpen(w, w.proc.pc.key); }
    if a.Transmit? { assert w.proc.pc.key in w.staged + w.auto; }
  }

  lemma MintedStep(w: World, a: Action)
    requires KeysOk(w) && Enabled(w, a)
    ensures Apply(w, a).log.Valid() && |Apply(w, a).open| <= MAX_OPEN && Minted(Apply(w, a))
  {
    hide KeysOk, Enabled, Apply, Minted;
    if a.Begin? { MintedBegins(w, a.key, a.drop); } else { MintedGoesOn(w, a); }
  }

  lemma InFlightRestores(w: World, now: real)
    requires KeysOk(w) && Enabled(w, Restart(now))
    ensures InFlight(Apply(w, Restart(now)))
  {
    if Restore(w.log, now).Some? { RestoreFacts(w, now); }
    hide Restore, Minted, RecordsOk;
  }

  lemma InFlightGoesOn(w: World, a: Action)
    requires KeysOk(w) && Enabled(w, a) && !a.Restart?
    ensures InFlight(Apply(w, a))
  {
    hide RecordsOk, RecordOf, LastOf, Evicts;
  }

  lemma InFlightStep(w: World, a: Action)
    requires KeysOk(w) && Enabled(w, a)
    ensures InFlight(Apply(w, a))
  {
    hide KeysOk, Enabled, Apply, InFlight;
    if a.Restart? { InFlightRestores(w, a.now); } else { InFlightGoesOn(w, a); }
  }

  lemma KeysStep(w: World, a: Action)
    requires KeysOk(w) && Enabled(w, a)
    ensures KeysOk(Apply(w, a))
  {
    RecordsStep(w, a);
    MintedStep(w, a);
    InFlightStep(w, a);
    hide Enabled, Apply, Minted, InFlight, RecordsOk;
  }

  /** A confirm record leaves its own pending in memory and, if it lands, in the log. */
  lemma ReplayStep(w: World, a: Action)
    requires KeysOk(w) && Replayed(w) && Enabled(w, a)
    ensures Replayed(Apply(w, a))
  {
    hide Minted, InFlight;
    match a {
      case Stage(p, _, bytes, end) => StageReplays(w, p, bytes, end);
      case Note(rec, end) => LiveAfterPut(w.log, CONFIRM, rec, end);
      case Restart(now) =>
        if Restore(w.log, now).Some? { RestoreFacts(w, now); }
      case _ =>
    }
  }

  lemma StageReplays(w: World, p: Pending, bytes: nat, end: WriteEnd)
    requires w.log.Valid() && Restorable(p)
    ensures var rec := Rec(STAGE, RecordOf(p), bytes);
            Replayed(Confirmed(w, Up(Some(p), Idle), rec, end))
  {
    hide PendingFromRecord, RecordOf, Restorable;
    LiveAfterPut(w.log, CONFIRM, Rec(STAGE, RecordOf(p), bytes), end);
    RecordRoundTrip(p);
    ExpiryOfRecord(p);
  }

  /** A key that was never staged is in no record. */
  lemma FreshIsNowhere(w: World, key: string)
    requires RecordsOk(w) && Fresh(w, key)
    ensures !Recorded(w.log, key)
  {
    hide PendingFromRecord, FloatOrZero, Lookup;
    forall i | 0 <= i < |w.log.full| ensures RecKey(Some(w.log.full[i])) != key {
      assert StageRecordOk(w.staged, w.log.full[i]);
    }
  }

  /** Only a stage record that lands records a key. */
  lemma PutRecords(l: Log, rec: Rec, end: WriteEnd, key: string)
    requires l.Valid() && (l.Lands(rec, end) ==> RecKey(Some(rec)) != key)
    ensures Recorded(l.Put(rec, end), key) ==> Recorded(l, key)
  {
    hide RecKey;
    PutAdds(l, rec, end);
    if i :| 0 <= i < |l.Put(rec, end).full| && RecKey(Some(l.Put(rec, end).full[i])) == key {
      assert i < |l.full| && l.full[i] == l.Put(rec, end).full[i];
    }
  }

  lemma LostStep(w: World, a: Action)
    requires KeysOk(w) && LostIsNowhere(w) && Enabled(w, a)
    ensures LostIsNowhere(Apply(w, a))
  {
    hide Minted, InFlight, RecordsOk, Recorded, RecKey, Restore, RecordOf, Restorable;
    match a {
      case Stage(p, _, bytes, end) =>
        var rec := Rec(STAGE, RecordOf(p), bytes);
        if p.clientId != "" && !w.log.Lands(rec, end) {
          FreshIsNowhere(w, p.clientId);
          PutRecords(w.log, rec, end, p.clientId);
        }
      case Note(rec, end) =>
        if Pend(w).Some? && Pend(w).value.clientId != "" {
          assert RecKey(Some(rec)) == "" by { NoteHasNoKey(rec); }
          PutRecords(w.log, rec, end, Pend(w).value.clientId);
        }
      case _ =>
    }
  }

  lemma NoteHasNoKey(rec: Rec)
    requires rec.event !in CONFIRM
    ensures RecKey(Some(rec)) == ""
  {
  }

  lemma InvStep(w: World, a: Action)
    requires Inv(w) && Enabled(w, a)
    ensures Inv(Apply(w, a))
  {
    hide KeysOk, Replayed, LostIsNowhere, Enabled, Apply;
    KeysStep(w, a);
    ReplayStep(w, a);
    LostStep(w, a);
  }

  /** The key in memory is in the log exactly when its record was not lost. */
  lemma RecordedExactly(w: World)
    requires Inv(w) && w.proc.Up? && w.proc.pending.Some? && w.proc.pending.value.clientId != ""
    ensures Recorded(w.log, w.proc.pending.value.clientId) <==> !w.dirty
  {
    hide KeysOk, PendingFromRecord, FloatOrZero, Lookup;
    if !w.dirty {
      LastOfMember(w.log.full, CONFIRM);
      var i :| 0 <= i < |w.log.full| && w.log.full[i] == LastOf(w.log.full, CONFIRM).value;
      assert RecKey(Some(w.log.full[i])) == w.proc.pending.value.clientId;
    }
  }

  lemma {:induction false} RunKeepsInv(w: World, run: seq<Action>)
    requires Inv(w) && Legal(w, run)
    ensures Inv(After(w, run))
    decreases |run|
  {
    hide Inv, Enabled, Apply;
    if run != [] {
      InvStep(w, run[0]);
      RunKeepsInv(Apply(w, run[0]), run[1..]);
    }
  }

  lemma InitOk()
    ensures Inv(INIT)
  {
  }

  // ----- the books of the ledger ----------------------------------------------

  /** For one key: verdicts and evictions account for its transmissions, up to the one
      attempt that may be open. */
  predicate Booked(w: World, k: string) {
    && w.settled[k] <= w.sent[k] <= w.settled[k] + w.evicted[k] + 1
    && (k !in w.open ==> w.sent[k] <= w.settled[k] + w.evicted[k])
    && (w.proc.Up? && !w.proc.pc.Idle? && PcKey(w) == k ==>
          match w.proc.pc
          case Begun(_) => w.sent[k] + (if k in w.open then 0 else 1) <= w.settled[k] + w.evicted[k]
          case Wire(_) => w.sent[k] >= w.settled[k] + 1
          case Answered(_) => w.sent[k] >= w.settled[k] + 1
          case Settled(_) => k !in w.open
          case Idle => true)
  }

  lemma BookedStep(w: World, a: Action, k: string)
    requires Booked(w, k) && Enabled(w, a)
    ensures Booked(Apply(w, a), k)
  {
    hide Fresh, RecordOf, Restore, Restorable;
  }

  lemma {:induction false} RunKeepsBooks(w: World, run: seq<Action>, k: string)
    requires Booked(w, k) && Legal(w, run)
    ensures Booked(After(w, run), k)
    decreases |run|
  {
    hide Booked, Enabled, Apply;
    if run != [] {
      BookedStep(w, run[0], k);
      RunKeepsBooks(Apply(w, run[0]), run[1..], k);
    }
  }

  /** The same without evictions: the ledger holds exactly the open attempts. */
  ghost predicate Accounted(w: World) {
    && (forall k :: w.settled[k] <= w.sent[k] <= w.settled[k] + 1)
    && (forall k :: k !in w.open ==> w.sent[k] == w.settled[k])
    && (w.proc.Up? && !w.proc.pc.Idle? ==>
          if w.proc.pc.Begun? then PcKey(w) in w.open && w.sent[PcKey(w)] == w.settled[PcKey(w)]
          else if w.proc.pc.Settled? then PcKey(w) !in w.open
          else PcKey(w) in w.open && w.sent[PcKey(w)] == w.settled[PcKey(w)] + 1)
  }

  lemma RunIsAccounted(run: seq<Action>)
    requires Legal(INIT, run) && RoomyRun(INIT, run)
    ensures Accounted(After(INIT, run))
  {
    RoomyEvictsNothing(INIT, run);
    var w := After(INIT, run);
    forall k ensures Booked(w, k) && w.evicted[k] == 0 && (k !in w.open ==> w.sent[k] == w.settled[k]) {
      RunKeepsBooks(INIT, run, k);
    }
    if w.proc.Up? && !w.proc.pc.Idle? { assert Booked(w, PcKey(w)); }
  }

  /** A begin keeps those books exactly when it evicts no unsettled attempt. */
  lemma BeginKeepsAccountsExactly(w: World, key: string, drop: set<string>)
    requires Accounted(w) && KeysOk(w) && Enabled(w, Begin(key, drop))
    ensures Accounted(Apply(w, Begin(key, drop))) <==>
            key !in drop && forall k :: k in drop ==> w.sent[k] == w.settled[k]
  {
    hide KeysOk;
    var w' := Apply(w, Begin(key, drop));
    assert w'.sent == w.sent && w'.settled == w.settled && PcKey(w') == key;
    if Accounted(w') {
      forall k | k in drop ensures w.sent[k] == w.settled[k] {
        assert k !in w'.open;
      }
    }
  }

  // ----- main result 1: one open attempt per key -------------------------------

  /** Over every run (crashes, timeouts, failed writes, restarts, evictions and repeated
      confirms in any order): a key has at most one transmission that neither a settled
      verdict nor an eviction accounts for, a key absent from the ledger has none, and
      none is there when the next transmission is about to happen. Without evictions that
      is one open attempt per key, and the ledger shows it. */
  lemma OneOpenAttempt(run: seq<Action>, key: string)
    requires Legal(INIT, run)
    ensures var w := After(INIT, run);
            && w.settled[key] <= w.sent[key] <= w.settled[key] + w.evicted[key] + 1
            && (key !in w.open ==> w.sent[key] <= w.settled[key] + w.evicted[key])
            && (Enabled(w, Transmit) && w.proc.pc.key == key ==> w.sent[key] <= w.settled[key] + w.evicted[key])
    ensures RoomyRun(INIT, run) ==>
              var w := After(INIT, run);
              && w.settled[key] <= w.sent[key] <= w.settled[key] + 1
              && (key !in w.open ==> w.sent[key] == w.settled[key])
              && (Enabled(w, Transmit) && w.proc.pc.key == key ==> key in w.open && w.sent[key] == w.settled[key])
  {
    RunKeepsBooks(INIT, run, key);
    if RoomyRun(INIT, run) { RunIsAccounted(run); }
  }

  // ----- main result 2: journal replay simulates memory -------------------------

  predicate Notes(run: seq<Action>) {
    forall i :: 0 <= i < |run| ==> run[i].Note?
  }

  /** The records of a start change no confirm answer; a rotation may hide it. */
  lemma {:induction false} NotesKeep(w: World, notes: seq<Action>)
    requires w.proc.Down? && Legal(w, notes) && Notes(notes)
    ensures var v := After(w, notes);
            && v == w.(log := v.log) && v.log.Valid() == w.log.Valid()
            && (w.log.Valid() ==>
                  && LastOf(v.log.full, CONFIRM) == LastOf(w.log.full, CONFIRM)
                  && LastOf(v.log.Live(), CONFIRM) in {LastOf(w.log.Live(), CONFIRM), None})
    decreases |notes|
  {
    hide LastOf;
    if notes != [] {
      LiveAfterPut(w.log, CONFIRM, notes[0].rec, notes[0].end);
      assert Notes(notes[1..]) by {
        forall i | 0 <= i < |notes[1..]| ensures notes[1..][i].Note? { assert notes[1..][i] == notes[i + 1]; }
      }
      NotesKeep(Apply(w, notes[0]), notes[1..]);
    }
  }

  /** A crash at any point and a start, with any records it writes before it restores: the
      pending the desk held comes back exactly when its stage record is in the log, it has
      not expired and its record was not rotated out; else its key does not come back. A
      close carries no key: it comes back if its record was the last to be written. */
  lemma ReplayRestoresMemory(run: seq<Action>, notes: seq<Action>, now: real)
    requires Legal(INIT, run)
    requires Enabled(After(INIT, run), Crash) && Legal(Apply(After(INIT, run), Crash), notes) && Notes(notes)
    ensures var w := After(INIT, run);
            var starting := After(Apply(w, Crash), notes);
            Enabled(starting, Restart(now)) && (w.proc.pending.Some? ==>
              var p := w.proc.pending.value;
              var restarted := Apply(starting, Restart(now));
              var shown := now <= p.expiresAt && LastOf(starting.log.Live(), CONFIRM).Some?;
              && (p.clientId != "" ==>
                    && (Pend(restarted) == Some(p) <==> Recorded(w.log, p.clientId) && shown)
                    && (Holds(restarted, p.clientId) <==> Recorded(w.log, p.clientId) && shown))
              && (!w.dirty ==> Pend(restarted) == if shown then Some(p) else None))
  {
    InitOk();
    RunKeepsInv(INIT, run);
    var w := After(INIT, run);
    NotesKeep(Apply(w, Crash), notes);
    var starting := After(Apply(w, Crash), notes);
    if w.proc.pending.Some? { RestoredExactly(w, starting.log, now); }
  }

  /** What a log with the same last confirm record restores. */
  lemma RestoredExactly(w: World, log: Log, now: real)
    requires Inv(w) && Pend(w).Some? && log.Valid()
    requires LastOf(log.full, CONFIRM) == LastOf(w.log.full, CONFIRM)
    ensures var p := Pend(w).value;
            var shown := now <= p.expiresAt && LastOf(log.Live(), CONFIRM).Some?;
            && (!w.dirty ==> Restore(log, now) == if shown then Some(p) else None)
            && (p.clientId != "" && Restore(log, now).Some? && Restore(log, now).value.clientId == p.clientId ==>
                  Recorded(w.log, p.clientId))
            && (p.clientId != "" ==> (Recorded(w.log, p.clientId) <==> !w.dirty))
  {
    hide KeysOk, PendingFromRecord, FloatOrZero, Lookup;
    var p := Pend(w).value;
    LiveNeverDisagrees(log, CONFIRM);
    if p.clientId != "" {
      RecordedExactly(w);
      if Restore(log, now).Some? && Restore(log, now).value.clientId == p.clientId {
        LastOfMember(w.log.full, CONFIRM);
        var i :| 0 <= i < |w.log.full| && w.log.full[i] == LastOf(w.log.full, CONFIRM).value;
        assert RecKey(Some(w.log.full[i])) == p.clientId;
      }
    }
  }

  // ----- main result 3: a staged key is transmitted at most once ----------------

  /** The client key that a restart could bring back, or "". */
  function LogKey(log: Log): string
    requires log.Valid()
  {
    RecKey(LastOf(log.Live(), CONFIRM))
  }

  /** The desk holds the key, or a restart may bring it back. */
  predicate Armed(w: World, key: string)
    requires w.log.Valid()
  {
    Holds(w, key) || LogKey(w.log) == key
  }

  /** A minted key that no later step can put on the wire while its entry stays. */
  predicate Dead(w: World, key: string) {
    && w.log.Valid()
    && key in w.staged + w.auto && key != PcKey(w)
    && (key in w.open || !Armed(w, key))
  }

  lemma LogKeyAfterPut(l: Log, rec: Rec, end: WriteEnd)
    requires l.Valid()
    ensures LogKey(l.Put(rec, end)) in {LogKey(l), "", RecKey(Some(rec))}
    ensures rec.event !in CONFIRM ==> LogKey(l.Put(rec, end)) in {LogKey(l), ""}
    ensures rec.event in CONFIRM && l.Lands(rec, end) ==> LogKey(l.Put(rec, end)) == RecKey(Some(rec))
  {
    hide PendingFromRecord, LastOf;
    LiveAfterPut(l, CONFIRM, rec, end);
  }

  lemma RecKeyOfStage(p: Pending, bytes: nat)
    requires Restorable(p)
    ensures RecKey(Some(Rec(STAGE, RecordOf(p), bytes))) == p.clientId
  {
    hide PendingFromRecord, RecordOf;
    RecordRoundTrip(p);
  }

  lemma RecKeyOfClear(w: World, event: string, bytes: nat)
    requires Pend(w).Some? && event in {CANCEL, SENT}
    ensures RecKey(Some(ClearRec(w, event, bytes))) == "" && event in CONFIRM
  {
    hide PendingFromRecord, RecordOf;
    assert CANCEL != STAGE && SENT != STAGE by { assert |STAGE| == 13 && |CANCEL| == 14 && |SENT| == 12; }
  }

  lemma RestoreHolds(log: Log, now: real)
    requires log.Valid() && Restore(log, now).Some?
    ensures Restore(log, now).value.clientId == LogKey(log)
  {
    hide PendingFromRecord, LastOf, FloatOrZero, Lookup;
  }

  lemma DisarmedStays(w: World, a: Action, key: string)
    requires KeysOk(w) && Enabled(w, a) && key in w.staged + w.auto && !Armed(w, key)
    ensures !Armed(Apply(w, a), key)
  {
    hide RecordsOk, LogKey, RecKey, RecordOf, Restore, LastOf;
    match a {
      case Stage(p, _, bytes, end) =>
        LogKeyAfterPut(w.log, Rec(STAGE, RecordOf(p), bytes), end);
        RecKeyOfStage(p, bytes);
      case Clear(event, bytes, end) =>
        LogKeyAfterPut(w.log, ClearRec(w, event, bytes), end);
        RecKeyOfClear(w, event, bytes);
      case Finish(event, bytes, end) =>
        LogKeyAfterPut(w.log, ClearRec(w, event, bytes), end);
        RecKeyOfClear(w, event, bytes);
      case Note(rec, end) => LogKeyAfterPut(w.log, rec, end);
      case Restart(now) =>
        if Restore(w.log, now).Some? { RestoreHolds(w.log, now); }
      case _ =>
    }
  }

  /** Only staged keys are ever held or restorable. */
  lemma ArmedIsStaged(w: World, key: string)
    requires KeysOk(w) && Armed(w, key) && key != ""
    ensures key in w.staged
  {
    hide Minted, PendingFromRecord, FloatOrZero, Lookup;
    if LogKey(w.log) == key {
      LastOfMember(w.log.Live(), CONFIRM);
      var i :| 0 <= i < |w.log.Live()| && w.log.Live()[i] == LastOf(w.log.Live(), CONFIRM).value;
      assert StageRecordOk(w.staged, w.log.full[w.log.liveFrom + i]);
    }
  }

  lemma DeadStays(w: World, a: Action, key: string)
    requires KeysOk(w) && Enabled(w, a) && Dead(w, key) && (a.Begin? ==> key !in a.drop)
    ensures Dead(Apply(w, a), key) && Apply(w, a).sent[key] == w.sent[key]
  {
    hide LogKey, RecordsOk, RecordOf, Restore;
    if !Armed(w, key) { DisarmedStays(w, a, key); }
    assert !(a.Begin? && a.key == key);
  }

  lemma EvictedGrows(w: World, a: Action, key: string)
    requires Enabled(w, a)
    ensures w.evicted[key] <= Apply(w, a).evicted[key]
    ensures a.Begin? && key in a.drop ==> w.evicted[key] < Apply(w, a).evicted[key]
  {
    hide RecordOf, Restore, Fresh, Restorable;
  }

  lemma {:induction false} RunEvictsMore(w: World, run: seq<Action>, key: string)
    requires Legal(w, run)
    ensures w.evicted[key] <= After(w, run).evicted[key]
    decreases |run|
  {
    hide Enabled, Apply;
    if run != [] {
      EvictedGrows(w, run[0], key);
      RunEvictsMore(Apply(w, run[0]), run[1..], key);
    }
  }

  /** A dead key stays off the wire for as long as its ledger entry is not evicted. */
  lemma {:induction false} DeadForever(w: World, run: seq<Action>, key: string)
    requires Inv(w) && Legal(w, run) && Dead(w, key) && After(w, run).evicted[key] == w.evicted[key]
    ensures After(w, run).sent[key] == w.sent[key]
    decreases |run|
  {
    hide Inv, Enabled, Apply, Dead;
    if run != [] {
      var w1 := Apply(w, run[0]);
      EvictedGrows(w, run[0], key);
      RunEvictsMore(w1, run[1..], key);
      KeysOfInv(w);
      DeadStays(w, run[0], key);
      InvStep(w, run[0]);
      DeadForever(w1, run[1..], key);
    }
  }

  lemma KeysOfInv(w: World)
    requires Inv(w)
    ensures KeysOk(w)
  {
  }

  predicate OnWire(w: World, key: string) {
    w.proc.Up? && !w.proc.pc.Idle? && !w.proc.pc.Begun? && w.proc.pc.key == key
  }

  function Used(w: World, k: string): int {
    w.sent[k] as int - w.evicted[k] as int - w.slips[k] as int
  }

  /** What is left of a key's budget of `c` transmissions: an eviction or a slip buys one
      more, and a key that has used all of them is on the wire or dead. */
  ghost predicate Owed(w: World, k: string, c: int) {
    var x := Used(w, k);
    && x <= c
    && (x == c ==> Dead(w, k) || OnWire(w, k))
    && (PcKey(w) == k && w.proc.Up? && w.proc.pc.Begun? && k !in w.open ==> x <= c - 2)
    && (PcKey(w) == k && w.proc.Up? && (w.proc.pc.Wire? || w.proc.pc.Answered?) && k !in w.open ==> x <= c - 1)
  }

  /** A key that is not in the hands of the send call. */
  lemma OwedAside(w: World, a: Action, k: string, c: int)
    requires KeysOk(w) && Enabled(w, a) && Owed(w, k, c) && k != "" && PcKey(w) != k && !(a.Begin? && a.key == k)
    ensures Owed(Apply(w, a), k, c)
  {
    hide Armed, RecordsOk, RecordOf, Restore, Minted, Restorable;
    var w' := Apply(w, a);
    assert PcKey(w') != k;
    assert w'.sent[k] == w.sent[k] && w'.slips[k] == w.slips[k];
    EvictedGrows(w, a, k);
    if Used(w, k) == c && !(a.Begin? && k in a.drop) {
      DeadStays(w, a, k);
    }
  }

  lemma OwedBegins(w: World, drop: set<string>, k: string, c: int)
    requires KeysOk(w) && Enabled(w, Begin(k, drop)) && Owed(w, k, c)
    ensures Owed(Apply(w, Begin(k, drop)), k, c)
  {
    hide LogKey, RecordsOk;
    var w' := Apply(w, Begin(k, drop));
    assert w'.sent[k] == w.sent[k] && w'.slips[k] == w.slips[k];
    EvictedGrows(w, Begin(k, drop), k);
    assert !OnWire(w, k);
    assert !Dead(w, k);
  }

  /** The send call that carries the key moves on. */
  lemma OwedMoves(w: World, a: Action, k: string, c: int)
    requires KeysOk(w) && Enabled(w, a) && Owed(w, k, c) && k != "" && PcKey(w) == k && !w.proc.pc.Settled?
    ensures Owed(Apply(w, a), k, c)
  {
    hide Armed, RecordsOk, RecordOf, Restore, Restorable;
    var w' := Apply(w, a);
    assert w'.evicted[k] == w.evicted[k] && w'.slips[k] == w.slips[k];
    assert w'.sent[k] == w.sent[k] + if a.Transmit? then 1 else 0;
  }

  /** The settled key: cleared for good, or slipped. */
  lemma OwedEnds(w: World, a: Action, k: string, c: int)
    requires KeysOk(w) && Enabled(w, a) && Owed(w, k, c) && k != "" && PcKey(w) == k && w.proc.pc.Settled?
    ensures Owed(Apply(w, a), k, c)
  {
    hide RecordsOk, RecordOf, Restore, Restorable, LogKey, RecKey;
    var w' := Apply(w, a);
    assert w'.evicted[k] == w.evicted[k] && w'.sent[k] == w.sent[k];
    if k in w.staged {
      if a.Finish? {
        LogKeyAfterPut(w.log, ClearRec(w, a.event, a.bytes), a.end);
        RecKeyOfClear(w, a.event, a.bytes);
      }
      assert a.Note? || w'.slips[k] == w.slips[k] + 1 || (a.Finish? && w.log.Lands(ClearRec(w, a.event, a.bytes), a.end));
    } else {
      if Armed(w, k) { ArmedIsStaged(w, k); }
      DisarmedStays(w, a, k);
    }
  }

  lemma OwedStep(w: World, a: Action, k: string, c: int)
    requires KeysOk(w) && Enabled(w, a) && Owed(w, k, c) && k != ""
    ensures Owed(Apply(w, a), k, c)
  {
    hide KeysOk, Owed, Enabled, Apply;
    if a.Begin? && a.key == k {
      OwedBegins(w, a.drop, k, c);
    } else if PcKey(w) != k {
      OwedAside(w, a, k, c);
    } else if w.proc.pc.Settled? {
      OwedEnds(w, a, k, c);
    } else {
      OwedMoves(w, a, k, c);
    }
  }

  lemma {:induction false} RunKeepsOwed(w: World, run: seq<Action>, k: string, c: int)
    requires Inv(w) && Legal(w, run) && Owed(w, k, c) && k != ""
    ensures Owed(After(w, run), k, c)
    decreases |run|
  {
    hide Inv, Owed, Enabled, Apply;
    if run != [] {
      KeysOfInv(w);
      OwedStep(w, run[0], k, c);
      InvStep(w, run[0]);
      RunKeepsOwed(Apply(w, run[0]), run[1..], k, c);
    }
  }

  /** On every run whatsoever: a key is transmitted at most once, plus once for each time
      its ledger entry was evicted and each time its settled pending was not cleared. */
  lemma SentWithinSlips(run: seq<Action>, key: string)
    requires Legal(INIT, run)
    ensures After(INIT, run).sent[key] <= 1 + After(INIT, run).evicted[key] + After(INIT, run).slips[key]
  {
    InitOk();
    if key != "" {
      RunKeepsOwed(INIT, run, key, 1);
    } else {
      RunKeepsInv(INIT, run);
    }
  }

  /** No crash, no exception and no lost record between a verdict of a staged order and
      the clearing of its pending. */
  predicate OutsideWindow(w: World, a: Action) {
    w.log.Valid() && w.proc.Up? && w.proc.pc.Settled? && w.proc.pc.key in w.staged ==>
      !a.Crash? && !a.Abandon?
      && (a.Finish? && Pend(w).Some? ==> w.log.Lands(ClearRec(w, a.event, a.bytes), a.end))
  }

  predicate CleanRun(w: World, run: seq<Action>)
    requires Legal(w, run)
    decreases |run|
  {
    run == [] || (OutsideWindow(w, run[0]) && CleanRun(Apply(w, run[0]), run[1..]))
  }

  lemma CleanStepSlipsNot(w: World, a: Action)
    requires Enabled(w, a) && OutsideWindow(w, a)
    ensures Apply(w, a).slips == w.slips
  {
    hide RecordOf, Restore, Fresh, Restorable;
  }

  lemma {:induction false} CleanSlipsNot(w: World, run: seq<Action>)
    requires Legal(w, run) && CleanRun(w, run)
    ensures After(w, run).slips == w.slips
    decreases |run|
  {
    hide Enabled, Apply, OutsideWindow;
    if run != [] {
      CleanStepSlipsNot(w, run[0]);
      CleanSlipsNot(Apply(w, run[0]), run[1..]);
    }
  }

  /** So with no eviction and a clean window each key is transmitted at most once. */
  lemma AtMostOnceInTotal(run: seq<Action>, key: string)
    requires Legal(INIT, run) && RoomyRun(INIT, run) && CleanRun(INIT, run)
    ensures After(INIT, run).sent[key] <= 1
  {
    SentWithinSlips(run, key);
    RoomyEvictsNothing(INIT, run);
    CleanSlipsNot(INIT, run);
  }

  // ----- the window, exactly --------------------------------------------------

  /** A clearing leaves its key restorable exactly when the stage record is in the log,
      the clearing record was lost (a failed write, or one that ran into an unfinished
      line) and the live file still shows a confirm event. Then a restart before the expiry
      restores the very order that was cleared. */
  lemma ClearingDisarms(w: World, event: string, bytes: nat, end: WriteEnd)
    requires Inv(w) && Pend(w).Some? && event in {CANCEL, SENT}
    ensures var p := Pend(w).value;
            var rec := ClearRec(w, event, bytes);
            var log := w.log.Put(rec, end);
            var comesBack := !w.log.Lands(rec, end) && LastOf(log.Live(), CONFIRM).Some?;
            && (p.clientId != "" ==> (LogKey(log) == p.clientId <==> Recorded(w.log, p.clientId) && comesBack))
            && (!w.dirty ==> forall now: real :: Restore(log, now) == if comesBack && now <= p.expiresAt then Some(p) else None)
  {
    hide KeysOk, RecordOf, PendingFromRecord, FloatOrZero, Lookup;
    var p, rec := Pend(w).value, ClearRec(w, event, bytes);
    LiveAfterPut(w.log, CONFIRM, rec, end);
    LogKeyAfterPut(w.log, rec, end);
    RecKeyOfClear(w, event, bytes);
    LiveNeverDisagrees(w.log.Put(rec, end), CONFIRM);
    if p.clientId != "" {
      RecordedExactly(w);
      if LogKey(w.log.Put(rec, end)) == p.clientId { LogKeyRecorded(w.log, p.clientId); }
    }
  }

  lemma LogKeyRecorded(l: Log, key: string)
    requires l.Valid() && LogKey(l) == key && key != ""
    ensures Recorded(l, key)
  {
    hide PendingFromRecord;
    LastOfMember(l.Live(), CONFIRM);
    var i :| 0 <= i < |l.Live()| && l.Live()[i] == LastOf(l.Live(), CONFIRM).value;
    assert RecKey(Some(l.full[l.liveFrom + i])) == key;
  }

  /** So for the clearing after a verdict. */
  lemma FinishDisarmsExactly(w: World, event: string, bytes: nat, end: WriteEnd)
    requires Inv(w) && Enabled(w, Finish(event, bytes, end))
    ensures var w' := Apply(w, Finish(event, bytes, end));
            Armed(w', w.proc.pc.key) <==>
              && Recorded(w.log, w.proc.pc.key)
              && !w.log.Lands(ClearRec(w, event, bytes), end) && LastOf(w'.log.Live(), CONFIRM).Some?
  {
    hide RecordsOk, RecordOf, LogKey, Recorded;
    ClearingDisarms(w, event, bytes, end);
  }

  /** And for any other: the order of a cancel whose record was lost comes back. */
  lemma ClearDisarmsExactly(w: World, event: string, bytes: nat, end: WriteEnd)
    requires Inv(w) && Enabled(w, Clear(event, bytes, end)) && Pend(w).value.clientId != ""
    ensures var key, w' := Pend(w).value.clientId, Apply(w, Clear(event, bytes, end));
            Armed(w', key) <==>
              && Recorded(w.log, key)
              && !w.log.Lands(ClearRec(w, event, bytes), end) && LastOf(w'.log.Live(), CONFIRM).Some?
  {
    hide RecordsOk, RecordOf, LogKey, Recorded;
    ClearingDisarms(w, event, bytes, end);
  }

  /** Two records lost in a row: the desk holds the new order, and a start brings back the
      one that was cleared before it. */
  lemma OlderOrderReturns(w: World, clear: Action, stage: Action, now: real)
    requires Inv(w) && !w.dirty && clear.Clear? && Enabled(w, clear)
    requires stage.Stage? && Enabled(Apply(w, clear), stage)
    requires Apply(w, clear).dirty && Apply(Apply(w, clear), stage).dirty
    ensures var w2 := Apply(Apply(w, clear), stage);
            && Pend(w2) == Some(stage.p)
            && Restore(w2.log, now) ==
               if LastOf(w2.log.Live(), CONFIRM).Some? && now <= Pend(w).value.expiresAt then Pend(w) else None
  {
    hide Inv, RecordOf, Restore, Restorable, LastOf;
    var w1 := Apply(w, clear);
    LiveAfterPut(w.log, CONFIRM, ClearRec(w, clear.event, clear.bytes), clear.end);
    LiveAfterPut(w1.log, CONFIRM, Rec(STAGE, RecordOf(stage.p), stage.bytes), stage.end);
    RestoredExactly(w, Apply(w1, stage).log, now);
  }

  /** A cleared order can go out after all, exactly then, if it has no open attempt. */
  lemma ClearedResendsExactly(w: World, event: string, bytes: nat, end: WriteEnd)
    requires Inv(w) && Enabled(w, Clear(event, bytes, end)) && Pend(w).value.clientId != ""
    ensures var key, w' := Pend(w).value.clientId, Apply(w, Clear(event, bytes, end));
            (exists run :: Legal(w', run) && After(w', run).evicted[key] == w.evicted[key]
                           && After(w', run).sent[key] > w.sent[key])
            <==> && key !in w.open && Recorded(w.log, key)
                 && !w.log.Lands(ClearRec(w, event, bytes), end) && LastOf(w'.log.Live(), CONFIRM).Some?
  {
    hide RecordOf, Recorded, LastOf, Legal, After;
    InvStep(w, Clear(event, bytes, end));
    ClearDisarmsExactly(w, event, bytes, end);
    hide Inv, Armed;
    ClearedIsStaged(w);
    ResendExactly(Apply(w, Clear(event, bytes, end)), Pend(w).value.clientId);
  }

  lemma ClearedIsStaged(w: World)
    requires Inv(w) && Pend(w).Some? && Pend(w).value.clientId != ""
    ensures Pend(w).value.clientId in w.staged
  {
  }

  /** From a world at rest, a staged key can go out once more before its entry is evicted
      exactly when it is not in the ledger and is still armed: held by the desk, or the
      order a restart brings back. */
  lemma ResendExactly(w: World, key: string)
    requires Inv(w) && key in w.staged && (w.proc.Down? || w.proc.pc.Idle?)
    ensures (exists run :: Legal(w, run) && After(w, run).evicted[key] == w.evicted[key]
                           && After(w, run).sent[key] > w.sent[key])
            <==> key !in w.open && Armed(w, key)
  {
    if key !in w.open && Armed(w, key) {
      var run := ResendRun(w, key);
      assert Legal(w, run) && After(w, run).evicted[key] == w.evicted[key] && After(w, run).sent[key] > w.sent[key];
    } else {
      forall run | Legal(w, run) && After(w, run).evicted[key] == w.evicted[key]
        ensures After(w, run).sent[key] == w.sent[key]
      {
        DeadForever(w, run, key);
      }
    }
  }

  /** What a full ledger gives up for a new key. */
  lemma PickDrop(w: World, key: string, prefer: string) returns (drop: set<string>)
    requires |w.open| <= MAX_OPEN && key !in w.open && key != prefer
    ensures Evicts(w, key, drop) && key !in drop && drop <= w.open
    ensures |w.open| == MAX_OPEN && prefer in w.open ==> drop == {prefer}
    ensures |w.open| < MAX_OPEN ==> drop == {}
  {
    assert |w.open + {key}| == |w.open| + 1;
    if |w.open| < MAX_OPEN {
      drop := {};
    } else if prefer in w.open {
      drop := {prefer};
    } else {
      var k :| k in w.open;
      drop := {k};
    }
  }

  lemma SendHeld(w: World, key: string) returns (run: seq<Action>)
    requires KeysOk(w) && w.proc.Up? && w.proc.pc.Idle? && Holds(w, key) && key in w.staged && key !in w.open
    ensures Legal(w, run) && After(w, run).sent[key] == w.sent[key] + 1 && After(w, run).evicted[key] == w.evicted[key]
  {
    hide RecordsOk;
    var drop := PickDrop(w, key, "");
    run := [Begin(key, drop), Transmit];
    TwoSteps(w, Begin(key, drop), Transmit);
  }

  /** An armed key can be brought into the hands of a resting desk. */
  lemma HoldRun(w: World, key: string) returns (run: seq<Action>)
    requires Inv(w) && key in w.staged && Armed(w, key) && (w.proc.Down? || w.proc.pc.Idle?)
    ensures Legal(w, run)
    ensures var u := After(w, run);
            && Inv(u) && u.proc.Up? && u.proc.pc.Idle? && Holds(u, key)
            && u.open == w.open && u.sent == w.sent && u.evicted == w.evicted && u.staged == w.staged
  {
    if Holds(w, key) {
      run := [];
    } else {
      var now := ArmedExpiry(w, key);
      if w.proc.Down? {
        run := [Restart(now)];
        LegalOne(w, Restart(now));
      } else {
        run := [Crash, Restart(now)];
        TwoSteps(w, Crash, Restart(now));
      }
      RunKeepsInv(w, run);
    }
  }

  lemma ArmedExpiry(w: World, key: string) returns (now: real)
    requires KeysOk(w) && LogKey(w.log) == key && key != ""
    ensures Restore(w.log, now).Some? && Restore(w.log, now).value.clientId == key
  {
    hide PendingFromRecord, FloatOrZero, Lookup;
    var rec := LastOf(w.log.Live(), CONFIRM).value;
    LastOfMember(w.log.Live(), CONFIRM);
    var i :| 0 <= i < |w.log.Live()| && w.log.Live()[i] == rec;
    assert StageRecordOk(w.staged, w.log.full[w.log.liveFrom + i]);
    now := FloatOrZero(Lookup(rec.fields, "expires_at")).value;
  }

  lemma ResendRun(w: World, key: string) returns (run: seq<Action>)
    requires Inv(w) && key in w.staged && key !in w.open && Armed(w, key)
    requires w.proc.Down? || w.proc.pc.Idle?
    ensures Legal(w, run) && After(w, run).evicted[key] == w.evicted[key] && After(w, run).sent[key] > w.sent[key]
  {
    var hold := HoldRun(w, key);
    KeysOfInv(After(w, hold));
    var send := SendHeld(After(w, hold), key);
    LegalConcat(w, hold, send);
    run := hold + send;
  }

  // ----- what evictions allow, exactly ------------------------------------------

  lemma {:induction false} LongerThanAll(keys: set<string>) returns (n: nat)
    ensures forall k :: k in keys ==> |k| < n
    decreases |keys|
  {
    if keys == {} {
      n := 0;
    } else {
      var k :| k in keys;
      var m := LongerThanAll(keys - {k});
      n := if |k| < m then m else |k| + 1;
    }
  }

  lemma FreshKey(w: World) returns (key: string)
    requires KeysOk(w)
    ensures Fresh(w, key) && key !in w.open
  {
    var n := LongerThanAll(w.staged + w.auto);
    key := seq(n + 1, _ => 'k');
    assert |key| == n + 1;
  }

  /** An automatic send without a verdict: one more entry in the ledger, less what the
      cap drops. */
  lemma LostSend(w: World, key: string, drop: set<string>) returns (run: seq<Action>)
    requires KeysOk(w) && w.proc.Up? && w.proc.pc.Idle? && Fresh(w, key) && key !in w.open && Evicts(w, key, drop)
    requires !Holds(w, key)
    ensures Legal(w, run)
    ensures After(w, run) == w.(open := w.open + {key} - drop, auto := w.auto + {key},
                                evicted := w.evicted + multiset(drop), sent := w.sent + multiset{key})
  {
    hide RecordsOk, Minted, InFlight;
    var begin := Begin(key, drop);
    TwoSteps(w, begin, Transmit);
    var v := After(w, [begin, Transmit]);
    LegalOne(v, NoVerdict);
    LegalConcat(w, [begin, Transmit], [NoVerdict]);
    run := [begin, Transmit] + [NoVerdict];
  }

  /** It makes room for no one, or at the cap at the cost of `prefer`. */
  lemma FillRun(w: World, prefer: string) returns (run: seq<Action>)
    requires Inv(w) && w.proc.Up? && w.proc.pc.Idle? && Holds(w, prefer) && prefer in w.open && prefer != ""
    ensures Legal(w, run)
    ensures var u := After(w, run);
            && Inv(u) && u.proc == w.proc && u.log == w.log && u.staged == w.staged && u.sent[prefer] == w.sent[prefer]
            && (if |w.open| < MAX_OPEN then prefer in u.open && |u.open| == |w.open| + 1 else prefer !in u.open)
  {
    hide RecordsOk, Replayed;
    var key := FreshKey(w);
    var drop := PickDrop(w, key, prefer);
    run := LostSend(w, key, drop);
    RunKeepsInv(w, run);
    assert |w.open + {key}| == |w.open| + 1;
    assert w.open + {key} - {} == w.open + {key};
  }

  lemma {:induction false} EvictRun(w: World, key: string) returns (run: seq<Action>)
    requires Inv(w) && w.proc.Up? && w.proc.pc.Idle? && Holds(w, key) && key in w.staged && key in w.open
    ensures Legal(w, run)
    ensures var u := After(w, run);
            Inv(u) && u.proc == w.proc && u.staged == w.staged && u.sent[key] == w.sent[key] && key !in u.open
    decreases MAX_OPEN - |w.open|
  {
    run := FillRun(w, key);
    var u := After(w, run);
    if key in u.open {
      var rest := EvictRun(u, key);
      LegalConcat(w, run, rest);
      run := run + rest;
    }
  }

  /** With evictions allowed the ledger protects nobody for ever: from a world at rest a
      staged key can go out again on some run exactly when it is still armed, an open
      attempt in the ledger or not. */
  lemma ResendEver(w: World, key: string)
    requires Inv(w) && key in w.staged && (w.proc.Down? || w.proc.pc.Idle?)
    ensures (exists run :: Legal(w, run) && After(w, run).sent[key] > w.sent[key]) <==> Armed(w, key)
  {
    hide Enabled, Apply, Armed;
    if Armed(w, key) {
      var hold := HoldRun(w, key);
      var u := After(w, hold);
      var free: seq<Action> := [];
      if key in u.open {
        free := EvictRun(u, key);
      }
      var v := After(u, free);
      KeysOfInv(v);
      var send := SendHeld(v, key);
      LegalConcat(w, hold, free);
      LegalConcat(w, hold + free, send);
      var run := hold + free + send;
      assert Legal(w, run) && After(w, run).sent[key] > w.sent[key];
    } else {
      forall run | Legal(w, run) ensures After(w, run).sent[key] == w.sent[key] {
        DisarmedForever(w, run, key);
      }
    }
  }

  lemma DisarmedStep(w: World, a: Action, key: string)
    requires KeysOk(w) && Enabled(w, a) && key in w.staged && !Armed(w, key) && PcKey(w) != key
    ensures var w' := Apply(w, a);
            key in w'.staged && !Armed(w', key) && PcKey(w') != key && w'.sent[key] == w.sent[key]
  {
    hide LogKey, RecordsOk, RecordOf, Restore;
    DisarmedStays(w, a, key);
  }

  lemma {:induction false} DisarmedForever(w: World, run: seq<Action>, key: string)
    requires Inv(w) && Legal(w, run) && key in w.staged && !Armed(w, key) && PcKey(w) != key
    ensures After(w, run).sent[key] == w.sent[key]
    decreases |run|
  {
    hide Enabled, Apply, Armed;
    if run != [] {
      KeysOfInv(w);
      DisarmedStep(w, run[0], key);
      InvStep(w, run[0]);
      DisarmedForever(Apply(w, run[0]), run[1..], key);
    }
  }

  // ----- the window, by example ---------------------------------------------------

  /** A desk that holds `p`, alone in its journal, with its key sent `n` times and slipped
      `s` times. */
  function Holding(p: Pending, n: nat, s: nat): World {
    World(Up(Some(p), Idle), {}, Log([Rec(STAGE, RecordOf(p), 0)], 0, 0, false, true), false,
          {p.clientId}, {}, multiset{}[p.clientId := n], multiset{}[p.clientId := n], multiset{},
          multiset{}[p.clientId := s])
  }

  lemma StageReaches(p: Pending, now: real)
    requires Restorable(p) && p.signal.Some? && p.clientId != ""
    ensures var run := [Restart(now), Stage(p, now, 0, Landed)];
            Legal(INIT, run) && After(INIT, run) == Holding(p, 0, 0)
  {
    hide PendingFromRecord, RecordOf;
    assert Restore(EMPTY_LOG, now) == None;
    TwoSteps(INIT, Restart(now), Stage(p, now, 0, Landed));
    assert [] + [Rec(STAGE, RecordOf(p), 0)] == [Rec(STAGE, RecordOf(p), 0)];
    assert {} + {p.clientId} == {p.clientId};
  }

  lemma HoldingSends(p: Pending)
    requires p.clientId != ""
    ensures var k, w := p.clientId, Holding(p, 0, 0);
            && Legal(w, [Begin(k, {}), Transmit])
            && After(w, [Begin(k, {}), Transmit]) == w.(proc := Up(Some(p), Wire(k)), open := {k}, sent := multiset{k})
  {
    hide RecordOf;
    TwoSteps(Holding(p, 0, 0), Begin(p.clientId, {}), Transmit);
  }

  lemma HoldingSettles(p: Pending)
    requires p.clientId != ""
    ensures var k := p.clientId;
            var w := Holding(p, 0, 0).(proc := Up(Some(p), Wire(k)), open := {k}, sent := multiset{k});
            && Legal(w, [Verdict, Settle])
            && After(w, [Verdict, Settle]) == Holding(p, 1, 0).(proc := Up(Some(p), Settled(k)))
  {
    hide RecordOf;
    var k := p.clientId;
    TwoSteps(Holding(p, 0, 0).(proc := Up(Some(p), Wire(k)), open := {k}, sent := multiset{k}), Verdict, Settle);
  }

  lemma HoldingCrashes(p: Pending, now: real)
    requires Restorable(p) && now <= p.expiresAt
    ensures var w := Holding(p, 1, 0).(proc := Up(Some(p), Settled(p.clientId)));
            && Legal(w, [Crash, Restart(now)])
            && After(w, [Crash, Restart(now)]) == Holding(p, 1, 1)
  {
    hide PendingFromRecord, RecordOf;
    LogOfHolding(p, now);
    TwoSteps(Holding(p, 1, 0).(proc := Up(Some(p), Settled(p.clientId))), Crash, Restart(now));
  }

  /** Sent, answered, settled, and then a crash before the pending was cleared. */
  lemma WindowCrash(p: Pending, now: real)
    requires Restorable(p) && p.clientId != "" && now <= p.expiresAt
    ensures var run := [Begin(p.clientId, {}), Transmit] + [Verdict, Settle] + [Crash, Restart(now)];
            Legal(Holding(p, 0, 0), run) && After(Holding(p, 0, 0), run) == Holding(p, 1, 1)
  {
    hide Holding, Enabled, Apply;
    var send := [Begin(p.clientId, {}), Transmit];
    HoldingSends(p);
    HoldingSettles(p);
    HoldingCrashes(p, now);
    LegalConcat(Holding(p, 0, 0), send, [Verdict, Settle]);
    LegalConcat(Holding(p, 0, 0), send + [Verdict, Settle], [Crash, Restart(now)]);
  }

  lemma LogOfHolding(p: Pending, now: real)
    requires Restorable(p) && now <= p.expiresAt
    ensures Restore(Holding(p, 1, 1).log, now) == Some(p)
  {
    hide PendingFromRecord, RecordOf;
    RecordRoundTrip(p);
    ExpiryOfRecord(p);
    LastOfSnoc([], CONFIRM, Rec(STAGE, RecordOf(p), 0));
    assert [] + [Rec(STAGE, RecordOf(p), 0)] == [Rec(STAGE, RecordOf(p), 0)];
  }

  lemma HoldingSendsAgain(p: Pending)
    requires p.clientId != ""
    ensures var w, send := Holding(p, 1, 1), [Begin(p.clientId, {}), Transmit];
            Legal(w, send) && After(w, send).sent[p.clientId] == 2
  {
    hide RecordOf;
    TwoSteps(Holding(p, 1, 1), Begin(p.clientId, {}), Transmit);
  }

  /** The window is real: a crash right after the ledger entry is removed lets the
      restarted desk transmit the same staged order again. */
  lemma WindowResends(p: Pending, now: real)
    requires Restorable(p) && p.signal.Some? && p.clientId != "" && now <= p.expiresAt
    ensures var send := [Begin(p.clientId, {}), Transmit];
            var run := [Restart(now), Stage(p, now, 0, Landed)]
                       + (send + [Verdict, Settle] + [Crash, Restart(now)]) + send;
            Legal(INIT, run) && After(INIT, run).sent[p.clientId] == 2
  {
    hide Holding, Enabled, Apply;
    var send := [Begin(p.clientId, {}), Transmit];
    var stage := [Restart(now), Stage(p, now, 0, Landed)];
    var middle := send + [Verdict, Settle] + [Crash, Restart(now)];
    StageReaches(p, now);
    WindowCrash(p, now);
    HoldingSendsAgain(p);
    LegalConcat(INIT, stage, middle);
    LegalConcat(INIT, stage + middle, send);
  }
}
