/** state.py: the equity snapshot as a durable file, written atomically and read
    back with every field checked. Numbers in the file are JSON numbers; the two
    that Python can also parse, NaN and the infinities, are `SNonFinite`. */
module StateFile {
  import opened Wrappers

  datatype SVal = SNull | SBool(b: bool) | SInt(i: int) | SNum(r: real) | SNonFinite | SStr(s: string) | SOther

  datatype Content =
    | Missing
    | IoError
    | Garbage                      // blank, not JSON, or not an object
    | Object(fields: map<string, SVal>)

  /** How a save ends: the new file is in place; nothing changed; or it is in place and
      its permissions could not be set, which is reported as a failure too. */
  datatype SaveEnd = Saved | Unsaved | Unsealed

  datatype Snapshot = Snapshot(
    time: int, balance: real, equity: real, peak: real, dayStart: real, day: string, trades: nat, advice: nat)

  const VERSION := 2

  function Number(f: map<string, SVal>, key: string): Option<real> {
    if key !in f then None
    else match f[key]
      case SInt(i) => Some(i as real)
      case SNum(r) => Some(r)
      case _ => None
  }

  function NotNegative(x: Option<real>): Option<real> {
    if x.Some? && x.value < 0.0 then None else x
  }

  /** `int(x)` of a checked number: toward zero. */
  function Truncated(r: real): int {
    if r < 0.0 then -((-r).Floor) else r.Floor
  }

  /** A daily counter: absent reads as zero, a present one is a real count. */
  function Count(f: map<string, SVal>, key: string): Option<nat> {
    if key !in f then Some(0)
    else if f[key].SInt? && f[key].i >= 0 then Some(f[key].i)
    else None
  }

  /** A missing file is a clean start; anything not fully checked is an error. */
  function Load(c: Content): Result<Option<Snapshot>, ()> {
    match c
    case Missing => Ok(None)
    case IoError => Err(())
    case Garbage => Err(())
    case Object(f) =>
      var time, balance, equity := Number(f, "time"), Number(f, "balance"), Number(f, "equity");
      var peak, dayStart := NotNegative(Number(f, "peak_equity")), NotNegative(Number(f, "day_start_equity"));
      var trades, advice := Count(f, "trades_today"), Count(f, "advice_turns_today");
      if "version" !in f || f["version"] !in {SInt(1), SInt(2)} || "day_key" !in f || !f["day_key"].SStr? then Err(())
      else if time.None? || balance.None? || equity.None? || peak.None? || dayStart.None? || trades.None? || advice.None?
      then Err(())
      else Ok(Some(Snapshot(Truncated(time.value), balance.value, equity.value, peak.value, dayStart.value,
                            f["day_key"].s, trades.value, advice.value)))
  }

  function Save(s: Snapshot): Content {
    Object(map["version" := SInt(VERSION), "time" := SInt(s.time), "balance" := SNum(s.balance),
               "equity" := SNum(s.equity), "peak_equity" := SNum(s.peak), "day_start_equity" := SNum(s.dayStart),
               "day_key" := SStr(s.day), "trades_today" := SInt(s.trades), "advice_turns_today" := SInt(s.advice)])
  }

  // ----- which files are trusted -------------------------------------------------------

  /** A finite JSON number under the key. */
  predicate HasNumber(f: map<string, SVal>, key: string) { key in f && (f[key].SInt? || f[key].SNum?) }

  predicate HasBound(f: map<string, SVal>, key: string) {
    key in f && ((f[key].SInt? && f[key].i >= 0) || (f[key].SNum? && f[key].r >= 0.0))
  }

  /** A counter may be absent, as in a file of version 1. */
  predicate HasCounter(f: map<string, SVal>, key: string) { key in f ==> f[key].SInt? && f[key].i >= 0 }

  function ValueAt(f: map<string, SVal>, key: string): real {
    if key in f && f[key].SInt? then f[key].i as real else if key in f && f[key].SNum? then f[key].r else 0.0
  }

  function CounterAt(f: map<string, SVal>, key: string): nat {
    if key in f && f[key].SInt? && f[key].i >= 0 then f[key].i else 0
  }

  /** Every field is there and sound. */
  predicate Trusted(f: map<string, SVal>) {
    && "version" in f && (f["version"] == SInt(1) || f["version"] == SInt(2)) && "day_key" in f && f["day_key"].SStr?
    && HasNumber(f, "time") && HasNumber(f, "balance") && HasNumber(f, "equity")
    && HasBound(f, "peak_equity") && HasBound(f, "day_start_equity")
    && HasCounter(f, "trades_today") && HasCounter(f, "advice_turns_today")
  }

  lemma NumberExactly(f: map<string, SVal>, key: string)
    ensures Number(f, key) == if HasNumber(f, key) then Some(ValueAt(f, key)) else None
    ensures NotNegative(Number(f, key)) == if HasBound(f, key) then Some(ValueAt(f, key)) else None
  {
  }

  lemma CountExactly(f: map<string, SVal>, key: string)
    ensures Count(f, key) == if HasCounter(f, key) then Some(CounterAt(f, key)) else None
  {
  }

  /** Over every content of the file: a missing one is a clean start and nothing else is;
      one that is there is read if and only if it is an object with every field sound, and
      then to exactly what the fields say. An unreadable, empty, truncated or mistyped file
      is an error. */
  lemma LoadsExactly(c: Content)
    ensures Load(c) == Ok(None) <==> c == Missing
    ensures Load(c).Ok? <==> (c == Missing || (c.Object? && Trusted(c.fields)))
    ensures c.Object? && Trusted(c.fields) ==>
              var f := c.fields;
              Load(c) == Ok(Some(Snapshot(
                Truncated(ValueAt(f, "time")), ValueAt(f, "balance"), ValueAt(f, "equity"), ValueAt(f, "peak_equity"),
                ValueAt(f, "day_start_equity"), f["day_key"].s, CounterAt(f, "trades_today"),
                CounterAt(f, "advice_turns_today"))))
  {
    if c.Object? {
      NumberExactly(c.fields, "time");
      NumberExactly(c.fields, "balance");
      NumberExactly(c.fields, "equity");
      NumberExactly(c.fields, "peak_equity");
      NumberExactly(c.fields, "day_start_equity");
      CountExactly(c.fields, "trades_today");
      CountExactly(c.fields, "advice_turns_today");
      hide Number, NotNegative, Count, HasNumber, HasBound, HasCounter, ValueAt, CounterAt, Truncated;
    }
  }

  /** An int() of a number drops its fraction, toward zero. */
  lemma TruncatedTowardZero(r: real)
    ensures r >= 0.0 ==> Truncated(r) as real <= r < Truncated(r) as real + 1.0
    ensures r <= 0.0 ==> Truncated(r) as real - 1.0 < r <= Truncated(r) as real
  {
  }

  // ----- the round trip -----------------------------------------------------------

  /** The fields read as those of `s`. */
  predicate Reads(f: map<string, SVal>, s: Snapshot) {
    && "version" in f && f["version"] in {SInt(1), SInt(2)}
    && "day_key" in f && f["day_key"] == SStr(s.day)
    && Number(f, "time") == Some(s.time as real)
    && Number(f, "balance") == Some(s.balance) && Number(f, "equity") == Some(s.equity)
    && Number(f, "peak_equity") == Some(s.peak) && Number(f, "day_start_equity") == Some(s.dayStart)
    && Count(f, "trades_today") == Some(s.trades) && Count(f, "advice_turns_today") == Some(s.advice)
  }

  lemma ReadsLoads(f: map<string, SVal>, s: Snapshot)
    requires Reads(f, s)
    ensures Load(Object(f)) == (if s.peak >= 0.0 && s.dayStart >= 0.0 then Ok(Some(s)) else Err(()))
  {
    hide Number, Count;
    assert Truncated(s.time as real) == s.time;
  }

  lemma SavedReads(s: Snapshot)
    ensures Reads(Save(s).fields, s)
  {
  }

  /** What is written reads back unchanged exactly when the peak and the day's start
      are not negative; a negative one is written all the same and then refused. */
  lemma SaveLoadExactly(s: Snapshot)
    ensures Load(Save(s)) == (if s.peak >= 0.0 && s.dayStart >= 0.0 then Ok(Some(s)) else Err(()))
  {
    hide Load, Reads;
    SavedReads(s);
    ReadsLoads(Save(s).fields, s);
  }

  /** A file of version 1 has no counters. */
  function VersionOne(s: Snapshot): map<string, SVal> {
    Save(s).fields["version" := SInt(1)] - {"trades_today", "advice_turns_today"}
  }

  lemma VersionOneNumbers(s: Snapshot)
    ensures var f := VersionOne(s);
            && Number(f, "time") == Some(s.time as real)
            && Number(f, "balance") == Some(s.balance) && Number(f, "equity") == Some(s.equity)
            && Number(f, "peak_equity") == Some(s.peak) && Number(f, "day_start_equity") == Some(s.dayStart)
  {
  }

  lemma VersionOneRest(s: Snapshot)
    ensures var f := VersionOne(s);
            && "version" in f && f["version"] == SInt(1) && "day_key" in f && f["day_key"] == SStr(s.day)
            && Count(f, "trades_today") == Some(0) && Count(f, "advice_turns_today") == Some(0)
  {
  }

  /** It restores both as zero. */
  lemma VersionOneLoads(s: Snapshot)
    requires s.peak >= 0.0 && s.dayStart >= 0.0
    ensures Load(Object(VersionOne(s))) == Ok(Some(s.(trades := 0, advice := 0)))
  {
    hide Load, VersionOne, Number, Count;
    VersionOneNumbers(s);
    VersionOneRest(s);
    ReadsLoads(VersionOne(s), s.(trades := 0, advice := 0));
  }

  // ----- damage --------------------------------------------------------------------

  const SIGNED := {"time", "balance", "equity"}
  const BOUNDS := {"peak_equity", "day_start_equity"}
  const COUNTERS := {"trades_today", "advice_turns_today"}

  /** What a numeric field may hold: a finite number, not negative for the two that bound
      a loss, and a whole number that is not negative for a counter. */
  predicate Sound(key: string, v: SVal) {
    if key in COUNTERS then v.SInt? && v.i >= 0
    else
      && (v.SInt? || v.SNum?)
      && (key in BOUNDS ==> if v.SInt? then v.i >= 0 else v.r >= 0.0)
  }

  /** With one numeric field replaced, a good file is read if and only if that field is
      sound. */
  lemma DamagedFieldRefused(s: Snapshot, key: string, v: SVal)
    requires s.peak >= 0.0 && s.dayStart >= 0.0 && key in SIGNED + BOUNDS + COUNTERS
    ensures Load(Object(Save(s).fields[key := v])).Ok? <==> Sound(key, v)
  {
    var g := Save(s).fields[key := v];
    LoadsExactly(Object(g));
    SavedIsTrusted(s);
    OtherFieldsStay(Save(s).fields, key, v);
    hide Load, Save;
  }

  lemma SavedIsTrusted(s: Snapshot)
    requires s.peak >= 0.0 && s.dayStart >= 0.0
    ensures Trusted(Save(s).fields)
  {
  }

  lemma OtherFieldsStay(f: map<string, SVal>, key: string, v: SVal)
    requires Trusted(f) && key in SIGNED + BOUNDS + COUNTERS
    ensures Trusted(f[key := v]) <==> Sound(key, v)
  {
    var g := f[key := v];
    assert key !in {"version", "day_key"};
    forall k | k != key
      ensures HasNumber(g, k) == HasNumber(f, k) && HasBound(g, k) == HasBound(f, k) && HasCounter(g, k) == HasCounter(f, k)
    {
    }
    assert HasNumber(g, key) == (v.SInt? || v.SNum?);
    assert HasBound(g, key) == ((v.SInt? && v.i >= 0) || (v.SNum? && v.r >= 0.0));
    assert HasCounter(g, key) == (v.SInt? && v.i >= 0);
    hide HasNumber, HasBound, HasCounter;
  }
}
