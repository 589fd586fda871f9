/** The staged order of desk.py and the journal record that carries it across a
    restart. Prices and times are reals; a JSON number with a decimal point is
    `JNum`, one without is `JInt`. */
module Confirm {
  import opened Wrappers

  datatype Kind = BuyKind | SellKind | FlatKind
  {
    function Text(): string {
      match this
      case BuyKind => "buy"
      case SellKind => "sell"
      case FlatKind => "flat"
    }
  }

  datatype Signal = Signal(
    kind: Kind, symbol: string, entry: real, sl: real, tp: real, atr: real, reason: string,
    fastEma: real, slowEma: real, adx: real, pendingKind: string)

  datatype Pending = Pending(
    signal: Option<Signal>, volume: real, source: string, expiresAt: real,
    closeTicket: Option<int>, clientId: string)

  datatype JVal =
    | JNull
    | JBool(b: bool)
    | JInt(i: int)
    | JNum(r: real)
    | JStr(s: string)
    | JObj(m: map<string, JVal>)

  type Fields = map<string, JVal>

  // ----- writing ------------------------------------------------------------

  function SignalFields(s: Signal): Fields {
    map["kind" := JStr(s.kind.Text()), "symbol" := JStr(s.symbol), "entry" := JNum(s.entry),
        "sl" := JNum(s.sl), "tp" := JNum(s.tp), "atr" := JNum(s.atr), "reason" := JStr(s.reason),
        "fast_ema" := JNum(s.fastEma), "slow_ema" := JNum(s.slowEma), "adx" := JNum(s.adx),
        "pending_kind" := JStr(s.pendingKind)]
  }

  function RecordOf(p: Pending): Fields {
    var base: Fields :=
      map["volume" := JNum(p.volume), "source" := JStr(p.source), "expires_at" := JNum(p.expiresAt),
          "close_ticket" := (if p.closeTicket.Some? then JInt(p.closeTicket.value) else JNull),
          "client_id" := JStr(p.clientId)];
    if p.signal.Some? then base["signal" := JObj(SignalFields(p.signal.value))] else base
  }

  // ----- reading ------------------------------------------------------------

  function Lookup(f: Fields, key: string): JVal {
    if key in f then f[key] else JNull
  }

  /** Python truthiness, the test behind every `x or default`. */
  predicate Falsy(v: JVal) {
    match v
    case JNull => true
    case JBool(b) => !b
    case JInt(i) => i == 0
    case JNum(r) => r == 0.0
    case JStr(s) => s == ""
    case JObj(m) => m == map[]
  }

  /** `float(v)`. Numeric text is not read back: the desk never writes it. */
  function ToFloat(v: JVal): Option<real> {
    match v
    case JBool(b) => Some(if b then 1.0 else 0.0)
    case JInt(i) => Some(i as real)
    case JNum(r) => Some(r)
    case _ => None
  }

  /** `float(v or 0)`. */
  function FloatOrZero(v: JVal): Option<real> {
    if Falsy(v) then Some(0.0) else ToFloat(v)
  }

  /** `str(v or "")`, for the text values the desk writes. */
  function TextOrEmpty(v: JVal): Option<string> {
    if Falsy(v) then Some("") else if v.JStr? then Some(v.s) else None
  }

  /** `int(v)`; a number with a fraction is cut toward zero. */
  function ToInt(v: JVal): Option<int> {
    match v
    case JBool(b) => Some(if b then 1 else 0)
    case JInt(i) => Some(i)
    case JNum(r) => Some(if r < 0.0 then -((-r).Floor) else r.Floor)
    case _ => None
  }

  function ReadSignal(m: Fields, kind: Kind): Option<Signal> {
    var symbol := Lookup(m, "symbol");
    var entry, sl, tp := ToFloat(Lookup(m, "entry")), ToFloat(Lookup(m, "sl")), ToFloat(Lookup(m, "tp"));
    var atr, reason := FloatOrZero(Lookup(m, "atr")), TextOrEmpty(Lookup(m, "reason"));
    var fast, slow := FloatOrZero(Lookup(m, "fast_ema")), FloatOrZero(Lookup(m, "slow_ema"));
    var adx, pk := FloatOrZero(Lookup(m, "adx")), TextOrEmpty(Lookup(m, "pending_kind"));
    if symbol.JStr? && entry.Some? && sl.Some? && tp.Some? && atr.Some? && reason.Some?
       && fast.Some? && slow.Some? && adx.Some? && pk.Some?
    then Some(Signal(kind, symbol.s, entry.value, sl.value, tp.value, atr.value, reason.value,
                     fast.value, slow.value, adx.value, pk.value))
    else None
  }

  /** The signal part: absent, of no tradable kind, readable, or unreadable. */
  function SignalPart(v: JVal): Result<Option<Signal>, ()> {
    if v.JObj? && Lookup(v.m, "kind") in {JStr("buy"), JStr("sell")} then
      var kind := if Lookup(v.m, "kind") == JStr("buy") then BuyKind else SellKind;
      var s := ReadSignal(v.m, kind);
      if s.Some? then Ok(s) else Err(())
    else Ok(None)
  }

  function PendingFromRecord(f: Fields): Option<Pending> {
    var expires, volume := FloatOrZero(Lookup(f, "expires_at")), FloatOrZero(Lookup(f, "volume"));
    var source, client := TextOrEmpty(Lookup(f, "source")), TextOrEmpty(Lookup(f, "client_id"));
    var raw := Lookup(f, "close_ticket");
    var noTicket := raw in {JNull, JStr("")};
    var ticket := if noTicket then None else ToInt(raw);
    var signal := SignalPart(Lookup(f, "signal"));
    if expires.None? || volume.None? || source.None? || client.None? || signal.Err? then None
    else if !noTicket && ticket.None? then None
    else if signal.value.None? && ticket.None? then None
    else Some(Pending(signal.value, volume.value, source.value, expires.value, ticket, client.value))
  }

  // ----- the round trip -----------------------------------------------------

  /** What the desk can stage at all: something to send or something to close,
      and never a flat signal. */
  predicate Restorable(p: Pending) {
    && (p.signal.Some? ==> p.signal.value.kind != FlatKind)
    && (p.signal.Some? || p.closeTicket.Some?)
  }

  lemma PricesOfSignal(s: Signal)
    ensures var m := SignalFields(s);
            && Lookup(m, "entry") == JNum(s.entry) && Lookup(m, "sl") == JNum(s.sl) && Lookup(m, "tp") == JNum(s.tp)
            && Lookup(m, "atr") == JNum(s.atr) && Lookup(m, "adx") == JNum(s.adx)
  {
  }

  lemma AveragesOfSignal(s: Signal)
    ensures var m := SignalFields(s);
            && Lookup(m, "fast_ema") == JNum(s.fastEma) && Lookup(m, "slow_ema") == JNum(s.slowEma)
  {
  }

  lemma TextsOfSignal(s: Signal)
    ensures var m := SignalFields(s);
            && Lookup(m, "kind") == JStr(s.kind.Text()) && Lookup(m, "symbol") == JStr(s.symbol)
            && Lookup(m, "reason") == JStr(s.reason) && Lookup(m, "pending_kind") == JStr(s.pendingKind)
  {
  }

  lemma SignalRoundTrip(s: Signal)
    requires s.kind != FlatKind
    ensures SignalPart(JObj(SignalFields(s))) == Ok(Some(s))
  {
    hide SignalFields, Lookup;
    PricesOfSignal(s);
    AveragesOfSignal(s);
    TextsOfSignal(s);
    assert ReadSignal(SignalFields(s), s.kind) == Some(s);
  }

  /** Reading back the written record gives the very same staged order exactly
      when it was one the desk may stage. */
  lemma RecordRoundTrip(p: Pending)
    ensures PendingFromRecord(RecordOf(p)) == Some(p) <==> Restorable(p)
  {
    hide RecordOf, Lookup, SignalFields, SignalPart;
    FieldsOfRecord(p);
    SignalPartOfRecord(p);
    if p.signal.Some? && p.signal.value.kind != FlatKind {
      SignalRoundTrip(p.signal.value);
    }
  }

  lemma FieldsOfRecord(p: Pending)
    ensures var f := RecordOf(p);
            && Lookup(f, "expires_at") == JNum(p.expiresAt) && Lookup(f, "volume") == JNum(p.volume)
            && Lookup(f, "source") == JStr(p.source) && Lookup(f, "client_id") == JStr(p.clientId)
            && Lookup(f, "close_ticket") == if p.closeTicket.Some? then JInt(p.closeTicket.value) else JNull
  {
    hide SignalFields;
  }

  lemma SignalPartOfRecord(p: Pending)
    ensures Lookup(RecordOf(p), "signal") == if p.signal.Some? then JObj(SignalFields(p.signal.value)) else JNull
    ensures SignalPart(JNull) == Ok(None)
    ensures p.signal.Some? && p.signal.value.kind == FlatKind ==> SignalPart(JObj(SignalFields(p.signal.value))) == Ok(None)
  {
    if p.signal.Some? {
      assert Lookup(SignalFields(p.signal.value), "kind") == JStr(p.signal.value.kind.Text());
    }
  }

  /** `expires_at` is read a second time, before the rest of the record. */
  lemma ExpiryOfRecord(p: Pending)
    ensures FloatOrZero(Lookup(RecordOf(p), "expires_at")) == Some(p.expiresAt)
  {
  }
}
