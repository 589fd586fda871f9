/** The key=value wire format of mt4_live.py. A number with a dot is the exact real its
    text names. */
module Codec {
  import opened Wrappers
  import Market

  /** A payload value; a float comes as the text `str` prints for it. */
  datatype Value = VNone | VBool(b: bool) | VInt(i: int) | VFloat(printed: string) | VText(s: string)

  datatype Decoded = DBool(b: bool) | DInt(i: int) | DReal(r: real) | DText(s: string)

  const TEXT_FIELDS := {"symbol", "side", "kind", "comment", "name", "server", "currency", "error", "op"}

  predicate Textual(key: string) { key in TEXT_FIELDS || "row" <= key }

  // ----- characters -------------------------------------------------------------

  /** Where `splitlines` breaks a line. A CR LF pair counts as two breaks here; the
      empty line between them is skipped like any other. */
  predicate IsBreak(c: char) {
    var n := c as int;
    10 <= n <= 13 || 28 <= n <= 30 || n == 0x85 || n == 0x2028 || n == 0x2029
  }

  predicate IsSpace(c: char) {
    var n := c as int;
    || n == 32 || 9 <= n <= 13 || 28 <= n <= 31 || n == 0x85 || n == 0xA0 || n == 0x1680 || 0x2000 <= n <= 0x200A
    || n == 0x2028 || n == 0x2029 || n == 0x202F || n == 0x205F || n == 0x3000
  }

  predicate NoBreak(s: string) { forall i :: 0 <= i < |s| ==> !IsBreak(s[i]) }

  function WireChar(c: char): char {
    if c == '\r' || c == '\n' then ' ' else if c == '|' then '/' else if c as int >= 128 then '?' else c
  }

  function Sanitised(s: string): (r: string)
    ensures |r| == |s| && forall i :: 0 <= i < |s| ==> r[i] == WireChar(s[i])
  {
    if s == [] then [] else [WireChar(s[0])] + Sanitised(s[1..])
  }

  function RStrip(s: string): string {
    if s != [] && IsSpace(s[|s| - 1]) then RStrip(s[..|s| - 1]) else s
  }

  function LStrip(s: string): string {
    if s != [] && IsSpace(s[0]) then LStrip(s[1..]) else s
  }

  function Strip(s: string): string { RStrip(LStrip(s)) }

  // ----- integers -----------------------------------------------------------------

  function Digit(d: nat): char
    requires d < 10
  {
    '0' + d as char
  }

  predicate IsDigit(c: char) { '0' <= c <= '9' }

  function Digits(n: nat): string {
    if n < 10 then [Digit(n)] else Digits(n / 10) + [Digit(n % 10)]
  }

  /** `str(i)`. */
  function Decimal(i: int): string {
    if i < 0 then "-" + Digits(-i) else Digits(i)
  }

  /** Digits with single underscores between them, the form `int()` accepts. */
  predicate DigitRun(s: string) {
    && s != [] && IsDigit(s[0]) && IsDigit(s[|s| - 1])
    && (forall i :: 0 <= i < |s| ==> IsDigit(s[i]) || s[i] == '_')
    && (forall i :: 0 < i < |s| ==> s[i - 1] != '_' || s[i] != '_')
  }

  function RunValue(s: string): nat
    requires forall i :: 0 <= i < |s| ==> IsDigit(s[i]) || s[i] == '_'
  {
    if s == [] then 0
    else if s[|s| - 1] == '_' then RunValue(s[..|s| - 1])
    else
      assert IsDigit(s[|s| - 1]);
      10 * RunValue(s[..|s| - 1]) + (s[|s| - 1] as int - '0' as int)
  }

  /** `int(v)`; None is the ValueError. */
  function ParseInt(v: string): Option<int> {
    var s := Strip(v);
    var signed := s != [] && (s[0] == '-' || s[0] == '+');
    var body := if signed then s[1..] else s;
    if !DigitRun(body) then None
    else
      var n: int := RunValue(body);
      Some(if signed && s[0] == '-' then -n else n)
  }

  function IndexOf(s: string, c: char): nat
    requires c in s
    ensures IndexOf(s, c) < |s| && s[IndexOf(s, c)] == c
  {
    if s[0] == c then 0 else 1 + IndexOf(s[1..], c)
  }

  /** Where the exponent starts, if there is one. */
  function ExponentAt(s: string): nat
    ensures ExponentAt(s) <= |s|
  {
    if s == [] || s[0] == 'e' || s[0] == 'E' then 0 else 1 + ExponentAt(s[1..])
  }

  function DigitCount(s: string): nat {
    if s == [] then 0 else DigitCount(s[1..]) + if IsDigit(s[0]) then 1 else 0
  }

  /** `whole.part`, where `part` has this many digits. */
  function Point(whole: nat, part: nat, digits: nat): real {
    whole as real + Market.Over(part as real, Market.Pow10(digits))
  }

  /** Digits, a dot, digits; one side may be empty. */
  function Mantissa(s: string): Option<real> {
    if '.' !in s then None
    else
      var i := IndexOf(s, '.');
      var whole, part := s[..i], s[i + 1..];
      if whole + part == "" || (whole != "" && !DigitRun(whole)) || (part != "" && !DigitRun(part)) then None
      else Some(Point(RunValue(whole), RunValue(part), DigitCount(part)))
  }

  function Exponent(s: string): Option<int> {
    if s == "" then Some(0)
    else
      var signed := |s| > 1 && (s[1] == '-' || s[1] == '+');
      var digits := if signed then s[2..] else s[1..];
      if !DigitRun(digits) then None
      else
        var n: int := RunValue(digits);
        Some(if signed && s[1] == '-' then -n else n)
  }

  function Scaled(m: real, e: int): real {
    if e >= 0 then Market.Times(m, Market.Pow10(e)) else Market.Over(m, Market.Pow10(-e))
  }

  function Unsigned(s: string): Option<real> {
    var m, e := Mantissa(s[..ExponentAt(s)]), Exponent(s[ExponentAt(s)..]);
    if m.None? || e.None? then None else Some(Scaled(m.value, e.value))
  }

  /** `float(v)` of a text with a dot, without rounding; None is the ValueError. */
  function ParseFloat(v: string): Option<real> {
    var s := Strip(v);
    if s == "" then None
    else if s[0] == '-' then
      var r := Unsigned(s[1..]);
      if r.None? then None else Some(-r.value)
    else Unsigned(if s[0] == '+' then s[1..] else s)
  }

  // ----- the wire format -------------------------------------------------------------

  function Wire(v: Value): string {
    match v
    case VNone => "None"
    case VBool(b) => if b then "True" else "False"
    case VInt(i) => Sanitised(Decimal(i))
    case VFloat(printed) => Sanitised(printed)
    case VText(s) => Sanitised(s)
  }

  function Coerced(v: string): Decoded {
    if v in {"true", "True"} then DBool(true)
    else if v in {"false", "False"} then DBool(false)
    else if '.' in v then (if ParseFloat(v).Some? then DReal(ParseFloat(v).value) else DText(v))
    else if ParseInt(v).Some? then DInt(ParseInt(v).value)
    else DText(v)
  }

  function ReadAs(key: string, text: string): Decoded {
    if Textual(key) then DText(text) else Coerced(text)
  }

  /** The key and wire text of every line of a request: `id` and `op` first, the
      payload without its missing values, `ttl_ms` last. */
  function Present(payload: seq<(string, Value)>): seq<(string, string)> {
    if payload == [] then []
    else
      var front, (k, v) := Present(payload[..|payload| - 1]), payload[|payload| - 1];
      if v.VNone? then front else front + [(k, Wire(v))]
  }

  function Entries(op: string, payload: seq<(string, Value)>, id: int, ttl: Option<int>): seq<(string, string)> {
    [("id", Decimal(id)), ("op", op)] + Present(payload)
    + (if ttl.Some? then [("ttl_ms", Decimal(ttl.value))] else [])
  }

  function Line(e: (string, string)): string { e.0 + "=" + e.1 }

  /** Every entry on a line of its own. */
  function Text(entries: seq<(string, string)>): string {
    if entries == [] then "" else Text(entries[..|entries| - 1]) + Line(entries[|entries| - 1]) + "\n"
  }

  function Encoded(op: string, payload: seq<(string, Value)>, id: int, ttl: Option<int>): string {
    Text(Entries(op, payload, id, ttl))
  }

  function Lines(s: string): (r: seq<string>)
    ensures |r| >= 1
  {
    if s == [] then [""]
    else
      var rest := Lines(s[1..]);
      if IsBreak(s[0]) then [""] + rest else [[s[0]] + rest[0]] + rest[1..]
  }

  /** One line into the map; lines without `=` are skipped, later ones win. */
  function WithLine(m: map<string, Decoded>, raw: string): map<string, Decoded> {
    var line := Strip(raw);
    if '=' !in line then m
    else
      var i := IndexOf(line, '=');
      m[line[..i] := ReadAs(line[..i], line[i + 1..])]
  }

  function DecodedLines(lines: seq<string>): map<string, Decoded> {
    if lines == [] then map[] else WithLine(DecodedLines(lines[..|lines| - 1]), lines[|lines| - 1])
  }

  function Decoding(s: string): map<string, Decoded> { DecodedLines(Lines(s)) }

  // ----- the loops -----------------------------------------------------------------------

  method Encode(op: string, payload: seq<(string, Value)>, id: int, ttl: Option<int>) returns (body: string)
    ensures body == Encoded(op, payload, id, ttl)
  {
    var lines := [("id", Decimal(id)), ("op", op)];
    var i := 0;
    while i < |payload|
      invariant 0 <= i <= |payload|
      invariant lines == [("id", Decimal(id)), ("op", op)] + Present(payload[..i])
    {
      assert payload[..i + 1][..i] == payload[..i];
      var (k, v) := payload[i];
      if !v.VNone? {
        lines := lines + [(k, Wire(v))];
      }
      i := i + 1;
    }
    assert payload[..i] == payload;
    if ttl.Some? {
      lines := lines + [("ttl_ms", Decimal(ttl.value))];
    }
    assert lines == Entries(op, payload, id, ttl);
    body := "";
    i := 0;
    while i < |lines|
      invariant 0 <= i <= |lines|
      invariant body == Text(lines[..i])
    {
      assert lines[..i + 1][..i] == lines[..i];
      body := body + Line(lines[i]) + "\n";
      i := i + 1;
    }
    assert lines[..i] == lines;
  }

  method Decode(text: string) returns (out: map<string, Decoded>)
    ensures out == Decoding(text)
  {
    out := map[];
    var lines := Lines(text);
    var i := 0;
    while i < |lines|
      invariant 0 <= i <= |lines|
      invariant out == DecodedLines(lines[..i])
    {
      assert lines[..i + 1][..i] == lines[..i];
      var line := Strip(lines[i]);
      if '=' in line {
        var at := IndexOf(line, '=');
        var k, v := line[..at], line[at + 1..];
        out := out[k := if Textual(k) then DText(v) else Coerced(v)];
      }
      i := i + 1;
    }
    assert lines[..i] == lines;
  }

  // ----- rows ------------------------------------------------------------------------------

  function JoinRow(fields: seq<string>): string
    requires fields != []
  {
    if |fields| == 1 then fields[0] else fields[0] + "|" + JoinRow(fields[1..])
  }

  /** `text.split("|")`. */
  function SplitRow(s: string): (r: seq<string>)
    ensures |r| >= 1
  {
    if s == [] then [""]
    else
      var rest := SplitRow(s[1..]);
      if s[0] == '|' then [""] + rest else [[s[0]] + rest[0]] + rest[1..]
  }

  /** `_split_row`: a missing or empty number reads as zero. */
  function FieldOf(name: string, parts: seq<string>, i: nat): Decoded {
    var v := if i < |parts| then parts[i] else "";
    if name in TEXT_FIELDS then DText(v) else if v != "" then Coerced(v) else DInt(0)
  }

  method ParseRow(text: string, names: seq<string>) returns (out: map<string, Decoded>)
    requires forall i, j :: 0 <= i < j < |names| ==> names[i] != names[j]
    ensures out.Keys == set i | 0 <= i < |names| :: names[i]
    ensures forall i :: 0 <= i < |names| ==> names[i] in out && out[names[i]] == FieldOf(names[i], SplitRow(text), i)
  {
    var parts := SplitRow(text);
    out := map[];
    var i := 0;
    while i < |names|
      invariant 0 <= i <= |names|
      invariant out.Keys == set j | 0 <= j < i :: names[j]
      invariant forall j :: 0 <= j < i ==> names[j] in out && out[names[j]] == FieldOf(names[j], parts, j)
    {
      out := out[names[i] := FieldOf(names[i], parts, i)];
      i := i + 1;
    }
  }
}
