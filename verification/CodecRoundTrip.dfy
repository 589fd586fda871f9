/** What survives the wire: integers and booleans exactly, text up to its sanitised
    form and trailing blanks, and no value reaches another key. */
module CodecRoundTrip {
  import opened Wrappers
  import Market
  import opened Codec
  import opened CodecLines

  // ----- integers -----------------------------------------------------------------

  lemma {:induction false} DigitsRun(n: nat)
    ensures Digits(n) != [] && forall i :: 0 <= i < |Digits(n)| ==> IsDigit(Digits(n)[i])
    ensures DigitRun(Digits(n)) && RunValue(Digits(n)) == n
  {
    if n < 10 {
      assert RunValue([]) == 0;
    } else {
      DigitsRun(n / 10);
      var front := Digits(n / 10);
      assert (front + [Digit(n % 10)])[..|front|] == front;
    }
  }

  lemma {:induction false} StripPlain(s: string)
    requires s == [] || (!IsSpace(s[0]) && !IsSpace(s[|s| - 1]))
    ensures Strip(s) == s
  {
  }

  lemma DecimalIsPlain(i: int)
    ensures var s := Decimal(i);
            s != [] && forall k :: 0 <= k < |s| ==> IsDigit(s[k]) || s[k] == '-'
  {
    DigitsRun(if i < 0 then -i else i);
  }

  /** `int(str(i))` is i. */
  lemma IntRoundTrip(i: int)
    ensures ParseInt(Decimal(i)) == Some(i)
  {
    var s := Decimal(i);
    DecimalIsPlain(i);
    StripPlain(s);
    DigitsRun(if i < 0 then -i else i);
    if i < 0 {
      assert s[1..] == Digits(-i);
    }
  }

  lemma SanitisedDecimal(i: int)
    ensures Sanitised(Decimal(i)) == Decimal(i)
  {
    DecimalIsPlain(i);
    assert forall k :: 0 <= k < |Decimal(i)| ==> WireChar(Decimal(i)[k]) == Decimal(i)[k];
  }

  lemma CoercedDecimal(i: int)
    ensures Coerced(Decimal(i)) == DInt(i) && RStrip(Decimal(i)) == Decimal(i)
  {
    hide ParseInt, Decimal, Digits, RunValue;
    IntRoundTrip(i);
    DecimalIsPlain(i);
    var s := Decimal(i);
    NotAWord(s);
  }

  lemma NotAWord(s: string)
    requires s != [] && (IsDigit(s[0]) || s[0] == '-')
    ensures s !in {"true", "True"} && s !in {"false", "False"}
  {
    assert "true"[0] == 't' && "True"[0] == 'T' && "false"[0] == 'f' && "False"[0] == 'F';
  }

  /** An integer value comes back exactly, on any key that is not a text field. */
  lemma IntSurvives(key: string, i: int)
    requires !Textual(key)
    ensures ReadAs(key, RStrip(Wire(VInt(i)))) == DInt(i)
    ensures Wire(VInt(i)) == Decimal(i)
  {
    hide Textual, Coerced, RStrip, Decimal;
    SanitisedDecimal(i);
    CoercedDecimal(i);
  }

  lemma BoolSurvives(key: string, b: bool)
    requires !Textual(key)
    ensures ReadAs(key, RStrip(Wire(VBool(b)))) == DBool(b)
  {
  }

  lemma TextSurvives(key: string, s: string)
    requires Textual(key)
    ensures ReadAs(key, RStrip(Wire(VText(s)))) == DText(RStrip(Sanitised(s)))
  {
  }

  /** The keys are those of the entries. */
  lemma {:induction false} ExpectedKeys(es: seq<(string, string)>, k: string)
    ensures k in Expected(es) <==> exists i :: 0 <= i < |es| && es[i].0 == k
  {
    hide ReadAs, RStrip;
    if es != [] {
      var n := |es| - 1;
      var front := es[..n];
      ExpectedKeys(front, k);
      if k in Expected(front) {
        var i :| 0 <= i < |front| && front[i].0 == k;
        assert es[i].0 == k;
      } else if k == es[n].0 {
        assert es[n].0 == k;
      } else {
        forall i | 0 <= i < |es| ensures es[i].0 != k {
          if i < n { assert front[i] == es[i]; }
        }
      }
    }
  }

  /** How the source's callers build a payload: distinct keys that can head a line and
      differ from the fixed ones. */
  predicate WellKeyed(payload: seq<(string, Value)>) {
    && (forall i :: 0 <= i < |payload| ==>
          GoodKey(payload[i].0) && NoBreak(payload[i].0) && payload[i].0 !in {"id", "op", "ttl_ms"})
    && (forall i, j :: 0 <= i < j < |payload| ==> payload[i].0 != payload[j].0)
  }

  /** No break inside any text, once it is sanitised and its blank end is cut. */
  predicate Sendable(op: string, payload: seq<(string, Value)>) {
    NoBreak(RStrip(op)) && forall i :: 0 <= i < |payload| ==> NoBreak(RStrip(Wire(payload[i].1)))
  }

  /** The entry stands for the payload's item at some place. */
  ghost predicate Given(payload: seq<(string, Value)>, e: (string, string)) {
    exists i :: 0 <= i < |payload| && GivenAt(payload[i], e)
  }

  predicate GivenAt(item: (string, Value), e: (string, string)) {
    !item.1.VNone? && e == (item.0, Wire(item.1))
  }

  lemma GivenSnoc(front: seq<(string, Value)>, item: (string, Value), e: (string, string))
    ensures Given(front + [item], e) <==> Given(front, e) || GivenAt(item, e)
  {
    hide GivenAt;
    var payload := front + [item];
    assert payload[|front|] == item;
    if i :| 0 <= i < |front| && GivenAt(front[i], e) { assert payload[i] == front[i]; }
    if i :| 0 <= i < |payload| && GivenAt(payload[i], e) {
      if i < |front| { assert payload[i] == front[i]; }
    }
  }

  lemma {:induction false} PresentFacts(payload: seq<(string, Value)>)
    ensures forall e :: e in Present(payload) <==> Given(payload, e)
  {
    hide Given, Wire;
    if payload == [] {
      forall e ensures !Given(payload, e) { NothingGiven(e); }
    } else {
      var n := |payload| - 1;
      var front, item := payload[..n], payload[n];
      assert payload == front + [item];
      PresentFacts(front);
      forall e ensures e in Present(payload) <==> Given(payload, e) {
        GivenSnoc(front, item, e);
      }
    }
  }

  lemma NothingGiven(e: (string, string))
    ensures !Given([], e)
  {
  }

  /** Every given entry comes from an item, so it can be sent if the item can. */
  lemma GivenIsGood(op: string, payload: seq<(string, Value)>, e: (string, string))
    requires WellKeyed(payload) && Sendable(op, payload) && Given(payload, e)
    ensures CleanEntry(e) && e.0 !in {"id", "op", "ttl_ms"}
  {
    hide Wire, GoodKey;
  }

  lemma {:induction false} PresentDistinct(payload: seq<(string, Value)>)
    requires forall i, j :: 0 <= i < j < |payload| ==> payload[i].0 != payload[j].0
    ensures DistinctKeys(Present(payload))
  {
    if payload != [] {
      var n := |payload| - 1;
      var front := payload[..n];
      PresentDistinct(front);
      PresentFacts(front);
      forall i | 0 <= i < |Present(front)| ensures Present(front)[i].0 != payload[n].0 {
        assert Present(front)[i] in Present(front);
      }
    }
  }

  lemma EntriesAreGood(op: string, payload: seq<(string, Value)>, id: int, ttl: Option<int>)
    requires WellKeyed(payload) && Sendable(op, payload)
    ensures CleanEntries(Entries(op, payload, id, ttl))
  {
    hide CleanEntry, GoodKey, Decimal, Present;
    var ps := Present(payload);
    PresentFacts(payload);
    forall i | 0 <= i < |ps| ensures CleanEntry(ps[i]) {
      assert ps[i] in ps;
      GivenIsGood(op, payload, ps[i]);
    }
    FixedEntriesAreClean(op, id);
    if ttl.Some? { FixedEntriesAreClean(op, ttl.value); }
  }

  lemma KeysAreDistinct(op: string, payload: seq<(string, Value)>, id: int, ttl: Option<int>)
    requires WellKeyed(payload)
    ensures DistinctKeys(Entries(op, payload, id, ttl))
  {
    var ps := Present(payload);
    PresentFacts(payload);
    PresentDistinct(payload);
    forall i | 0 <= i < |ps| ensures ps[i].0 !in {"id", "op", "ttl_ms"} {
      assert ps[i] in ps;
    }
    DistinctWithFixed(ps, Decimal(id), op, if ttl.Some? then Some(Decimal(ttl.value)) else None);
  }

  lemma FixedEntriesAreClean(op: string, n: int)
    requires NoBreak(RStrip(op))
    ensures CleanEntry(("id", Decimal(n))) && CleanEntry(("op", op)) && CleanEntry(("ttl_ms", Decimal(n)))
  {
    hide Decimal;
    DecimalIsPlain(n);
    RStripUnbroken(Decimal(n));
  }

  lemma DistinctWithFixed(ps: seq<(string, string)>, id: string, op: string, ttl: Option<string>)
    requires DistinctKeys(ps) && forall i :: 0 <= i < |ps| ==> ps[i].0 !in {"id", "op", "ttl_ms"}
    ensures DistinctKeys([("id", id), ("op", op)] + ps + (if ttl.Some? then [("ttl_ms", ttl.value)] else []))
  {
    assert "id" != "op" && "id" != "ttl_ms" && "op" != "ttl_ms";
  }

  /** A key of the request: a fixed one, or one whose value was given. */
  ghost predicate Accounted(payload: seq<(string, Value)>, ttl: Option<int>, k: string) {
    || k in {"id", "op"}
    || (k == "ttl_ms" && ttl.Some?)
    || exists i :: 0 <= i < |payload| && !payload[i].1.VNone? && payload[i].0 == k
  }

  /** Decoding the encoded request gives exactly `id`, `op`, `ttl_ms` and the keys that
      had a value; each reads what its own value reads alone, so no value adds, drops or
      alters another key. */
  ghost predicate RoundTrips(op: string, payload: seq<(string, Value)>, id: int, ttl: Option<int>) {
    var d := Decoding(Encoded(op, payload, id, ttl));
    && "id" in d && d["id"] == DInt(id)
    && "op" in d && d["op"] == DText(RStrip(op))
    && (ttl.Some? ==> "ttl_ms" in d && d["ttl_ms"] == DInt(ttl.value))
    && (forall i :: 0 <= i < |payload| && !payload[i].1.VNone? ==>
          payload[i].0 in d && d[payload[i].0] == ReadAs(payload[i].0, RStrip(Wire(payload[i].1))))
    && (forall k :: k in d ==> Accounted(payload, ttl, k))
  }

  lemma RequestRoundTrip(op: string, payload: seq<(string, Value)>, id: int, ttl: Option<int>)
    requires WellKeyed(payload) && Sendable(op, payload)
    ensures RoundTrips(op, payload, id, ttl)
  {
    var es := Entries(op, payload, id, ttl);
    EntriesAreGood(op, payload, id, ttl);
    KeysAreDistinct(op, payload, id, ttl);
    DecodingOfText(es);
    FixedFields(op, payload, id, ttl);
    PayloadFields(op, payload, id, ttl);
    OnlyTheseKeys(op, payload, id, ttl);
  }

  /** The exact condition: the request round trips if and only if no text in it has a
      line break left inside it after sanitising and trimming. */
  lemma RequestRoundTripExactly(op: string, payload: seq<(string, Value)>, id: int, ttl: Option<int>)
    requires WellKeyed(payload)
    ensures RoundTrips(op, payload, id, ttl) <==> Sendable(op, payload)
  {
    if Sendable(op, payload) {
      RequestRoundTrip(op, payload, id, ttl);
    }
    if RoundTrips(op, payload, id, ttl) {
      RoundTripIsUnbroken(op, payload, id, ttl);
    }
  }

  lemma RoundTripIsUnbroken(op: string, payload: seq<(string, Value)>, id: int, ttl: Option<int>)
    requires WellKeyed(payload) && RoundTrips(op, payload, id, ttl)
    ensures Sendable(op, payload)
  {
    hide RStrip, Wire, Decoding, Textual, GoodKey, NoBreak, Present, Decimal, ReadAs, CleanEntry;
    var es := Entries(op, payload, id, ttl);
    KeysAreDistinct(op, payload, id, ttl);
    EntriesAreKeyed(op, payload, id, ttl);
    forall i | 0 <= i < |es| ensures ReadsBack(Decoding(Text(es)), es[i]) {
      EntryReadsBack(op, payload, id, ttl, i);
    }
    AllReadBackUnbroken(es);
    assert CleanEntry(es[1]);
    CleanParts(es[1]);
    forall i | 0 <= i < |payload| ensures NoBreak(RStrip(Wire(payload[i].1))) {
      if payload[i].1.VNone? {
        NoneIsUnbroken();
      } else {
        var j := EntryOfItem(op, payload, id, ttl, i);
        CleanParts(es[j]);
      }
    }
  }

  lemma CleanParts(e: (string, string))
    requires CleanEntry(e)
    ensures NoBreak(RStrip(e.1))
  {
  }

  lemma NoneIsUnbroken()
    ensures NoBreak(RStrip(Wire(VNone)))
  {
    RStripUnbroken("None");
  }

  lemma EntriesAreKeyed(op: string, payload: seq<(string, Value)>, id: int, ttl: Option<int>)
    requires WellKeyed(payload)
    ensures var es := Entries(op, payload, id, ttl);
            forall i :: 0 <= i < |es| ==> GoodKey(es[i].0) && NoBreak(es[i].0)
  {
    var es, ps := Entries(op, payload, id, ttl), Present(payload);
    PresentFacts(payload);
    forall i | 0 <= i < |es| ensures GoodKey(es[i].0) && NoBreak(es[i].0) {
      if 2 <= i < 2 + |ps| {
        assert es[i] == ps[i - 2] && ps[i - 2] in ps;
      }
    }
  }

  /** The entry of a given item. */
  lemma EntryOfItem(op: string, payload: seq<(string, Value)>, id: int, ttl: Option<int>, i: nat) returns (j: nat)
    requires i < |payload| && !payload[i].1.VNone?
    ensures j < |Entries(op, payload, id, ttl)|
    ensures Entries(op, payload, id, ttl)[j] == (payload[i].0, Wire(payload[i].1))
  {
    hide Wire, Decimal;
    var es, ps, e := Entries(op, payload, id, ttl), Present(payload), (payload[i].0, Wire(payload[i].1));
    PresentFacts(payload);
    assert GivenAt(payload[i], e);
    assert Given(payload, e);
    assert e in ps;
    var k :| 0 <= k < |ps| && ps[k] == e;
    j := 2 + k;
    assert es[j] == e;
  }

  lemma EntryReadsBack(op: string, payload: seq<(string, Value)>, id: int, ttl: Option<int>, i: nat)
    requires RoundTrips(op, payload, id, ttl) && i < |Entries(op, payload, id, ttl)|
    ensures ReadsBack(Decoding(Encoded(op, payload, id, ttl)), Entries(op, payload, id, ttl)[i])
  {
    hide Wire, Decimal, ReadAs, RStrip, Decoding, Encoded, Textual;
    var es, ps := Entries(op, payload, id, ttl), Present(payload);
    NotTextual();
    if 2 <= i < 2 + |ps| {
      PresentFacts(payload);
      assert es[i] == ps[i - 2] && ps[i - 2] in ps;
      var k :| 0 <= k < |payload| && GivenAt(payload[k], es[i]);
    } else if i == 0 {
      IntSurvives("id", id);
    } else if i == 1 {
      OpIsText(op);
    } else {
      IntSurvives("ttl_ms", ttl.value);
    }
  }

  /** A text travels unchanged if and only if it is ASCII without a carriage return, a line
      feed or a bar. */
  lemma PlainTextExactly(s: string)
    ensures Wire(VText(s)) == s <==> forall i :: 0 <= i < |s| ==> s[i] as int < 128 && s[i] !in {'\r', '\n', '|'}
  {
    var r := Sanitised(s);
    if r == s {
      forall i | 0 <= i < |s| ensures s[i] as int < 128 && s[i] !in {'\r', '\n', '|'} {
        assert WireChar(s[i]) == s[i];
      }
    }
    if forall i :: 0 <= i < |s| ==> s[i] as int < 128 && s[i] !in {'\r', '\n', '|'} {
      SanitisedSame(s);
    }
  }

  /** The rest becomes a blank, a slash or a question mark. */
  lemma SanitisedExactly(s: string, i: nat)
    requires i < |s|
    ensures |Wire(VText(s))| == |s|
    ensures Wire(VText(s))[i] == (if s[i] == '\r' || s[i] == '\n' then ' ' else if s[i] == '|' then '/'
                                  else if s[i] as int >= 128 then '?' else s[i])
  {
  }

  lemma OpIsText(op: string)
    ensures ReadAs("op", RStrip(op)) == DText(RStrip(op))
  {
  }

  // ----- texts under keys that are coerced ---------------------------------------------------

  /** A text under a key that is not a text field comes back as the same text if and only
      if it is no truth word and nothing `int()` reads, or with a dot nothing `float()`
      reads. */
  lemma CoercedTextSurvivesExactly(key: string, s: string)
    requires !Textual(key)
    ensures var v := RStrip(Sanitised(s));
            ReadAs(key, RStrip(Wire(VText(s)))) == DText(v) <==>
              && v !in {"true", "True", "false", "False"}
              && (if '.' in v then ParseFloat(v).None? else ParseInt(v).None?)
  {
    hide ParseInt, ParseFloat;
  }

  // ----- decimal numbers --------------------------------------------------------------------

  predicate AllDigits(s: string) { forall i :: 0 <= i < |s| ==> IsDigit(s[i]) }

  /** `whole.part` with a sign, as `str` and `DoubleToString` print it. */
  function Fixed(negative: bool, whole: string, part: string): string {
    (if negative then "-" else "") + whole + "." + part
  }

  lemma {:induction false} DotAt(whole: string, part: string)
    requires AllDigits(whole)
    ensures '.' in whole + "." + part && IndexOf(whole + "." + part, '.') == |whole|
  {
    var s := whole + "." + part;
    assert s[|whole|] == '.';
    if whole != [] {
      assert s[1..] == whole[1..] + "." + part && s[0] == whole[0];
      assert AllDigits(whole[1..]);
      DotAt(whole[1..], part);
    }
  }

  lemma {:induction false} NoExponent(s: string)
    requires forall i :: 0 <= i < |s| ==> IsDigit(s[i]) || s[i] == '.'
    ensures ExponentAt(s) == |s|
  {
    if s != [] { NoExponent(s[1..]); }
  }

  lemma {:induction false} AllDigitsCount(s: string)
    requires AllDigits(s)
    ensures DigitCount(s) == |s|
  {
    if s != [] {
      assert AllDigits(s[1..]);
      AllDigitsCount(s[1..]);
    }
  }

  lemma AllDigitsRun(s: string)
    requires AllDigits(s) && s != ""
    ensures DigitRun(s)
  {
  }

  lemma MantissaOfFixed(whole: string, part: string)
    requires AllDigits(whole) && AllDigits(part) && whole != "" && part != ""
    ensures Mantissa(whole + "." + part) == Some(Point(RunValue(whole), RunValue(part), |part|))
  {
    AllDigitsRun(whole);
    AllDigitsRun(part);
    hide RunValue, IndexOf, Point, DigitCount, DigitRun, AllDigits, Market.Pow10;
    var body := whole + "." + part;
    DotAt(whole, part);
    assert body[..|whole|] == whole && body[|whole| + 1..] == part;
    AllDigitsCount(part);
  }

  lemma ScaledByNothing(m: real)
    ensures Scaled(m, 0) == m
  {
    assert Market.Pow10(0) == 1.0;
    Market.TimesFlip(m, 1.0);
    Market.TimesUnits(m);
  }

  lemma UnsignedReads(whole: string, part: string)
    requires AllDigits(whole) && AllDigits(part) && whole != "" && part != ""
    ensures Unsigned(whole + "." + part) == Some(Point(RunValue(whole), RunValue(part), |part|))
  {
    hide RunValue, Mantissa, Scaled, DigitRun, Point;
    var body := whole + "." + part;
    forall i | 0 <= i < |body| ensures IsDigit(body[i]) || body[i] == '.' {
      if i < |whole| { assert body[i] == whole[i]; }
      if i > |whole| { assert body[i] == part[i - |whole| - 1]; }
    }
    NoExponent(body);
    assert body[..|body|] == body && body[|body|..] == "";
    MantissaOfFixed(whole, part);
    ScaledByNothing(Point(RunValue(whole), RunValue(part), |part|));
  }

  /** Reading a printed decimal gives its value, to every digit. */
  lemma FixedReads(negative: bool, whole: string, part: string)
    requires AllDigits(whole) && AllDigits(part) && whole != "" && part != ""
    ensures var m := Point(RunValue(whole), RunValue(part), |part|);
            ParseFloat(Fixed(negative, whole, part)) == Some(if negative then -m else m)
  {
    hide RunValue, Unsigned, Strip, AllDigits, IsDigit, Point;
    var body, s := whole + "." + part, Fixed(negative, whole, part);
    FixedStrips(negative, whole, part);
    UnsignedReads(whole, part);
    assert if negative then s[0] == '-' && s[1..] == body else s == body;
  }

  lemma FixedStrips(negative: bool, whole: string, part: string)
    requires AllDigits(whole) && AllDigits(part) && whole != "" && part != ""
    ensures var s := Fixed(negative, whole, part);
            Strip(s) == s && (!negative ==> s[0] != '-' && s[0] != '+')
  {
    hide WireChar, Strip, IsSpace;
    FixedChars(negative, whole, part);
    StripPlain(Fixed(negative, whole, part));
    assert !negative ==> Fixed(negative, whole, part)[0] == whole[0];
  }

  lemma FixedChars(negative: bool, whole: string, part: string)
    requires AllDigits(whole) && AllDigits(part) && whole != "" && part != ""
    ensures var s := Fixed(negative, whole, part);
            && '.' in s && (IsDigit(s[0]) || s[0] == '-') && !IsSpace(s[0]) && !IsSpace(s[|s| - 1])
            && forall i :: 0 <= i < |s| ==> WireChar(s[i]) == s[i]
  {
    var sign, s := if negative then "-" else "", Fixed(negative, whole, part);
    var dot := |sign| + |whole|;
    assert s[dot] == '.';
    assert s[|s| - 1] == part[|part| - 1];
    forall i | 0 <= i < |s| ensures IsDigit(s[i]) || s[i] == '.' || s[i] == '-' {
      if |sign| <= i < dot { assert s[i] == whole[i - |sign|]; }
      if i > dot { assert s[i] == part[i - dot - 1]; }
    }
  }

  lemma {:induction false} ExponentFollows(body: string, tail: string)
    requires forall i :: 0 <= i < |body| ==> IsDigit(body[i]) || body[i] == '.'
    requires tail != "" && tail[0] == 'e'
    ensures ExponentAt(body + tail) == |body|
  {
    var s := body + tail;
    if body != [] {
      assert s[0] == body[0] && s[1..] == body[1..] + tail;
      ExponentFollows(body[1..], tail);
    }
  }

  /** `e`, a sign and digits. */
  function Tail(sign: char, digits: string): (t: string)
    ensures t != "" && t[0] == 'e'
  {
    "e" + [sign] + digits
  }

  lemma ExponentOf(sign: char, digits: string)
    requires sign in {'-', '+'} && AllDigits(digits) && digits != ""
    ensures Exponent(Tail(sign, digits)) == Some(if sign == '-' then 0 - RunValue(digits) else RunValue(digits))
  {
    hide RunValue, DigitRun;
    var s := Tail(sign, digits);
    assert s[1] == sign && s[2..] == digits;
    AllDigitsRun(digits);
  }

  lemma UnsignedParts(body: string, tail: string, m: real, e: int)
    requires ExponentAt(body + tail) == |body| && Mantissa(body) == Some(m) && Exponent(tail) == Some(e)
    ensures Unsigned(body + tail) == Some(Scaled(m, e))
  {
    hide Mantissa, Exponent, Scaled, ExponentAt;
    assert (body + tail)[..|body|] == body && (body + tail)[|body|..] == tail;
  }

  /** With an exponent the value is scaled by that power of ten, up or down. */
  lemma ExponentReads(whole: string, part: string, sign: char, digits: string)
    requires AllDigits(whole) && AllDigits(part) && whole != "" && part != ""
    requires sign in {'-', '+'} && AllDigits(digits) && digits != ""
    ensures var m, n := Point(RunValue(whole), RunValue(part), |part|), RunValue(digits);
            Unsigned((whole + "." + part) + Tail(sign, digits)) == Some(Scaled(m, if sign == '-' then 0 - n else n))
  {
    hide ExponentAt, Mantissa, Exponent, Unsigned, Scaled, Point, Tail, RunValue, IsDigit;
    EndsAtExponent(whole, part, Tail(sign, digits));
    MantissaOfFixed(whole, part);
    ExponentOf(sign, digits);
    UnsignedParts(whole + "." + part, Tail(sign, digits), Point(RunValue(whole), RunValue(part), |part|),
                  if sign == '-' then 0 - RunValue(digits) else RunValue(digits));
  }

  lemma EndsAtExponent(whole: string, part: string, tail: string)
    requires AllDigits(whole) && AllDigits(part) && tail != "" && tail[0] == 'e'
    ensures ExponentAt((whole + "." + part) + tail) == |whole + "." + part|
  {
    hide IsDigit, ExponentAt;
    BodyChars(whole, part);
    ExponentFollows(whole + "." + part, tail);
  }

  lemma ScaledExactly(m: real, n: nat)
    ensures Scaled(m, n) == Market.Times(m, Market.Pow10(n))
    ensures n > 0 ==> Scaled(m, 0 - n) == Market.Over(m, Market.Pow10(n))
  {
  }

  lemma BodyChars(whole: string, part: string)
    requires AllDigits(whole) && AllDigits(part)
    ensures forall i :: 0 <= i < |whole + "." + part| ==> IsDigit((whole + "." + part)[i]) || (whole + "." + part)[i] == '.'
  {
    var body := whole + "." + part;
    forall i | 0 <= i < |body| ensures IsDigit(body[i]) || body[i] == '.' {
      if i < |whole| { assert body[i] == whole[i]; }
      if i > |whole| { assert body[i] == part[i - |whole| - 1]; }
    }
  }

  /** A decimal comes back with every digit, on any key that is not a text field. */
  lemma FloatSurvives(key: string, negative: bool, whole: string, part: string)
    requires !Textual(key) && AllDigits(whole) && AllDigits(part) && whole != "" && part != ""
    ensures var m := Point(RunValue(whole), RunValue(part), |part|);
            ReadAs(key, RStrip(Wire(VFloat(Fixed(negative, whole, part))))) == DReal(if negative then -m else m)
  {
    hide ParseFloat, ParseInt, RunValue, IsSpace, WireChar, Sanitised;
    var s := Fixed(negative, whole, part);
    FixedChars(negative, whole, part);
    SanitisedSame(s);
    TrimmedSame(s);
    NotAWord(s);
    FixedReads(negative, whole, part);
  }

  /** But `str` prints small and large floats with an exponent and no dot, and that is
      read as a text. */
  lemma BareExponentIsText(key: string, digits: string, sign: char, exponent: string)
    requires !Textual(key) && sign in {'-', '+'} && AllDigits(digits) && AllDigits(exponent) && digits != "" && exponent != ""
    ensures var s := digits + "e" + [sign] + exponent;
            ReadAs(key, RStrip(Wire(VFloat(s)))) == DText(s)
  {
    hide ParseFloat, RunValue, IsSpace, WireChar, Sanitised;
    var s := digits + "e" + [sign] + exponent;
    BareChars(digits, sign, exponent);
    SanitisedSame(s);
    TrimmedSame(s);
    NotAWord(s);
    assert s[|digits|] == 'e' && !IsDigit('e');
  }

  lemma BareChars(digits: string, sign: char, exponent: string)
    requires sign in {'-', '+'} && AllDigits(digits) && AllDigits(exponent) && digits != "" && exponent != ""
    ensures var s := digits + "e" + [sign] + exponent;
            && '.' !in s && IsDigit(s[0]) && !IsSpace(s[0]) && !IsSpace(s[|s| - 1])
            && forall i :: 0 <= i < |s| ==> WireChar(s[i]) == s[i]
  {
    var s := digits + "e" + [sign] + exponent;
    var e := |digits|;
    assert s[0] == digits[0] && s[|s| - 1] == exponent[|exponent| - 1];
    forall i | 0 <= i < |s| ensures IsDigit(s[i]) || s[i] == 'e' || s[i] == sign {
      if i < e { assert s[i] == digits[i]; }
      if i > e + 1 { assert s[i] == exponent[i - e - 2]; }
    }
  }

  predicate HexDigit(c: char) { IsDigit(c) || 'a' <= c <= 'f' }

  /** What `token_hex` draws: lower-case hex digits. */
  predicate HexKey(k: string) { k != "" && forall i :: 0 <= i < |k| ==> HexDigit(k[i]) }

  lemma HexChar(c: char)
    requires HexDigit(c)
    ensures WireChar(c) == c && !IsSpace(c) && c != '.' && c !in {'t', 'T', 'l', 'F'}
  {
  }

  lemma SanitisedSame(k: string)
    requires forall i :: 0 <= i < |k| ==> WireChar(k[i]) == k[i]
    ensures Sanitised(k) == k
  {
    hide WireChar, Sanitised;
  }

  lemma TrimmedSame(k: string)
    requires k != "" && !IsSpace(k[0]) && !IsSpace(k[|k| - 1])
    ensures RStrip(k) == k && Strip(k) == k
  {
    hide IsSpace;
  }

  lemma HexIsPlain(k: string)
    requires HexKey(k)
    ensures Sanitised(k) == k && RStrip(k) == k && Strip(k) == k && '.' !in k
    ensures k !in {"true", "True", "false", "False"}
  {
    hide HexDigit, WireChar, IsSpace, Sanitised, RStrip, Strip;
    forall i | 0 <= i < |k|
      ensures WireChar(k[i]) == k[i] && !IsSpace(k[i]) && k[i] != '.' && k[i] !in {'t', 'T', 'l', 'F'}
    {
      HexChar(k[i]);
    }
    SanitisedSame(k);
    TrimmedSame(k);
    assert "true"[0] == 't' && "True"[0] == 'T' && "false"[2] == 'l' && "False"[0] == 'F';
  }

  lemma HexReadsAsInt(k: string)
    requires HexKey(k)
    ensures ParseInt(k).Some? <==> forall i :: 0 <= i < |k| ==> IsDigit(k[i])
    ensures ParseInt(k).Some? ==> ParseInt(k).value == RunValue(k)
  {
    HexIsPlain(k);
    assert HexDigit(k[0]);
    if ParseInt(k).Some? {
      forall i | 0 <= i < |k| ensures IsDigit(k[i]) { assert HexDigit(k[i]); }
    }
  }

  /** The client key of a send, as the decoder reads it: the key itself if and only if it
      has a letter. A key of digits only comes back as a number, its zeros lost. */
  lemma ClientKeySurvivesExactly(k: string)
    requires HexKey(k)
    ensures var read := ReadAs("client_id", RStrip(Wire(VText(k))));
            && (read == DText(k) <==> exists i :: 0 <= i < |k| && !IsDigit(k[i]))
            && ((forall i :: 0 <= i < |k| ==> IsDigit(k[i])) ==> read == DInt(RunValue(k)))
  {
    hide ParseInt, ParseFloat, Sanitised, RStrip, RunValue;
    HexIsPlain(k);
    HexReadsAsInt(k);
    ClientIdIsCoerced();
  }

  lemma ClientIdIsCoerced()
    ensures !Textual("client_id")
  {
    assert "client_id"[0] == 'c' && "row"[0] == 'r';
    assert "client_id"[1] == 'l' && "comment"[1] == 'o' && "currency"[1] == 'u';
    assert "symbol"[0] == 's' && "side"[0] == 's' && "kind"[0] == 'k' && "name"[0] == 'n' && "server"[0] == 's';
    assert "error"[0] == 'e' && "op"[0] == 'o';
  }

  /** Two such keys can read as one: a zero in front is lost. */
  lemma {:induction false} LeadingZeroIsLost(k: string)
    requires forall i :: 0 <= i < |k| ==> IsDigit(k[i])
    ensures RunValue("0" + k) == RunValue(k)
  {
    var z := "0" + k;
    if k == "" {
      assert z[..0] == "" && z == "0";
    } else {
      var n := |k| - 1;
      LeadingZeroIsLost(k[..n]);
      assert z[..|z| - 1] == "0" + k[..n] && z[|z| - 1] == k[n];
    }
  }

  lemma FixedFields(op: string, payload: seq<(string, Value)>, id: int, ttl: Option<int>)
    requires DistinctKeys(Entries(op, payload, id, ttl))
    ensures var d := Expected(Entries(op, payload, id, ttl));
            && "id" in d && d["id"] == DInt(id)
            && "op" in d && d["op"] == DText(RStrip(op))
            && (ttl.Some? ==> "ttl_ms" in d && d["ttl_ms"] == DInt(ttl.value))
  {
    var es := Entries(op, payload, id, ttl);
    hide Expected, Decimal, Present, DistinctKeys;
    assert es[0] == ("id", Decimal(id)) && es[1] == ("op", op);
    ExpectedValue(es, 0);
    ExpectedValue(es, 1);
    NotTextual();
    IntSurvives("id", id);
    if ttl.Some? {
      assert es[|es| - 1] == ("ttl_ms", Decimal(ttl.value));
      ExpectedValue(es, |es| - 1);
      IntSurvives("ttl_ms", ttl.value);
    }
  }

  lemma NotTextual()
    ensures !Textual("id") && !Textual("ttl_ms")
  {
    assert !("row" <= "id") && !("row" <= "ttl_ms") by { assert "ttl_ms"[0] != "row"[0]; }
    assert |"id"| == 2 && |"ttl_ms"| == 6 && "ttl_ms"[0] == 't' && "symbol"[0] == 's' && "server"[0] == 's';
    assert "op"[0] == 'o' && "id"[0] == 'i';
  }

  lemma PayloadFields(op: string, payload: seq<(string, Value)>, id: int, ttl: Option<int>)
    requires DistinctKeys(Entries(op, payload, id, ttl))
    ensures var d := Expected(Entries(op, payload, id, ttl));
            forall i :: 0 <= i < |payload| && !payload[i].1.VNone? ==>
              payload[i].0 in d && d[payload[i].0] == ReadAs(payload[i].0, RStrip(Wire(payload[i].1)))
  {
    hide Expected, Present, ReadAs, RStrip, Wire, DistinctKeys, Entries;
    var es := Entries(op, payload, id, ttl);
    forall i | 0 <= i < |payload| && !payload[i].1.VNone?
      ensures payload[i].0 in Expected(es)
      ensures Expected(es)[payload[i].0] == ReadAs(payload[i].0, RStrip(Wire(payload[i].1)))
    {
      var j := EntryOfItem(op, payload, id, ttl, i);
      ExpectedValue(es, j);
    }
  }

  lemma OnlyTheseKeys(op: string, payload: seq<(string, Value)>, id: int, ttl: Option<int>)
    ensures forall k :: k in Expected(Entries(op, payload, id, ttl)) ==> Accounted(payload, ttl, k)
  {
    var es, ps := Entries(op, payload, id, ttl), Present(payload);
    PresentFacts(payload);
    forall k | k in Expected(es) ensures Accounted(payload, ttl, k) {
      ExpectedKeys(es, k);
      var j :| 0 <= j < |es| && es[j].0 == k;
      if 2 <= j < 2 + |ps| {
        assert es[j] == ps[j - 2] && ps[j - 2] in ps;
      }
    }
  }

  // ----- printable text is safe, a vertical tab is not ---------------------------------

  predicate Printable(s: string) { forall i :: 0 <= i < |s| ==> 32 <= s[i] as int <= 126 }

  /** Printable text, CR, LF and anything outside ASCII leave no line break behind. */
  lemma PrintableIsSendable(s: string)
    requires forall i :: 0 <= i < |s| ==>
               32 <= s[i] as int <= 126 || s[i] == '\r' || s[i] == '\n' || s[i] as int >= 128
    ensures Printable(Sanitised(s)) && NoBreak(Wire(VText(s))) && '|' !in Sanitised(s)
  {
    hide Sanitised;
    var r := Sanitised(s);
    forall i | 0 <= i < |r| ensures 32 <= r[i] as int <= 126 && r[i] != '|' {
      assert r[i] == WireChar(s[i]);
    }
  }

  /** A vertical tab is no CR or LF, so the sanitiser passes it, but it ends a line:
      what follows it in a comment is read as another key of the request. */
  lemma VerticalTabAddsKey(op: string, comment: string, key: string, value: string, id: int, ttl: Option<int>)
    requires NoBreak(comment) && NoBreak(key + "=" + value) && GoodKey(key)
    requires Sanitised(comment) == comment && Sanitised(key + "=" + value) == key + "=" + value
    ensures var text := comment + "\U{00000B}" + (key + "=" + value);
            key in Decoding(Encoded(op, [("comment", VText(text))], id, ttl))
  {
    hide Sanitised, Decimal;
    var rest := key + "=" + value;
    var text := comment + "\U{00000B}" + rest;
    TabPasses(comment, rest);
    var head := [("id", Decimal(id)), ("op", op)];
    var item := ("comment", text);
    var last := if ttl.Some? then [("ttl_ms", Decimal(ttl.value))] else [];
    OneItem(op, text, id, ttl);
    TabInEntry(EntryLines(head), comment, key, value);
    assert (head + [item])[..|head|] == head;
    KeyStays(head + [item], last, key);
  }

  lemma OneItem(op: string, text: string, id: int, ttl: Option<int>)
    requires Sanitised(text) == text
    ensures Entries(op, [("comment", VText(text))], id, ttl)
            == [("id", Decimal(id)), ("op", op)] + [("comment", text)]
               + (if ttl.Some? then [("ttl_ms", Decimal(ttl.value))] else [])
  {
    var payload := [("comment", VText(text))];
    assert payload[..0] == [];
    assert Present(payload) == [("comment", text)];
  }

  /** The two lines of the comment, and the key of the second. */
  lemma TabInEntry(prev: seq<string>, comment: string, key: string, value: string)
    requires NoBreak(comment) && NoBreak(key + "=" + value) && GoodKey(key)
    ensures var text := comment + "\U{00000B}" + (key + "=" + value);
            key in DecodedLines(prev + Lines(Line(("comment", text))))
  {
    hide ReadAs, RStrip, Strip, IndexOf, GoodKey;
    var head, rest := "comment=" + comment, key + "=" + value;
    assert Line(("comment", comment + "\U{00000B}" + rest)) == head + ['\U{00000B}'] + rest;
    assert NoBreak(head);
    LinesSplit(head, '\U{00000B}', rest);
    PlainLine(head);
    PlainLine(rest);
    var lines := prev + [head] + [rest];
    assert prev + ([head] + [rest]) == lines && lines[..|lines| - 1] == prev + [head];
    assert rest == Line((key, value));
    LineReadsBack(DecodedLines(prev + [head]), key, value);
  }

  lemma {:induction false} LinesKeepKeys(prev: seq<string>, lines: seq<string>, key: string)
    requires key in DecodedLines(prev)
    ensures key in DecodedLines(prev + lines)
  {
    hide ReadAs, Strip;
    if lines == [] {
      assert prev + lines == prev;
    } else {
      var n := |lines| - 1;
      LinesKeepKeys(prev, lines[..n], key);
      assert (prev + lines)[..|prev + lines| - 1] == prev + lines[..n];
    }
  }

  lemma {:induction false} EntryLinesConcat(a: seq<(string, string)>, b: seq<(string, string)>)
    ensures EntryLines(a + b) == EntryLines(a) + EntryLines(b)
  {
    hide Lines, Line;
    if b == [] {
      assert a + b == a;
    } else {
      var n := |b| - 1;
      assert (a + b)[|a + b| - 1] == b[n];
      EntryLinesConcat(a, b[..n]);
      assert (a + b)[..|a + b| - 1] == a + b[..n];
    }
  }

  lemma KeyStays(es: seq<(string, string)>, more: seq<(string, string)>, key: string)
    requires key in DecodedLines(EntryLines(es))
    ensures key in Decoding(Text(es + more))
  {
    hide DecodedLines, EntryLines, Text;
    LinesOfText(es + more, "");
    assert Text(es + more) + "" == Text(es + more);
    EntryLinesConcat(es, more);
    LinesKeepKeys(EntryLines(es), EntryLines(more), key);
    LinesKeepKeys(EntryLines(es) + EntryLines(more), Lines(""), key);
  }

  lemma TabPasses(a: string, b: string)
    requires Sanitised(a) == a && Sanitised(b) == b
    ensures Sanitised(a + "\U{00000B}" + b) == a + "\U{00000B}" + b
  {
    var tab := "\U{00000B}";
    assert WireChar(tab[0]) == tab[0];
    assert Sanitised(tab) == tab;
    SanitisedConcat(a, tab);
    SanitisedConcat(a + tab, b);
  }

  /** The sanitiser works character by character. */
  lemma SanitisedConcat(a: string, b: string)
    ensures Sanitised(a + b) == Sanitised(a) + Sanitised(b)
  {
    hide WireChar;
  }

  // ----- rows ----------------------------------------------------------------------------

  lemma {:induction false} SplitAtBar(field: string, rest: string)
    requires '|' !in field
    ensures SplitRow(field + "|" + rest) == [field] + SplitRow(rest)
    ensures SplitRow(field) == [field]
  {
    if field == [] {
      assert ("" + "|" + rest)[1..] == rest;
    } else {
      var tail := field[1..];
      SplitAtBar(tail, rest);
      assert (field + "|" + rest)[1..] == tail + "|" + rest;
      assert [field[0]] + tail == field;
    }
  }

  /** A row of sanitised fields splits back into the same fields. */
  lemma {:induction false} RowRoundTrip(fields: seq<string>)
    requires fields != [] && forall i :: 0 <= i < |fields| ==> '|' !in fields[i]
    ensures SplitRow(JoinRow(fields)) == fields
  {
    if |fields| == 1 {
      SplitAtBar(fields[0], "");
    } else {
      RowRoundTrip(fields[1..]);
      SplitAtBar(fields[0], JoinRow(fields[1..]));
      assert fields == [fields[0]] + fields[1..];
    }
  }

  lemma WireHasNoBar(v: Value)
    ensures '|' !in Wire(v)
  {
    if v.VInt? {
      NoBarSanitised(Decimal(v.i));
    } else if v.VFloat? {
      NoBarSanitised(v.printed);
    } else if v.VText? {
      NoBarSanitised(v.s);
    }
    hide Decimal, Sanitised;
  }

  lemma NoBarSanitised(s: string)
    ensures '|' !in Sanitised(s)
  {
    forall i | 0 <= i < |s| ensures WireChar(s[i]) != '|' {}
  }

  /** What a row does not hold: an empty text, or the number zero. */
  lemma MissingFields(name: string, parts: seq<string>, i: nat)
    requires i >= |parts| || parts[i] == ""
    ensures FieldOf(name, parts, i) == if name in TEXT_FIELDS then DText("") else DInt(0)
  {
  }

  /** Field by field: a text field comes back as it was sent, any other field as its text
      reads alone, and an empty one as zero. */
  lemma RowFieldsSurvive(names: seq<string>, values: seq<Value>, i: nat)
    requires i < |names| == |values|
    ensures var row := JoinRow(seq(|values|, k requires 0 <= k < |values| => Wire(values[k])));
            var field := FieldOf(names[i], SplitRow(row), i);
            && field == (if names[i] in TEXT_FIELDS then DText(Wire(values[i]))
                         else if Wire(values[i]) != "" then Coerced(Wire(values[i])) else DInt(0))
            && (values[i].VInt? && names[i] !in TEXT_FIELDS ==> field == DInt(values[i].i))
            && (values[i].VBool? && names[i] !in TEXT_FIELDS ==> field == DBool(values[i].b))
            && (values[i].VText? && names[i] in TEXT_FIELDS ==> field == DText(Sanitised(values[i].s)))
  {
    hide Decimal, JoinRow, SplitRow, ParseInt, Sanitised;
    var fields := seq(|values|, k requires 0 <= k < |values| => Wire(values[k]));
    forall k | 0 <= k < |fields| ensures '|' !in fields[k] { WireHasNoBar(values[k]); }
    RowRoundTrip(fields);
    if values[i].VInt? {
      SanitisedDecimal(values[i].i);
      CoercedDecimal(values[i].i);
      DecimalIsPlain(values[i].i);
    }
  }
}
