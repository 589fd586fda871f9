/** How the decoder reads a body line by line: where lines break, which of them are
    skipped, and what one entry leaves in the map. */
module CodecLines {
  import opened Codec

  // ----- breaking ------------------------------------------------------------------

  /** A break character ends what came before and starts afresh. */
  lemma {:induction false} LinesSplit(a: string, c: char, rest: string)
    requires IsBreak(c)
    ensures Lines(a + [c] + rest) == Lines(a) + Lines(rest)
  {
    hide Lines;
    if a == [] {
      LinesCons(c, rest);
      assert a + [c] + rest == [c] + rest;
    } else {
      var tail := a[1..];
      LinesSplit(tail, c, rest);
      LinesCons(a[0], tail);
      LinesCons(a[0], tail + [c] + rest);
      assert a == [a[0]] + tail && a + [c] + rest == [a[0]] + (tail + [c] + rest);
      HeadGrows(a[0], Lines(tail), Lines(rest));
    }
  }

  lemma LinesCons(c: char, s: string)
    ensures Lines([c] + s) == if IsBreak(c) then [""] + Lines(s) else [[c] + Lines(s)[0]] + Lines(s)[1..]
    ensures Lines("") == [""]
  {
    assert ([c] + s)[1..] == s;
  }

  lemma HeadGrows(c: char, l1: seq<string>, l2: seq<string>)
    requires |l1| >= 1
    ensures [[c] + (l1 + l2)[0]] + (l1 + l2)[1..] == ([[c] + l1[0]] + l1[1..]) + l2
    ensures [""] + (l1 + l2) == ([""] + l1) + l2
  {
  }

  lemma {:induction false} LinesAfter(head: string, tail: string)
    requires NoBreak(head)
    ensures Lines(head + tail) == [head + Lines(tail)[0]] + Lines(tail)[1..]
  {
    var s := head + tail;
    if head == [] {
      assert s == tail && head + Lines(tail)[0] == Lines(tail)[0];
      assert Lines(tail) == [Lines(tail)[0]] + Lines(tail)[1..];
    } else {
      LinesAfter(head[1..], tail);
      assert s[1..] == head[1..] + tail;
      assert [head[0]] + (head[1..] + Lines(tail)[0]) == head + Lines(tail)[0];
    }
  }

  lemma PlainLine(s: string)
    requires NoBreak(s)
    ensures Lines(s) == [s]
  {
    LinesAfter(s, "");
    assert s + "" == s;
  }

  lemma {:induction false} LinesUnbroken(s: string)
    ensures forall i :: 0 <= i < |Lines(s)| ==> NoBreak(Lines(s)[i])
  {
    if s != [] {
      LinesUnbroken(s[1..]);
    }
  }

  // ----- blanks --------------------------------------------------------------------

  predicate Blank(s: string) { forall i :: 0 <= i < |s| ==> IsSpace(s[i]) }

  lemma {:induction false} LinesOfBlank(s: string)
    requires Blank(s)
    ensures forall i :: 0 <= i < |Lines(s)| ==> Blank(Lines(s)[i])
  {
    if s != [] {
      LinesOfBlank(s[1..]);
    }
  }

  lemma {:induction false} BlankStrips(s: string)
    requires Blank(s)
    ensures Strip(s) == ""
  {
    if s != [] {
      BlankStrips(s[1..]);
    }
  }

  /** Trimming cuts a blank tail and nothing else. */
  lemma {:induction false} RStripCuts(s: string)
    ensures RStrip(s) <= s && Blank(s[|RStrip(s)|..])
    ensures RStrip(s) != [] ==> !IsSpace(RStrip(s)[|RStrip(s)| - 1])
  {
    if s != [] && IsSpace(s[|s| - 1]) {
      RStripCuts(s[..|s| - 1]);
      assert s[|RStrip(s)|..] == s[..|s| - 1][|RStrip(s)|..] + [s[|s| - 1]];
    }
  }

  lemma {:induction false} RStripDropsBlank(s: string, blank: string)
    requires Blank(blank)
    ensures RStrip(s + blank) == RStrip(s)
  {
    if blank == [] {
      assert s + blank == s;
    } else {
      var n := |blank| - 1;
      RStripDropsBlank(s, blank[..n]);
      assert (s + blank)[..|s + blank| - 1] == s + blank[..n];
    }
  }

  lemma RStripUnbroken(s: string)
    requires NoBreak(s)
    ensures NoBreak(RStrip(s))
  {
    RStripCuts(s);
  }

  lemma {:induction false} BlankLinesSkipped(prev: seq<string>, blanks: seq<string>)
    requires forall i :: 0 <= i < |blanks| ==> Blank(blanks[i])
    ensures DecodedLines(prev + blanks) == DecodedLines(prev)
  {
    if blanks == [] {
      assert prev + blanks == prev;
    } else {
      var n := |blanks| - 1;
      BlankLinesSkipped(prev, blanks[..n]);
      assert (prev + blanks)[..|prev + blanks| - 1] == prev + blanks[..n];
      BlankStrips(blanks[n]);
    }
  }

  // ----- one entry -------------------------------------------------------------------

  /** A key that can head a line: no `=`, and no blank in front. */
  predicate GoodKey(k: string) {
    '=' !in k && (k == [] || !IsSpace(k[0]))
  }

  lemma {:induction false} RStripAfter(head: string, tail: string)
    requires head != [] && !IsSpace(head[|head| - 1])
    ensures RStrip(head + tail) == head + RStrip(tail)
  {
    if tail == [] {
      assert head + tail == head;
    } else {
      var n := |tail| - 1;
      assert (head + tail)[|head + tail| - 1] == tail[n];
      if IsSpace(tail[n]) {
        RStripAfter(head, tail[..n]);
        assert (head + tail)[..|head + tail| - 1] == head + tail[..n];
      }
    }
  }

  lemma {:induction false} FirstEqAt(k: string, rest: string)
    requires '=' !in k
    ensures '=' in k + "=" + rest && IndexOf(k + "=" + rest, '=') == |k|
  {
    var s := k + "=" + rest;
    assert s[|k|] == '=';
    if k != [] {
      assert s[1..] == k[1..] + "=" + rest;
      assert s[0] == k[0];
      FirstEqAt(k[1..], rest);
    }
  }

  /** A line sets its own key to its own value and nothing else. */
  lemma LineReadsBack(m: map<string, Decoded>, k: string, w: string)
    requires GoodKey(k)
    ensures WithLine(m, Line((k, w))) == m[k := ReadAs(k, RStrip(w))]
  {
    var head := k + "=";
    assert Line((k, w)) == head + w;
    assert LStrip(head + w) == head + w by { assert !IsSpace('='); assert (head + w)[0] == if k == [] then '=' else k[0]; }
    RStripAfter(head, w);
    var line := head + RStrip(w);
    assert line == k + "=" + RStrip(w);
    FirstEqAt(k, RStrip(w));
    assert line[..|k|] == k && line[|k| + 1..] == RStrip(w);
  }

  /** The lines of an entry: its trimmed text with some blanks, then blank lines. */
  lemma EntryShape(k: string, w: string) returns (first: string, blanks: seq<string>)
    requires NoBreak(k) && NoBreak(RStrip(w))
    ensures Lines(Line((k, w))) == [Line((k, RStrip(w) + first))] + blanks
    ensures RStrip(RStrip(w) + first) == RStrip(w) && forall i :: 0 <= i < |blanks| ==> Blank(blanks[i])
  {
    hide RStrip, Lines;
    var core := RStrip(w);
    RStripCuts(w);
    var tail := w[|core|..];
    assert w == core + tail;
    var head := k + "=" + core;
    assert Line((k, w)) == head + tail;
    LinesAfter(head, tail);
    LinesOfBlank(tail);
    first, blanks := Lines(tail)[0], Lines(tail)[1..];
    assert head + first == Line((k, core + first));
    RStripDropsBlank(core, first);
    RStripDropsBlank(core, tail);
  }

  /** An entry whose trimmed text has no break sets its own key to that text, whatever
      blank lines its untrimmed end adds. */
  lemma EntryReads(prev: seq<string>, k: string, w: string)
    requires GoodKey(k) && NoBreak(k) && NoBreak(RStrip(w))
    ensures DecodedLines(prev + Lines(Line((k, w)))) == DecodedLines(prev)[k := ReadAs(k, RStrip(w))]
  {
    hide GoodKey, WithLine, ReadAs, RStrip, Lines, Line, NoBreak;
    var first, blanks := EntryShape(k, w);
    var line := Line((k, RStrip(w) + first));
    assert prev + ([line] + blanks) == (prev + [line]) + blanks;
    BlankLinesSkipped(prev + [line], blanks);
    assert (prev + [line])[..|prev|] == prev;
    LineReadsBack(DecodedLines(prev), k, RStrip(w) + first);
  }

  // ----- all entries ------------------------------------------------------------------

  predicate CleanEntry(e: (string, string)) {
    GoodKey(e.0) && NoBreak(e.0) && NoBreak(RStrip(e.1))
  }

  predicate CleanEntries(es: seq<(string, string)>) {
    forall i :: 0 <= i < |es| ==> CleanEntry(es[i])
  }

  function EntryLines(es: seq<(string, string)>): seq<string> {
    if es == [] then [] else EntryLines(es[..|es| - 1]) + Lines(Line(es[|es| - 1]))
  }

  lemma {:induction false} LinesOfText(es: seq<(string, string)>, rest: string)
    ensures Lines(Text(es) + rest) == EntryLines(es) + Lines(rest)
  {
    hide Lines, Line;
    if es == [] {
      assert Text(es) + rest == rest;
    } else {
      var n := |es| - 1;
      var front, line := es[..n], Line(es[n]);
      assert IsBreak('\n');
      LinesSplit(line, '\n', rest);
      LinesOfText(front, line + "\n" + rest);
      assert Text(es) + rest == Text(front) + (line + "\n" + rest);
    }
  }

  /** Each entry under its own key, later ones winning. */
  function Expected(es: seq<(string, string)>): map<string, Decoded> {
    if es == [] then map[]
    else
      var (k, w) := es[|es| - 1];
      Expected(es[..|es| - 1])[k := ReadAs(k, RStrip(w))]
  }

  /** The lines of entry `e` read what entry `t` says. */
  ghost predicate ReadsAs(e: (string, string), t: (string, string)) {
    forall prev: seq<string> :: DecodedLines(prev + Lines(Line(e))) == DecodedLines(prev)[t.0 := ReadAs(t.0, RStrip(t.1))]
  }

  lemma {:induction false} EntriesRead(es: seq<(string, string)>, ts: seq<(string, string)>)
    requires |es| == |ts| && forall i :: 0 <= i < |es| ==> ReadsAs(es[i], ts[i])
    ensures DecodedLines(EntryLines(es)) == Expected(ts)
  {
    hide Lines, Line, DecodedLines, ReadAs, RStrip;
    if es == [] {
      NothingDecoded();
    } else {
      var n := |es| - 1;
      EntriesRead(es[..n], ts[..n]);
      assert ReadsAs(es[n], ts[n]);
    }
  }

  lemma NothingDecoded()
    ensures DecodedLines([]) == map[]
  {
  }

  lemma DecodingReads(es: seq<(string, string)>, ts: seq<(string, string)>)
    requires |es| == |ts| && forall i :: 0 <= i < |es| ==> ReadsAs(es[i], ts[i])
    ensures Decoding(Text(es)) == Expected(ts)
  {
    hide DecodedLines, Text, Expected, EntryLines, ReadsAs;
    LinesOfText(es, "");
    assert Text(es) + "" == Text(es);
    assert Lines("") == [""];
    BlankLinesSkipped(EntryLines(es), [""]);
    EntriesRead(es, ts);
  }

  lemma DecodingOfText(es: seq<(string, string)>)
    requires CleanEntries(es)
    ensures Decoding(Text(es)) == Expected(es)
  {
    hide DecodedLines, Text, Lines, Line, GoodKey, NoBreak, ReadAs, RStrip;
    forall i | 0 <= i < |es| ensures ReadsAs(es[i], es[i]) {
      assert CleanEntry(es[i]);
      forall prev: seq<string> {
        EntryReads(prev, es[i].0, es[i].1);
      }
    }
    DecodingReads(es, es);
  }

  // ----- no value holds a break -----------------------------------------------------------

  predicate Unbroken(d: Decoded) {
    d.DText? ==> NoBreak(d.s)
  }

  lemma {:induction false} StripUnbroken(s: string)
    requires NoBreak(s)
    ensures NoBreak(Strip(s))
  {
    if s != [] && IsSpace(s[0]) {
      StripUnbroken(s[1..]);
    } else {
      RStripUnbroken(s);
    }
  }

  /** Whatever the body, no decoded text contains a line break. */
  lemma {:induction false} DecodedUnbroken(lines: seq<string>, k: string)
    requires forall i :: 0 <= i < |lines| ==> NoBreak(lines[i])
    ensures k in DecodedLines(lines) ==> Unbroken(DecodedLines(lines)[k])
  {
    if lines != [] {
      var n := |lines| - 1;
      DecodedUnbroken(lines[..n], k);
      LineUnbroken(DecodedLines(lines[..n]), lines[n], k);
    }
  }

  lemma LineUnbroken(m: map<string, Decoded>, raw: string, k: string)
    requires NoBreak(raw) && (k in m ==> Unbroken(m[k]))
    ensures k in WithLine(m, raw) ==> Unbroken(WithLine(m, raw)[k])
  {
    StripUnbroken(raw);
    var line := Strip(raw);
    if '=' in line {
      var v := line[IndexOf(line, '=') + 1..];
      assert NoBreak(v);
      assert Unbroken(ReadAs(line[..IndexOf(line, '=')], v)) by { hide ParseInt, ParseFloat, Textual; }
    }
  }

  // ----- entries whose later lines carry nothing -------------------------------------------

  predicate DistinctKeys(es: seq<(string, string)>) {
    forall i, j :: 0 <= i < j < |es| ==> es[i].0 != es[j].0
  }

  /** No line of the text but the first can be another entry. */
  ghost predicate OneEntry(w: string) {
    forall i :: 1 <= i < |Lines(w)| ==> '=' !in Lines(w)[i]
  }

  lemma {:induction false} CharsOfLines(s: string, c: char)
    requires c !in s
    ensures forall i :: 0 <= i < |Lines(s)| ==> c !in Lines(s)[i]
  {
    if s != [] {
      CharsOfLines(s[1..], c);
    }
  }

  lemma {:induction false} RStripKeepsOut(s: string, c: char)
    requires c !in s
    ensures c !in RStrip(s)
  {
    RStripCuts(s);
  }

  lemma {:induction false} StripKeepsOut(s: string, c: char)
    requires c !in s
    ensures c !in Strip(s)
  {
    if s != [] && IsSpace(s[0]) {
      StripKeepsOut(s[1..], c);
    } else {
      RStripKeepsOut(s, c);
    }
  }

  lemma {:induction false} PlainLinesSkipped(prev: seq<string>, lines: seq<string>)
    requires forall i :: 0 <= i < |lines| ==> '=' !in lines[i]
    ensures DecodedLines(prev + lines) == DecodedLines(prev)
  {
    if lines == [] {
      assert prev + lines == prev;
    } else {
      var n := |lines| - 1;
      PlainLinesSkipped(prev, lines[..n]);
      assert (prev + lines)[..|prev + lines| - 1] == prev + lines[..n];
      StripKeepsOut(lines[n], '=');
    }
  }

  /** Such an entry sets its key to its first line. */
  lemma FirstLineReads(prev: seq<string>, k: string, w: string)
    requires GoodKey(k) && NoBreak(k) && OneEntry(w)
    ensures DecodedLines(prev + Lines(Line((k, w)))) == DecodedLines(prev)[k := ReadAs(k, RStrip(Lines(w)[0]))]
  {
    hide GoodKey, WithLine, ReadAs, RStrip;
    var head := k + "=";
    assert Line((k, w)) == head + w;
    LinesAfter(head, w);
    var first, rest := Lines(w)[0], Lines(w)[1..];
    hide Lines;
    assert head + first == Line((k, first));
    assert prev + ([head + first] + rest) == (prev + [head + first]) + rest;
    PlainLinesSkipped(prev + [head + first], rest);
    assert (prev + [head + first])[..|prev|] == prev;
    LineReadsBack(DecodedLines(prev), k, first);
  }

  /** Each entry cut to its first line. */
  function Heads(es: seq<(string, string)>): (hs: seq<(string, string)>)
    ensures |hs| == |es| && forall i :: 0 <= i < |es| ==> hs[i] == (es[i].0, Lines(es[i].1)[0])
  {
    seq(|es|, i requires 0 <= i < |es| => (es[i].0, Lines(es[i].1)[0]))
  }

  ghost predicate OneEntryEach(es: seq<(string, string)>) {
    forall i :: 0 <= i < |es| ==> GoodKey(es[i].0) && NoBreak(es[i].0) && OneEntry(es[i].1)
  }

  lemma DecodingOfFirst(es: seq<(string, string)>)
    requires OneEntryEach(es)
    ensures Decoding(Text(es)) == Expected(Heads(es))
  {
    hide DecodedLines, Text, Lines, Line, GoodKey, NoBreak, ReadAs, RStrip, OneEntry;
    forall i | 0 <= i < |es| ensures ReadsAs(es[i], Heads(es)[i]) {
      forall prev: seq<string> {
        FirstLineReads(prev, es[i].0, es[i].1);
      }
    }
    DecodingReads(es, Heads(es));
  }

  lemma {:induction false} ExpectedValue(es: seq<(string, string)>, i: nat)
    requires DistinctKeys(es) && i < |es|
    ensures es[i].0 in Expected(es) && Expected(es)[es[i].0] == ReadAs(es[i].0, RStrip(es[i].1))
  {
    hide ReadAs, RStrip;
    var n := |es| - 1;
    var front := es[..n];
    if i < n {
      assert front[i] == es[i];
      ExpectedValue(front, i);
    }
  }

  // ----- what reads back has no break --------------------------------------------------------

  /** The key reads what its own trimmed text reads alone. */
  predicate ReadsBack(d: map<string, Decoded>, e: (string, string)) {
    e.0 in d && d[e.0] == ReadAs(e.0, RStrip(e.1))
  }

  lemma BodyUnbroken(body: string, k: string)
    ensures k in Decoding(body) ==> Unbroken(Decoding(body)[k])
  {
    LinesUnbroken(body);
    DecodedUnbroken(Lines(body), k);
  }

  /** A number that `int()` or `float()` reads. */
  predicate IsNumber(v: string) { ParseInt(v).Some? || ParseFloat(v).Some? }

  /** A text with a break inside that still reads alone as break-free is a number with
      blanks in front. */
  lemma BrokenIsNumber(k: string, v: string)
    requires !NoBreak(v) && Unbroken(ReadAs(k, v))
    ensures !ReadAs(k, v).DText? && !Textual(k) && IsNumber(v)
  {
    hide ParseInt, ParseFloat, Textual;
    assert NoBreak("true") && NoBreak("True") && NoBreak("false") && NoBreak("False");
  }

  lemma {:induction false} LStripCuts(v: string) returns (lead: string)
    ensures v == lead + LStrip(v) && Blank(lead)
  {
    if v != [] && IsSpace(v[0]) {
      var rest := LStripCuts(v[1..]);
      lead := [v[0]] + rest;
    } else {
      lead := "";
    }
  }

  predicate NumberChar(c: char) {
    IsDigit(c) || c == '_' || c == '-' || c == '+' || c == '.' || c == 'e' || c == 'E'
  }

  predicate NumberChars(s: string) { forall i :: 0 <= i < |s| ==> NumberChar(s[i]) }

  lemma SignedChars(s: string)
    requires s != [] && (s[0] == '-' || s[0] == '+') && NumberChars(s[1..])
    ensures NumberChars(s)
  {
    forall i | 0 <= i < |s| ensures NumberChar(s[i]) {
      if i > 0 { assert s[1..][i - 1] == s[i]; }
    }
  }

  lemma IntChars(v: string)
    requires ParseInt(v).Some?
    ensures NumberChars(Strip(v))
  {
    var s := Strip(v);
    if s != [] && (s[0] == '-' || s[0] == '+') { SignedChars(s); }
  }

  lemma MantissaChars(s: string)
    requires Mantissa(s).Some?
    ensures NumberChars(s)
  {
    var i := IndexOf(s, '.');
    var whole, part := s[..i], s[i + 1..];
    forall j | 0 <= j < |s| ensures NumberChar(s[j]) {
      if j < i { assert s[j] == whole[j]; }
      if j > i { assert s[j] == part[j - i - 1]; }
    }
  }

  lemma ExponentChars(s: string)
    requires s == "" || s[0] == 'e' || s[0] == 'E'
    requires Exponent(s).Some?
    ensures NumberChars(s)
  {
    if s != "" {
      forall j | 0 <= j < |s| ensures NumberChar(s[j]) {
        if j >= 2 { assert s[j] == s[2..][j - 2]; }
        if j >= 1 { assert s[j] == s[1..][j - 1]; }
      }
    }
  }

  lemma {:induction false} ExponentStarts(s: string)
    ensures var x := s[ExponentAt(s)..]; x == "" || x[0] == 'e' || x[0] == 'E'
  {
    if s != [] && s[0] != 'e' && s[0] != 'E' {
      ExponentStarts(s[1..]);
      assert s[ExponentAt(s)..] == s[1..][ExponentAt(s[1..])..];
    }
  }

  lemma UnsignedChars(s: string)
    requires Unsigned(s).Some?
    ensures NumberChars(s)
  {
    hide Mantissa, Exponent, Scaled;
    var at := ExponentAt(s);
    MantissaChars(s[..at]);
    ExponentStarts(s);
    ExponentChars(s[at..]);
    forall j | 0 <= j < |s| ensures NumberChar(s[j]) {
      if j < at { assert s[j] == s[..at][j]; } else { assert s[j] == s[at..][j - at]; }
    }
  }

  lemma FloatChars(v: string)
    requires ParseFloat(v).Some?
    ensures NumberChars(Strip(v))
  {
    hide Unsigned, Strip, NumberChars;
    var s := Strip(v);
    if s[0] == '-' || s[0] == '+' {
      UnsignedChars(s[1..]);
      SignedChars(s);
    } else {
      UnsignedChars(s);
    }
  }

  /** A trimmed number: blanks, then characters of a number. */
  lemma NumberShape(v: string) returns (lead: string, digits: string)
    requires IsNumber(v) && RStrip(v) == v
    ensures v == lead + digits && Blank(lead) && NoBreak(digits) && '=' !in digits
  {
    hide ParseInt, ParseFloat, NumberChar;
    lead := LStripCuts(v);
    digits := LStrip(v);
    if digits != "" { TrimmedSuffix(lead, digits); }
    if ParseInt(v).Some? { IntChars(v); } else { FloatChars(v); }
    assert digits == Strip(v);
    forall i | 0 <= i < |digits| ensures !IsBreak(digits[i]) && digits[i] != '=' {
      NumberIsPlain(digits[i]);
    }
  }

  lemma NumberIsPlain(c: char)
    requires NumberChar(c)
    ensures !IsBreak(c) && c != '='
  {
  }

  lemma TrimmedSuffix(a: string, b: string)
    requires b != "" && RStrip(a + b) == a + b
    ensures RStrip(b) == b
  {
    RStripCuts(a + b);
    assert (a + b)[|a + b| - 1] == b[|b| - 1];
  }

  lemma {:induction false} FirstLineOfBlankLead(lead: string, rest: string)
    requires Blank(lead) && !NoBreak(lead)
    ensures Blank(Lines(lead + rest)[0])
  {
    var s := lead + rest;
    assert s[1..] == lead[1..] + rest;
    if !IsBreak(lead[0]) {
      FirstLineOfBlankLead(lead[1..], rest);
    }
  }

  lemma {:induction false} BlankRStrips(s: string)
    requires Blank(s)
    ensures RStrip(s) == ""
  {
    if s != [] {
      BlankRStrips(s[..|s| - 1]);
    }
  }

  lemma RStripTwice(w: string)
    ensures RStrip(RStrip(w)) == RStrip(w)
  {
    RStripCuts(w);
    RStripDropsBlank(RStrip(w), w[|RStrip(w)|..]);
    assert w == RStrip(w) + w[|RStrip(w)|..];
  }

  lemma BlankHasNoEq(s: string)
    requires Blank(s)
    ensures '=' !in s
  {
    assert !IsSpace('=');
  }

  /** An entry that reads back has no other entry in its later lines. */
  lemma ReadsBackIsOneEntry(body: string, k: string, w: string)
    requires ReadsBack(Decoding(body), (k, w))
    ensures OneEntry(w)
  {
    hide ReadAs, Decoding;
    var v := RStrip(w);
    RStripCuts(w);
    var tail := w[|v|..];
    assert w == v + tail;
    BlankHasNoEq(tail);
    if NoBreak(v) {
      LinesAfter(v, tail);
      LinesOfBlank(tail);
      forall i | 1 <= i < |Lines(w)| ensures '=' !in Lines(w)[i] {
        assert Lines(w)[i] == Lines(tail)[i];
        BlankHasNoEq(Lines(tail)[i]);
      }
    } else {
      BodyUnbroken(body, k);
      BrokenIsNumber(k, v);
      RStripTwice(w);
      var lead, digits := NumberShape(v);
      BlankHasNoEq(lead);
      CharsOfLines(w, '=');
    }
  }

  /** Behind a break in its leading blanks a number is not on the first line. */
  lemma BrokenLosesDigits(w: string)
    requires !NoBreak(RStrip(w)) && IsNumber(RStrip(w))
    ensures RStrip(Lines(w)[0]) == ""
  {
    hide RStrip, IsNumber, Lines;
    var v := RStrip(w);
    RStripTwice(w);
    var lead, digits := NumberShape(v);
    RStripCuts(w);
    var tail := w[|v|..];
    assert w == lead + (digits + tail);
    assert !NoBreak(lead);
    FirstLineOfBlankLead(lead, digits + tail);
    BlankRStrips(Lines(w)[0]);
  }

  /** And its trimmed text has no break: a number behind a break would lose its digits. */
  lemma FirstLineIsUnbroken(k: string, w: string)
    requires Unbroken(ReadAs(k, RStrip(w))) && ReadAs(k, RStrip(w)) == ReadAs(k, RStrip(Lines(w)[0]))
    ensures NoBreak(RStrip(w))
  {
    hide NoBreak, RStrip, Lines, ReadAs, IsNumber, Textual;
    if !NoBreak(RStrip(w)) {
      BrokenIsNumber(k, RStrip(w));
      BrokenLosesDigits(w);
      EmptyIsText(k);
      assert false;
    }
  }

  lemma EmptyIsText(k: string)
    ensures ReadAs(k, "").DText?
  {
    assert Strip("") == "";
  }

  /** Entries that all read back have no break in any trimmed text. */
  lemma AllReadBackUnbroken(es: seq<(string, string)>)
    requires DistinctKeys(es) && forall i :: 0 <= i < |es| ==> GoodKey(es[i].0) && NoBreak(es[i].0)
    requires forall i :: 0 <= i < |es| ==> ReadsBack(Decoding(Text(es)), es[i])
    ensures CleanEntries(es)
  {
    hide Decoding, Text, ReadAs, OneEntry, GoodKey, NoBreak, Expected, RStrip, Lines;
    var d := Decoding(Text(es));
    forall i | 0 <= i < |es| ensures OneEntry(es[i].1) {
      ReadsBackIsOneEntry(Text(es), es[i].0, es[i].1);
    }
    DecodingOfFirst(es);
    forall i | 0 <= i < |es| ensures NoBreak(RStrip(es[i].1)) {
      ExpectedValue(Heads(es), i);
      BodyUnbroken(Text(es), es[i].0);
      FirstLineIsUnbroken(es[i].0, es[i].1);
    }
  }
}
