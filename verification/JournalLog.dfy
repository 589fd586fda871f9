/** journal.py: an append-only log whose live file is rotated before a write
    that would take it past the limit. `Log` is the value the class keeps. */
module JournalLog {
  import opened Wrappers
  import opened Confirm

  const ROTATE_BYTES: nat := 10 * 1024 * 1024

  /** One JSON line: the event name, the other fields, and its size on disk. */
  datatype Rec = Rec(event: string, fields: Fields, bytes: nat)

  function Bytes(s: seq<Rec>): nat {
    if s == [] then 0 else Bytes(s[..|s| - 1]) + s[|s| - 1].bytes
  }

  /** How a write ends: the line is on disk; nothing happened; or the file was rotated
      if that was due and only `part` bytes of the line went in, with no newline. The
      last two surface as an exception. */
  datatype WriteEnd = Landed | Missed | Torn(part: nat)

  /** Every readable record ever written and where the live file starts in it; the bytes
      of unreadable lines in the live file, whether it ends in an unfinished one, and
      whether it exists. */
  datatype Log = Log(full: seq<Rec>, liveFrom: nat, junk: nat, torn: bool, present: bool)
  {
    predicate Valid() { liveFrom <= |full| && (torn ==> junk > 0) && (present || (liveFrom == |full| && junk == 0)) }

    function Live(): seq<Rec>
      requires Valid()
    {
      full[liveFrom..]
    }

    predicate Rotates(incoming: nat)
      requires Valid()
    {
      present && Bytes(Live()) + junk + incoming > ROTATE_BYTES
    }

    /** `_rotate_if_needed`. */
    function Rotated(incoming: nat): (l: Log)
      requires Valid()
      ensures l.Valid() && l.full == full && (l == this || (l.Live() == [] && !l.torn))
    {
      if Rotates(incoming) then Log(full, |full|, 0, false, true) else this
    }

    /** The record becomes readable: its line is written and does not run into an
        unfinished one. */
    predicate Lands(rec: Rec, end: WriteEnd)
      requires Valid()
    {
      end.Landed? && !Rotated(rec.bytes).torn
    }

    /** The write itself, once the file was rotated. */
    function Append(rec: Rec, end: WriteEnd): (l: Log)
      requires Valid()
      ensures l.Valid()
    {
      match end
      case Missed => this
      case Torn(part) => this.(present := true, junk := junk + part, torn := torn || part > 0)
      case Landed =>
        if torn then this.(present := true, junk := junk + rec.bytes, torn := false)
        else this.(present := true, full := full + [rec])
    }

    function Put(rec: Rec, end: WriteEnd): (l: Log)
      requires Valid()
      ensures l.Valid()
    {
      if end.Missed? then this else Rotated(rec.bytes).Append(rec, end)
    }
  }

  const EMPTY_LOG := Log([], 0, 0, false, false)

  /** The last record whose event is one of `names`. */
  function LastOf(s: seq<Rec>, names: set<string>): Option<Rec> {
    if s == [] then None
    else if s[|s| - 1].event in names then Some(s[|s| - 1])
    else LastOf(s[..|s| - 1], names)
  }

  /** A wanted record at `i` with nothing wanted behind it. */
  predicate LastAt(s: seq<Rec>, names: set<string>, r: Rec, i: int) {
    && 0 <= i < |s| && s[i] == r && r.event in names
    && forall j :: i < j < |s| ==> s[j].event !in names
  }

  /** `LastOf` finds a record exactly when it is wanted and nothing wanted
      follows it. */
  lemma {:induction false} LastOfIsLast(s: seq<Rec>, names: set<string>, r: Rec)
    ensures LastOf(s, names) == Some(r) <==> exists i :: LastAt(s, names, r, i)
  {
    if s != [] {
      var n := |s| - 1;
      LastOfIsLast(s[..n], names, r);
      if s[n].event in names {
        if LastOf(s, names) == Some(r) { assert LastAt(s, names, r, n); }
        if i :| LastAt(s, names, r, i) { assert i == n; }
      } else {
        assert s == s[..n] + [s[n]];
        LastAtFront(s[..n], s[n], names, r);
      }
    }
  }

  lemma LastAtFront(front: seq<Rec>, last: Rec, names: set<string>, r: Rec)
    requires last.event !in names
    ensures (exists i :: LastAt(front + [last], names, r, i)) <==> exists i :: LastAt(front, names, r, i)
  {
    var s := front + [last];
    if i :| LastAt(front, names, r, i) {
      forall j | i < j < |s| ensures s[j].event !in names {
        if j < |front| { assert s[j] == front[j]; }
      }
      assert LastAt(s, names, r, i);
    }
    if i :| LastAt(s, names, r, i) {
      forall j | i < j < |front| ensures front[j].event !in names { assert front[j] == s[j]; }
      assert LastAt(front, names, r, i);
    }
  }

  lemma LastOfSnoc(s: seq<Rec>, names: set<string>, r: Rec)
    ensures LastOf(s + [r], names) == if r.event in names then Some(r) else LastOf(s, names)
  {
    assert (s + [r])[..|s|] == s;
  }

  lemma {:induction false} LastOfAppend(a: seq<Rec>, b: seq<Rec>, names: set<string>)
    ensures LastOf(a + b, names) == if LastOf(b, names).Some? then LastOf(b, names) else LastOf(a, names)
  {
    if b == [] {
      assert a + b == a;
    } else {
      var n := |b| - 1;
      LastOfAppend(a, b[..n], names);
      assert (a + b)[..|a| + n] == a + b[..n];
    }
  }

  /** Rotation hides records and never resurrects one: what the live file answers
      is what the whole log answers, or nothing. */
  lemma LiveNeverDisagrees(l: Log, names: set<string>)
    requires l.Valid()
    ensures LastOf(l.Live(), names).Some? ==> LastOf(l.Live(), names) == LastOf(l.full, names)
  {
    LastOfAppend(l.full[..l.liveFrom], l.Live(), names);
    assert l.full[..l.liveFrom] + l.Live() == l.full;
  }

  /** What a write does to both answers: a record that lands is the answer when it is
      wanted; anything else leaves the answer of the whole log alone, and that of the
      live file alone or rotated away. */
  lemma LiveAfterPut(l: Log, names: set<string>, rec: Rec, end: WriteEnd)
    requires l.Valid()
    ensures var l' := l.Put(rec, end);
            if l.Lands(rec, end) && rec.event in names then
              LastOf(l'.Live(), names) == LastOf(l'.full, names) == Some(rec)
            else
              LastOf(l'.full, names) == LastOf(l.full, names)
              && LastOf(l'.Live(), names) in {LastOf(l.Live(), names), None}
  {
    hide Bytes;
    var r, l' := l.Rotated(rec.bytes), l.Put(rec, end);
    if l.Lands(rec, end) {
      LastOfSnoc(l.full, names, rec);
      LastOfSnoc(r.Live(), names, rec);
      assert l'.Live() == r.Live() + [rec];
    } else {
      assert l'.full == l.full && (l'.Live() == l.Live() || l'.Live() == []);
    }
  }

  /** A line that stops halfway swallows the next record, unless that one rotates the file;
      one that lands or fails outright swallows nothing. */
  lemma HalfLineSwallows(l: Log, first: Rec, end: WriteEnd, next: Rec)
    requires l.Valid()
    ensures var l1 := l.Put(first, end);
            && (end.Torn? && end.part > 0 ==> (l1.Lands(next, Landed) <==> l1.Rotates(next.bytes)))
            && (end.Landed? ==> l1.Lands(next, Landed))
            && (end.Missed? ==> l1 == l)
  {
  }

  /** Rotation keeps the live file small: after a write it holds at most 10 MB, or only what
      that write put there; and nothing is rotated away while it would fit. */
  lemma LiveStaysSmall(l: Log, rec: Rec, end: WriteEnd)
    requires l.Valid() && !end.Missed? && (end.Torn? ==> end.part <= rec.bytes)
    ensures var l' := l.Put(rec, end);
            && (Bytes(l'.Live()) + l'.junk <= 10 * 1024 * 1024 || Bytes(l'.Live()) + l'.junk <= rec.bytes)
            && (!l.present || Bytes(l.Live()) + l.junk + rec.bytes <= 10 * 1024 * 1024 ==> l'.liveFrom == l.liveFrom)
            && (l.present && Bytes(l.Live()) + l.junk + rec.bytes > 10 * 1024 * 1024 ==> l'.liveFrom == |l.full|)
            && l'.present
  {
    var r := l.Rotated(rec.bytes);
    assert (r.full + [rec])[r.liveFrom..] == r.Live() + [rec];
    assert (r.Live() + [rec])[..|r.Live()|] == r.Live();
    if !l.present { assert l.Live() == []; }
  }

  /** A record that should have landed and did not: the line before it was unfinished
      and no rotation came between. The next one is safe again. */
  lemma OnlyGluedIsLost(l: Log, rec: Rec)
    requires l.Valid()
    ensures l.Lands(rec, Landed) <==> !l.torn || l.Rotates(rec.bytes)
    ensures !l.Put(rec, Landed).torn
  {
  }

  /** The journal object: the live file (which exists once something was written), with
      its readable records and its unreadable bytes, the one rotated file beside it, and
      a ghost record of everything written. */
  class Journal {
    var present: bool
    var live: seq<Rec>
    var junk: nat
    var torn: bool
    var archive: seq<Rec>
    ghost var log: Log

    ghost predicate Valid()
      reads this
    {
      && log.Valid()
      && live == log.Live() && junk == log.junk && torn == log.torn
      && present == log.present
    }

    constructor ()
      ensures Valid() && log == EMPTY_LOG && archive == []
    {
      present, live, junk, torn, archive, log := false, [], 0, false, [], EMPTY_LOG;
    }

    /** An older live file is kept whole as the archive, replacing the last one. */
    method Write(rec: Rec, end: WriteEnd)
      requires Valid()
      modifies this
      ensures Valid() && log == old(log).Put(rec, end)
      ensures archive == if !end.Missed? && old(log).Rotates(rec.bytes) then old(live) else old(archive)
    {
      if end.Missed? {
        return;
      }
      RotateIfNeeded(rec.bytes);
      Append(rec, end);
    }

    method Append(rec: Rec, end: WriteEnd)
      requires Valid() && !end.Missed?
      modifies this`live, this`junk, this`torn, this`present, this`log
      ensures Valid() && log == old(log).Append(rec, end)
    {
      hide Bytes;
      if end.Torn? {
        junk, torn := junk + end.part, torn || end.part > 0;
      } else if torn {
        junk, torn := junk + rec.bytes, false;
      } else {
        live := live + [rec];
      }
      log := log.Append(rec, end);
      present := true;
    }

    method RotateIfNeeded(incoming: nat)
      requires Valid()
      modifies this`live, this`junk, this`torn, this`archive, this`log
      ensures Valid() && log == old(log).Rotated(incoming)
      ensures archive == if old(log).Rotates(incoming) then old(live) else old(archive)
    {
      if !present {
        return;
      }
      if Bytes(live) + junk + incoming <= ROTATE_BYTES {
        return;
      }
      archive := live;
      live, junk, torn := [], 0, false;
      log := log.Rotated(incoming);
    }

    method LastEvent(names: set<string>) returns (found: Option<Rec>)
      ensures found == LastOf(live, names)
    {
      found := None;
      var i := 0;
      while i < |live|
        invariant 0 <= i <= |live|
        invariant found == LastOf(live[..i], names)
      {
        assert live[..i + 1] == live[..i] + [live[i]];
        LastOfSnoc(live[..i], names, live[i]);
        if live[i].event in names {
          found := Some(live[i]);
        }
        i := i + 1;
      }
      assert live[..i] == live;
    }
  }
}
