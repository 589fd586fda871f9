/** inflight.py: the durable record of sends whose outcome is unknown. The file is
    read again before every change and replaced as a whole. */
module Ledger {
  import opened Wrappers
  import opened OrderProtocol

  datatype Entry = Entry(at: real, lastAt: real, attempts: nat, symbol: string, op: string)

  datatype File = Absent | Corrupt | Entries(open: map<string, Entry>)

  /** `kept` is what the cap leaves of `all`: everything up to 64 entries, and
      beyond that the 64 that are newest by `at`. */
  ghost predicate NewestOf(all: map<string, Entry>, kept: map<string, Entry>) {
    && kept.Keys <= all.Keys
    && (forall k :: k in kept ==> kept[k] == all[k])
    && |kept| == (if |all| > MAX_OPEN then MAX_OPEN else |all|)
    && (forall k, d :: k in kept && d in all && d !in kept ==> all[d].at <= all[k].at)
  }

  lemma RoomKeepsAll(all: map<string, Entry>, kept: map<string, Entry>)
    requires NewestOf(all, kept) && |all| <= MAX_OPEN
    ensures kept == all
  {
    assert |kept.Keys| == |all.Keys|;
    SubsetSize(kept.Keys, all.Keys);
  }

  /** What the cap drops is the surplus, by number. */
  lemma CapDrops(all: map<string, Entry>, kept: map<string, Entry>)
    requires NewestOf(all, kept)
    ensures kept.Keys == all.Keys - (all.Keys - kept.Keys)
    ensures |all.Keys - kept.Keys| == if |all.Keys| > MAX_OPEN then |all.Keys| - MAX_OPEN else 0
  {
    assert all.Keys == kept.Keys + (all.Keys - kept.Keys);
    assert |all| == |all.Keys| && |kept| == |kept.Keys|;
  }

  lemma {:induction false} OldestExists(m: map<string, Entry>, ks: set<string>)
    requires ks != {} && ks <= m.Keys
    ensures exists k :: k in ks && forall j :: j in ks ==> m[k].at <= m[j].at
    decreases |ks|
  {
    var k :| k in ks;
    if ks == {k} {
      assert forall j :: j in ks ==> m[k].at <= m[j].at;
    } else {
      var rest := ks - {k};
      assert ks == rest + {k};
      OldestExists(m, rest);
      var o :| o in rest && forall j :: j in rest ==> m[o].at <= m[j].at;
      var best := if m[k].at <= m[o].at then k else o;
      assert best in ks && forall j :: j in ks ==> m[best].at <= m[j].at;
    }
  }

  /** The entries with one more attempt at `key`. */
  function Attempted(before: map<string, Entry>, key: string, now: real, symbol: string, op: string): map<string, Entry> {
    before[key := if key in before then Entry(before[key].at, now, before[key].attempts + 1, symbol, op)
                  else Entry(now, now, 1, symbol, op)]
  }

  /** An attempt keeps the first time stamp of its key and counts one more; other entries stay. */
  lemma AttemptedExactly(before: map<string, Entry>, key: string, now: real, symbol: string, op: string, k: string)
    ensures var m := Attempted(before, key, now, symbol, op);
            && (k in m <==> k in before || k == key)
            && (k in m && k != key ==> m[k] == before[k])
            && m[key].lastAt == now && m[key].symbol == symbol && m[key].op == op
            && m[key].at == (if key in before then before[key].at else now)
            && m[key].attempts == (if key in before then before[key].attempts + 1 else 1)
  {
  }

  class InflightLedger {
    var file: File

    constructor ()
      ensures file == Absent
    {
      file := Absent;
    }

    /** `_load`: an absent or corrupt file reads as empty. */
    function Load(): map<string, Entry>
      reads this
    {
      if file.Entries? then file.open else map[]
    }

    method Get(key: string) returns (e: Option<Entry>)
      ensures e.Some? <==> key in Load()
      ensures e.Some? ==> e.value == Load()[key]
    {
      var entries := Load();
      e := if key in entries then Some(entries[key]) else None;
    }

    /** `ok` is whether the write reached the disk. */
    method Store(entries: map<string, Entry>, ok: bool)
      modifies this
      ensures ok ==> file.Entries? && NewestOf(entries, file.open)
      ensures ok ==> |file.open| == if |entries| > 64 then 64 else |entries|
      ensures !ok ==> file == old(file)
    {
      var kept := entries;
      while |kept| > MAX_OPEN
        invariant file == old(file)
        invariant kept.Keys <= entries.Keys
        invariant forall k :: k in kept ==> kept[k] == entries[k]
        invariant |kept| >= if |entries| > MAX_OPEN then MAX_OPEN else |entries|
        invariant forall k, d :: k in kept && d in entries && d !in kept ==> entries[d].at <= entries[k].at
        decreases |kept|
      {
        OldestExists(kept, kept.Keys);
        var oldest :| oldest in kept.Keys && forall j :: j in kept.Keys ==> kept[oldest].at <= kept[j].at;
        var fewer := kept - {oldest};
        assert fewer.Keys == kept.Keys - {oldest};
        assert |fewer.Keys| == |kept.Keys| - 1;
        kept := fewer;
      }
      assert |kept.Keys| <= |entries.Keys| by { SubsetSize(kept.Keys, entries.Keys); }
      if ok {
        file := Entries(kept);
      }
    }

    /** Written before the send. A repeated attempt keeps its first time stamp. */
    method Begin(key: string, now: real, symbol: string, op: string, ok: bool)
      modifies this
      ensures !ok ==> file == old(file)
      ensures ok ==> file.Entries? && NewestOf(Attempted(old(Load()), key, now, symbol, op), file.open)
    {
      var entries := Load();
      var existing := key in entries;
      var attempts := (if existing then entries[key].attempts else 0) + 1;
      var at := if existing then entries[key].at else now;
      Store(entries[key := Entry(at, now, attempts, symbol, op)], ok);
    }

    /** Only for an outcome that is known. */
    method Resolve(key: string, ok: bool)
      modifies this
      ensures key !in old(Load()) || !ok ==> file == old(file)
      ensures key in old(Load()) && ok ==> file.Entries? && NewestOf(old(Load()) - {key}, file.open)
    {
      var entries := Load();
      if key !in entries {
        return;
      }
      Store(entries - {key}, ok);
    }
  }
}
