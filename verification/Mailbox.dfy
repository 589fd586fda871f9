/** The file mailbox between the bridge (mt4_live.py) and the Expert: two shared
    names, `req` and `res`. Every file operation is one step, and a permission
    error or a lost reply is a step of its own. The Expert claims a request by
    renaming the shared name, which is atomic.

    Ghost bookkeeping: every request made gets a number of its own (`uid`, its
    place in `calls`), so two requests with the same wire id stay distinguishable. */
module Mailbox {
  import opened Wrappers

  /** `key` is the client key of a sending operation, None for a read. */
  datatype Req = Req(uid: nat, id: nat, key: Option<string>)
  datatype Reply = Reply(uid: nat, id: nat)

  datatype Pc =
    | Ready
    | ClearRes(r: Req)            // about to remove a stale reply
    | ClearReq(r: Req)            // about to remove a stale request
    | Write(r: Req)               // about to publish the request
    | Poll(r: Req)
    | GotRes(r: Req, reply: Reply) // matching text read, `res` still there
    | GotReq(r: Req, reply: Reply) // `res` removed, `req` still to remove
    | Withdraw(r: Req)            // the deadline passed

  datatype Mail = Mail(
    n: nat, pc: Pc,                                    // bridge memory
    req: Option<Req>, res: Option<Reply>,              // the shared names
    claimed: Option<Req>, out: Option<Reply>,          // the Expert's own files
    calls: seq<Req>, base: nat,                        // every request made; first uid of this bridge
    taken: set<nat>, executed: seq<nat>, withdrawn: set<nat>, returned: seq<(Req, Reply)>)

  datatype Action =
    // the bridge
    | Call(key: Option<string>)
    | RemoveRes | RemoveReq | Publish
    | FileError                   // a PermissionError that outlived the deadline
    | Match | GiveUp | WithdrawHit | WithdrawGone | WithdrawLocked
    | BridgeCrash
    // the Expert
    | Claim | DropClaim | Refuse | Execute | RemoveOldRes | Deliver | LoseReply | ExpertCrash

  predicate ByExpert(a: Action) {
    a.Claim? || a.DropClaim? || a.Refuse? || a.Execute? || a.RemoveOldRes? || a.Deliver? || a.LoseReply? || a.ExpertCrash?
  }

  predicate Enabled(m: Mail, a: Action) {
    match a
    case Call(_) => m.pc.Ready?
    case RemoveRes => m.pc.ClearRes? || m.pc.GotRes?
    case RemoveReq => m.pc.ClearReq? || m.pc.GotReq?
    case Publish => m.pc.Write?
    case FileError => !m.pc.Ready? && !m.pc.Poll? && !m.pc.Withdraw?
    case Match => m.pc.Poll? && m.res.Some? && m.res.value.id == m.pc.r.id
    case GiveUp => m.pc.Poll?
    case WithdrawHit => m.pc.Withdraw? && m.req.Some?
    case WithdrawGone => m.pc.Withdraw? && m.req.None?
    case WithdrawLocked => m.pc.Withdraw? && m.req.Some?
    case BridgeCrash => true
    case Claim => m.req.Some? && m.claimed.None? && m.out.None?
    case DropClaim => m.claimed.Some?
    case Refuse => m.claimed.Some? && m.out.None?
    case Execute => m.claimed.Some? && m.out.None?
    case RemoveOldRes => m.out.Some?
    case Deliver => m.out.Some?
    case LoseReply => m.out.Some?
    case ExpertCrash => true
  }

  function Apply(m: Mail, a: Action): Mail
    requires Enabled(m, a)
  {
    match a
    case Call(key) =>
      var r := Req(|m.calls|, m.n + 1, key);
      m.(n := m.n + 1, calls := m.calls + [r], pc := ClearRes(r))
    case RemoveRes =>
      m.(res := None, pc := if m.pc.ClearRes? then ClearReq(m.pc.r) else GotReq(m.pc.r, m.pc.reply))
    case RemoveReq =>
      if m.pc.ClearReq? then m.(req := None, pc := Write(m.pc.r))
      else m.(req := None, pc := Ready, returned := m.returned + [(m.pc.r, m.pc.reply)])
    case Publish => m.(req := Some(m.pc.r), pc := Poll(m.pc.r))
    case FileError => m.(pc := Ready)
    case Match => m.(pc := GotRes(m.pc.r, m.res.value))
    case GiveUp => m.(pc := Withdraw(m.pc.r))
    case WithdrawHit => m.(req := None, pc := Ready, withdrawn := m.withdrawn + {m.pc.r.uid})
    case WithdrawGone => m.(pc := Ready)
    case WithdrawLocked => m.(pc := Ready)
    case BridgeCrash => m.(pc := Ready, n := 0, base := |m.calls|)
    case Claim => m.(claimed := m.req, req := None, taken := m.taken + {m.req.value.uid})
    case DropClaim => m.(claimed := None)
    case Refuse => m.(claimed := None, out := Some(Reply(m.claimed.value.uid, m.claimed.value.id)))
    case Execute =>
      m.(claimed := None, executed := m.executed + [m.claimed.value.uid],
         out := Some(Reply(m.claimed.value.uid, m.claimed.value.id)))
    case RemoveOldRes => m.(res := None)
    case Deliver => m.(res := m.out, out := None)
    case LoseReply => m.(out := None)
    case ExpertCrash => m.(claimed := None, out := None)
  }

  const INIT := Mail(0, Ready, None, None, None, None, [], 0, {}, [], {}, [])

  predicate Legal(m: Mail, run: seq<Action>)
    decreases |run|
  {
    run == [] || (Enabled(m, run[0]) && Legal(Apply(m, run[0]), run[1..]))
  }

  function After(m: Mail, run: seq<Action>): Mail
    requires Legal(m, run)
    decreases |run|
  {
    if run == [] then m else After(Apply(m, run[0]), run[1..])
  }

  lemma {:induction false} LegalConcat(m: Mail, a: seq<Action>, b: seq<Action>)
    requires Legal(m, a) && Legal(After(m, a), b)
    ensures Legal(m, a + b) && After(m, a + b) == After(After(m, a), b)
    decreases |a|
  {
    var ab := a + b;
    if a == [] {
      assert ab == b;
    } else {
      assert ab[0] == a[0] && ab[1..] == a[1..] + b;
      var m1 := Apply(m, a[0]);
      LegalConcat(m1, a[1..], b);
      assert Legal(m, ab) && After(m, ab) == After(m1, ab[1..]);
    }
  }

  lemma OneStep(m: Mail, a: Action)
    requires Enabled(m, a)
    ensures Legal(m, [a]) && After(m, [a]) == Apply(m, a)
  {
    assert [a][1..] == [];
  }

  // ----- at most once, and never after a withdrawal ---------------------------

  predicate Known(m: Mail, r: Req) {
    r.uid < |m.calls| && m.calls[r.uid] == r
  }

  /** Not yet published: the only copy is in the bridge's memory. */
  predicate Unpublished(m: Mail) {
    m.pc.ClearRes? || m.pc.ClearReq? || m.pc.Write?
  }

  ghost predicate CallsOk(m: Mail) {
    forall i :: 0 <= i < |m.calls| ==> m.calls[i].uid == i && m.calls[i].id >= 1
  }

  ghost predicate AllKnown(m: Mail) {
    && (m.pc.Ready? || Known(m, m.pc.r))
    && (m.req.Some? ==> Known(m, m.req.value))
    && (m.claimed.Some? ==> Known(m, m.claimed.value))
    && (forall u :: u in m.executed ==> u < |m.calls|)
    && (forall u :: u in m.withdrawn ==> u < |m.calls|)
    && (forall u :: u in m.taken ==> u < |m.calls|)
  }

  /** One copy of each request, and only an unexecuted one can still be claimed. */
  ghost predicate OneCopy(m: Mail) {
    && (m.req.Some? ==> m.req.value.uid !in m.withdrawn)
    && (m.claimed.Some? ==> m.claimed.value.uid !in m.executed)
    && (m.req.Some? && m.claimed.Some? ==> m.req.value.uid != m.claimed.value.uid)
    && (Unpublished(m) ==>
          && m.pc.r.uid !in m.withdrawn
          && (m.req.Some? ==> m.req.value.uid != m.pc.r.uid)
          && (m.claimed.Some? ==> m.claimed.value.uid != m.pc.r.uid))
    && (forall i, j :: 0 <= i < j < |m.executed| ==> m.executed[i] != m.executed[j])
  }

  /** What the Expert took is what is no longer on the shared name; what the shared name
      holds while the bridge waits is its own request. */
  ghost predicate TakenOk(m: Mail) {
    && (m.pc.Poll? || m.pc.Withdraw? ==> if m.req.Some? then m.req.value == m.pc.r else m.pc.r.uid in m.taken)
    && (forall u :: u in m.executed ==> u in m.taken)
    && (m.req.Some? ==> m.req.value.uid !in m.taken)
    && (Unpublished(m) ==> m.pc.r.uid !in m.taken)
    && (m.claimed.Some? ==> m.claimed.value.uid in m.taken)
    && (forall u :: u in m.withdrawn ==> u !in m.taken)
  }

  ghost predicate Inv(m: Mail) {
    CallsOk(m) && AllKnown(m) && OneCopy(m) && TakenOk(m)
  }

  lemma CallsOkStep(m: Mail, a: Action)
    requires CallsOk(m) && m.n >= 0 && Enabled(m, a)
    ensures CallsOk(Apply(m, a))
  {
  }

  lemma KnownStep(m: Mail, a: Action)
    requires AllKnown(m) && Enabled(m, a)
    ensures AllKnown(Apply(m, a))
  {
  }

  lemma TakenByExpert(m: Mail, a: Action)
    requires AllKnown(m) && OneCopy(m) && TakenOk(m) && Enabled(m, a) && ByExpert(a)
    ensures TakenOk(Apply(m, a))
  {
  }

  lemma TakenByBridge(m: Mail, a: Action)
    requires AllKnown(m) && OneCopy(m) && TakenOk(m) && Enabled(m, a) && !ByExpert(a)
    ensures TakenOk(Apply(m, a))
  {
  }

  lemma CopyByExpert(m: Mail, a: Action)
    requires AllKnown(m) && OneCopy(m) && TakenOk(m) && Enabled(m, a) && ByExpert(a)
    ensures OneCopy(Apply(m, a))
  {
  }

  lemma CopyByBridge(m: Mail, a: Action)
    requires AllKnown(m) && OneCopy(m) && TakenOk(m) && Enabled(m, a) && !ByExpert(a)
    ensures OneCopy(Apply(m, a))
  {
  }

  lemma InvStep(m: Mail, a: Action)
    requires Inv(m) && Enabled(m, a)
    ensures Inv(Apply(m, a))
  {
    hide CallsOk, AllKnown, OneCopy, TakenOk, Enabled, Apply;
    CallsOkStep(m, a);
    KnownStep(m, a);
    if ByExpert(a) {
      TakenByExpert(m, a);
      CopyByExpert(m, a);
    } else {
      TakenByBridge(m, a);
      CopyByBridge(m, a);
    }
  }

  lemma {:induction false} RunKeepsInv(m: Mail, run: seq<Action>)
    requires Inv(m) && Legal(m, run)
    ensures Inv(After(m, run))
    decreases |run|
  {
    if run != [] {
      InvStep(m, run[0]);
      RunKeepsInv(Apply(m, run[0]), run[1..]);
    }
  }

  /** Steps only add to what was executed and withdrawn. */
  lemma {:induction false} RunGrows(m: Mail, run: seq<Action>)
    requires Legal(m, run)
    ensures m.withdrawn <= After(m, run).withdrawn && m.executed <= After(m, run).executed
    ensures m.calls <= After(m, run).calls
    decreases |run|
  {
    if run != [] {
      var m1 := Apply(m, run[0]);
      assert m.withdrawn <= m1.withdrawn && m.executed <= m1.executed && m.calls <= m1.calls;
      RunGrows(m1, run[1..]);
    }
  }

  /** Whatever the interleaving of bridge, Expert, crashes and file errors: no
      request is executed twice, and one reported `withdrawn` is never executed,
      neither before the report nor at any later step. */
  lemma ExecutedAtMostOnce(run: seq<Action>, more: seq<Action>, uid: nat)
    requires Legal(INIT, run) && Legal(After(INIT, run), more)
    ensures var later := After(After(INIT, run), more);
            && multiset(later.executed)[uid] <= 1
            && (uid in After(INIT, run).withdrawn ==> uid !in later.executed)
  {
    RunKeepsInv(INIT, run);
    var m := After(INIT, run);
    RunKeepsInv(m, more);
    RunGrows(m, more);
    DistinctCount(After(m, more).executed, uid);
  }

  lemma {:induction false} DistinctCount(s: seq<nat>, x: nat)
    requires forall i, j :: 0 <= i < j < |s| ==> s[i] != s[j]
    ensures multiset(s)[x] <= 1
  {
    if s != [] {
      DistinctCount(s[1..], x);
      assert s == [s[0]] + s[1..];
    }
  }

  /** What a timed-out request can still do is what the exception says: `withdrawn`
      and `locked` mean the Expert never took it, `claimed` means it did. */
  lemma WithdrawalIsTheTruth(run: seq<Action>, a: Action)
    requires Legal(INIT, run) && After(INIT, run).pc.Withdraw? && Enabled(After(INIT, run), a) && !ByExpert(a)
    ensures var m := After(INIT, run);
            var m' := Apply(m, a);
            var r := m.pc.r;
            && (a.WithdrawHit? ==> r.uid in m'.withdrawn && r.uid !in m'.taken && m'.req.None?)
            && (a.WithdrawLocked? ==> m'.req == Some(r) && r.uid !in m'.taken)
            && (a.WithdrawGone? ==> m'.req.None? && r.uid in m'.taken)
  {
    RunKeepsInv(INIT, run);
  }

  // ----- the reply handed to a caller is its own --------------------------------

  /** Made by the bridge object that is alive now. */
  predicate Ours(m: Mail, uid: nat) { uid >= m.base }

  /** Nothing an earlier bridge left behind is still on its way. */
  predicate NothingForeign(m: Mail) {
    && (m.req.Some? ==> Ours(m, m.req.value.uid))
    && (m.claimed.Some? ==> Ours(m, m.claimed.value.uid))
    && (m.out.Some? ==> Ours(m, m.out.value.uid))
  }

  /** Wire ids of one bridge count its requests, so equal ids mean the same one. */
  ghost predicate NumberedCalls(m: Mail) {
    && m.base + m.n == |m.calls|
    && (forall i :: m.base <= i < |m.calls| ==> m.calls[i].id == i - m.base + 1)
    && (!m.pc.Ready? ==> Ours(m, m.pc.r.uid))
  }

  predicate RepliesTo(m: Mail, r: Option<Reply>) {
    r.Some? ==> r.value.uid < |m.calls| && m.calls[r.value.uid].id == r.value.id
  }

  ghost predicate Numbered(m: Mail) {
    NumberedCalls(m) && RepliesTo(m, m.out) && RepliesTo(m, m.res)
  }

  lemma CallsStep(m: Mail, a: Action)
    requires AllKnown(m) && NumberedCalls(m) && Enabled(m, a)
    ensures NumberedCalls(Apply(m, a))
  {
    hide AllKnown;
  }

  lemma RepliesStep(m: Mail, a: Action)
    requires AllKnown(m) && RepliesTo(m, m.out) && RepliesTo(m, m.res) && Enabled(m, a)
    ensures RepliesTo(Apply(m, a), Apply(m, a).out) && RepliesTo(Apply(m, a), Apply(m, a).res)
  {
  }

  lemma NumberedStep(m: Mail, a: Action)
    requires Inv(m) && Numbered(m) && Enabled(m, a)
    ensures Numbered(Apply(m, a))
  {
    hide CallsOk, AllKnown, OneCopy, TakenOk, Enabled, Apply, NumberedCalls, RepliesTo;
    CallsStep(m, a);
    RepliesStep(m, a);
  }

  /** A stale reply file is removed before the first request is published. */
  predicate Quiet(m: Mail) {
    && NothingForeign(m)
    && (m.pc.Poll? && m.res.Some? ==> Ours(m, m.res.value.uid))
    && ((m.pc.GotRes? || m.pc.GotReq?) ==> m.pc.reply.uid == m.pc.r.uid)
    && (m.pc.ClearReq? || m.pc.Write? ==> m.res.Some? ==> Ours(m, m.res.value.uid))
  }

  predicate OwnReplies(m: Mail, from: nat)
    requires from <= |m.returned|
  {
    forall i :: from <= i < |m.returned| ==> m.returned[i].0.uid == m.returned[i].1.uid
  }

  /** Equal wire ids of this life mean the same request. */
  lemma SameIdSameCall(m: Mail, reply: Reply)
    requires AllKnown(m) && Numbered(m) && CallsOk(m) && !m.pc.Ready?
    requires RepliesTo(m, Some(reply)) && Ours(m, reply.uid) && reply.id == m.pc.r.id
    ensures reply.uid == m.pc.r.uid
  {
    assert m.calls[reply.uid].id == reply.uid - m.base + 1;
    assert m.calls[m.pc.r.uid] == m.pc.r && m.pc.r.id == m.pc.r.uid - m.base + 1;
  }

  lemma QuietStep(m: Mail, a: Action)
    requires Inv(m) && Numbered(m) && Quiet(m) && Enabled(m, a) && !a.BridgeCrash?
    ensures Quiet(Apply(m, a))
  {
    hide OneCopy, TakenOk;
    if a.Match? { SameIdSameCall(m, m.res.value); }
    hide CallsOk, RepliesTo;
  }

  lemma ReturnedStep(m: Mail, a: Action)
    requires Quiet(m) && Enabled(m, a)
    ensures var m' := Apply(m, a);
            m'.returned == m.returned
            || (|m'.returned| == |m.returned| + 1 && m'.returned[..|m.returned|] == m.returned
                && m'.returned[|m.returned|].0.uid == m'.returned[|m.returned|].1.uid)
  {
  }

  predicate SameLife(run: seq<Action>) {
    forall i :: 0 <= i < |run| ==> !run[i].BridgeCrash?
  }

  /** Within one bridge's life, started with nothing foreign in flight, every text
      handed to a caller is the Expert's reply to that very request: a late reply
      to an abandoned request never reaches a later caller. */
  lemma {:induction false} RepliesAreOwn(m: Mail, run: seq<Action>, from: nat)
    requires Inv(m) && Numbered(m) && Quiet(m) && Legal(m, run) && SameLife(run)
    requires from <= |m.returned| && OwnReplies(m, from)
    ensures from <= |After(m, run).returned| && OwnReplies(After(m, run), from)
    decreases |run|
  {
    hide Inv, Numbered, Quiet, Enabled, Apply;
    if run != [] {
      var m1 := Apply(m, run[0]);
      QuietStep(m, run[0]);
      ReturnedStep(m, run[0]);
      InvStep(m, run[0]);
      NumberedStep(m, run[0]);
      assert SameLife(run[1..]) by {
        forall i | 0 <= i < |run[1..]| ensures !run[1..][i].BridgeCrash? { assert run[1..][i] == run[i + 1]; }
      }
      RepliesAreOwn(m1, run[1..], from);
    }
  }

  // ----- across a restart, exactly ------------------------------------------------

  lemma Cons(m: Mail, a: Action, rest: seq<Action>)
    requires Enabled(m, a) && Legal(Apply(m, a), rest)
    ensures Legal(m, [a] + rest) && After(m, [a] + rest) == After(Apply(m, a), rest)
  {
    assert ([a] + rest)[1..] == rest;
  }

  const OPENING: seq<Action> := [Call(None)] + ([RemoveRes] + ([RemoveReq] + ([Publish] + [])))

  /** A read request goes out from a resting bridge. */
  lemma Opening(m: Mail)
    requires m.pc.Ready?
    ensures Legal(m, OPENING)
    ensures var r := Req(|m.calls|, m.n + 1, None);
            After(m, OPENING) == m.(n := m.n + 1, calls := m.calls + [r], res := None, req := Some(r), pc := Poll(r))
  {
    var m1 := Apply(m, Call(None));
    var m2 := Apply(m1, RemoveRes);
    var m3 := Apply(m2, RemoveReq);
    Cons(m3, Publish, []);
    Cons(m2, RemoveReq, [Publish] + []);
    Cons(m1, RemoveRes, [RemoveReq] + ([Publish] + []));
    Cons(m, Call(None), [RemoveRes] + ([RemoveReq] + ([Publish] + [])));
  }

  /** One request that is given up and taken back: only the id moves on. */
  lemma WastedCall(m: Mail) returns (run: seq<Action>)
    requires m.pc.Ready?
    ensures Legal(m, run) && SameLife(run)
    ensures var m' := After(m, run);
            && m'.pc.Ready? && m'.n == m.n + 1 && m'.out == m.out && m'.returned == m.returned
            && |m'.calls| == |m.calls| + 1
  {
    Opening(m);
    var m1 := After(m, OPENING);
    var tail := [GiveUp] + ([WithdrawHit] + []);
    Cons(Apply(m1, GiveUp), WithdrawHit, []);
    Cons(m1, GiveUp, [WithdrawHit] + []);
    LegalConcat(m, OPENING, tail);
    run := OPENING + tail;
  }

  lemma {:induction false} CountUp(m: Mail, k: nat) returns (run: seq<Action>)
    requires m.pc.Ready?
    ensures Legal(m, run) && SameLife(run)
    ensures var m' := After(m, run);
            && m'.pc.Ready? && m'.n == m.n + k && m'.out == m.out && m'.returned == m.returned
            && |m'.calls| >= |m.calls|
    decreases k
  {
    if k == 0 {
      run := [];
    } else {
      var first := WastedCall(m);
      var rest := CountUp(After(m, first), k - 1);
      LegalConcat(m, first, rest);
      run := first + rest;
    }
  }

  /** The next call of the bridge gets a reply that already waits with its id. */
  lemma WrongReply(m: Mail) returns (run: seq<Action>)
    requires m.pc.Ready? && m.out.Some? && m.out.value.id == m.n + 1
    ensures Legal(m, run) && SameLife(run)
    ensures After(m, run).returned == m.returned + [(Req(|m.calls|, m.n + 1, None), m.out.value)]
  {
    Opening(m);
    var m1 := After(m, OPENING);
    var m2 := Apply(m1, Deliver);
    var m3 := Apply(m2, Match);
    var m4 := Apply(m3, RemoveRes);
    Cons(m4, RemoveReq, []);
    Cons(m3, RemoveRes, [RemoveReq] + []);
    Cons(m2, Match, [RemoveRes] + ([RemoveReq] + []));
    Cons(m1, Deliver, [Match] + ([RemoveRes] + ([RemoveReq] + [])));
    var tail := [Deliver] + ([Match] + ([RemoveRes] + ([RemoveReq] + [])));
    LegalConcat(m, OPENING, tail);
    run := OPENING + tail;
  }

  /** The Expert finishes what an earlier bridge left: its reply waits in `out`. */
  lemma ForeignReply(m: Mail) returns (run: seq<Action>)
    requires Inv(m) && Numbered(m) && m.pc.Ready? && m.n == 0 && !NothingForeign(m)
    ensures Legal(m, run) && SameLife(run)
    ensures var m' := After(m, run);
            && m'.pc.Ready? && m'.n == 0 && m'.returned == m.returned && m'.calls == m.calls
            && m'.out.Some? && m'.out.value.uid < |m.calls| && m'.out.value.id >= 1
  {
    if m.out.Some? {
      run := [];
    } else if m.claimed.Some? {
      OneStep(m, Execute);
      run := [Execute];
    } else {
      OneStep(Apply(m, Claim), Execute);
      Cons(m, Claim, [Execute]);
      run := [Claim] + [Execute];
    }
  }

  lemma ForeignMisleads(m: Mail) returns (run: seq<Action>)
    requires Inv(m) && Numbered(m) && m.pc.Ready? && m.n == 0 && !NothingForeign(m)
    ensures Legal(m, run) && SameLife(run)
    ensures |After(m, run).returned| > |m.returned| && !OwnReplies(After(m, run), |m.returned|)
  {
    var a := ForeignReply(m);
    var m1 := After(m, a);
    var b := CountUp(m1, m1.out.value.id - 1);
    var m2 := After(m1, b);
    var c := WrongReply(m2);
    LegalConcat(m, a, b);
    LegalConcat(m, a + b, c);
    run := a + b + c;
    var last := After(m, run).returned;
    assert last[|m.returned|].0.uid == |m2.calls| && last[|m.returned|].1 == m1.out.value;
  }

  /** A new bridge counts from zero again, so its callers are safe from the replies
      of an earlier one exactly when, at its start, no request or reply of that one
      is left in the mailbox or with the Expert. */
  lemma FreshBridgeExactly(m: Mail)
    requires Inv(m) && Numbered(m) && m.pc.Ready? && m.n == 0
    ensures (forall run :: Legal(m, run) && SameLife(run) ==>
               |m.returned| <= |After(m, run).returned| && OwnReplies(After(m, run), |m.returned|))
            <==> NothingForeign(m)
  {
    if NothingForeign(m) {
      forall run | Legal(m, run) && SameLife(run)
        ensures |m.returned| <= |After(m, run).returned| && OwnReplies(After(m, run), |m.returned|)
      {
        RepliesAreOwn(m, run, |m.returned|);
      }
    } else {
      var run := ForeignMisleads(m);
      assert Legal(m, run) && SameLife(run);
    }
  }

  /** Every start of the bridge meets the premises of `FreshBridgeExactly`. */
  lemma {:induction false} RunKeepsNumbered(m: Mail, run: seq<Action>)
    requires Inv(m) && Numbered(m) && Legal(m, run)
    ensures Numbered(After(m, run))
    decreases |run|
  {
    if run != [] {
      InvStep(m, run[0]);
      NumberedStep(m, run[0]);
      RunKeepsNumbered(Apply(m, run[0]), run[1..]);
    }
  }
}
