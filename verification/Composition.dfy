/** The order-send protocol running over the mailbox: a transmission is the bridge
    call that carries the key, a verdict is its returned text, and a raise is any
    way the call ends without one. A crash of the desk takes the bridge with it;
    the files and the Expert live on. */
module Composition {
  import opened Wrappers
  import P = OrderProtocol
  import M = Mailbox

  datatype Joint = Joint(w: P.World, m: M.Mail)

  datatype Action =
    | Desk(p: P.Action)    // a step of the desk that leaves the mailbox alone
    | Box(a: M.Action)     // a step of the Expert, or of the bridge inside a call
    | Send
    | Reply
    | Raise(a: M.Action)
    | Crash

  const INIT := Joint(P.INIT, M.INIT)

  predicate Keyed(m: M.Mail) {
    !m.pc.Ready? && m.pc.r.key.Some?
  }

  /** The steps that end a bridge call. */
  predicate Ends(m: M.Mail, a: M.Action) {
    a.FileError? || a.WithdrawHit? || a.WithdrawGone? || a.WithdrawLocked? || (a.RemoveReq? && m.pc.GotReq?)
  }

  predicate Enabled(j: Joint, a: Action) {
    match a
    case Desk(p) => !p.Transmit? && !p.Verdict? && !p.NoVerdict? && !p.Crash? && P.Enabled(j.w, p)
    case Box(b) =>
      && M.Enabled(j.m, b) && !b.BridgeCrash?
      && (M.ByExpert(b) || if b.Call? then b.key.None? && j.w.proc.Up? && !j.w.proc.pc.Wire?
                           else Keyed(j.m) ==> !Ends(j.m, b))
    case Send => P.Enabled(j.w, P.Transmit) && j.m.pc.Ready?
    case Reply => P.Enabled(j.w, P.Verdict) && j.m.pc.GotReq? && Keyed(j.m)
    case Raise(b) =>
      P.Enabled(j.w, P.NoVerdict) && M.Enabled(j.m, b) && Keyed(j.m) && Ends(j.m, b) && !b.RemoveReq?
    case Crash => P.Enabled(j.w, P.Crash)
  }

  function DeskPart(a: Action): seq<P.Action> {
    match a
    case Desk(p) => [p]
    case Box(_) => []
    case Send => [P.Transmit]
    case Reply => [P.Verdict]
    case Raise(_) => [P.NoVerdict]
    case Crash => [P.Crash]
  }

  function BoxPart(j: Joint, a: Action): seq<M.Action> {
    match a
    case Desk(_) => []
    case Box(b) => [b]
    case Send => if j.w.proc.Up? && !j.w.proc.pc.Idle? then [M.Call(Some(j.w.proc.pc.key))] else []
    case Reply => [M.RemoveReq]
    case Raise(b) => [b]
    case Crash => [M.BridgeCrash]
  }

  function Apply(j: Joint, a: Action): Joint
    requires Enabled(j, a)
  {
    match a
    case Desk(p) => Joint(P.Apply(j.w, p), j.m)
    case Box(b) => Joint(j.w, M.Apply(j.m, b))
    case Send => Joint(P.Apply(j.w, P.Transmit), M.Apply(j.m, M.Call(Some(j.w.proc.pc.key))))
    case Reply => Joint(P.Apply(j.w, P.Verdict), M.Apply(j.m, M.RemoveReq))
    case Raise(b) => Joint(P.Apply(j.w, P.NoVerdict), M.Apply(j.m, b))
    case Crash => Joint(P.Apply(j.w, P.Crash), M.Apply(j.m, M.BridgeCrash))
  }

  predicate Legal(j: Joint, run: seq<Action>)
    decreases |run|
  {
    run == [] || (Enabled(j, run[0]) && Legal(Apply(j, run[0]), run[1..]))
  }

  function After(j: Joint, run: seq<Action>): Joint
    requires Legal(j, run)
    decreases |run|
  {
    if run == [] then j else After(Apply(j, run[0]), run[1..])
  }

  /** What the desk did in a joint run, and what happened in the mailbox. */
  function DeskRun(run: seq<Action>): seq<P.Action> {
    if run == [] then [] else DeskPart(run[0]) + DeskRun(run[1..])
  }

  function BoxRun(j: Joint, run: seq<Action>): seq<M.Action>
    requires Legal(j, run)
    decreases |run|
  {
    if run == [] then [] else BoxPart(j, run[0]) + BoxRun(Apply(j, run[0]), run[1..])
  }

  lemma PartIsLegal(j: Joint, a: Action)
    requires Enabled(j, a)
    ensures P.Legal(j.w, DeskPart(a)) && P.After(j.w, DeskPart(a)) == Apply(j, a).w
    ensures M.Legal(j.m, BoxPart(j, a)) && M.After(j.m, BoxPart(j, a)) == Apply(j, a).m
  {
    if DeskPart(a) != [] {
      var p := DeskPart(a)[0];
      assert DeskPart(a)[1..] == [];
      assert P.Enabled(j.w, p) && P.Apply(j.w, p) == Apply(j, a).w;
    }
    if BoxPart(j, a) != [] {
      M.OneStep(j.m, BoxPart(j, a)[0]);
    }
  }

  /** A joint run is a run of the protocol and a run of the mailbox. */
  lemma {:induction false} Projects(j: Joint, run: seq<Action>)
    requires Legal(j, run)
    ensures P.Legal(j.w, DeskRun(run)) && P.After(j.w, DeskRun(run)) == After(j, run).w
    ensures M.Legal(j.m, BoxRun(j, run)) && M.After(j.m, BoxRun(j, run)) == After(j, run).m
    decreases |run|
  {
    if run != [] {
      var a, j1 := run[0], Apply(j, run[0]);
      PartIsLegal(j, a);
      Projects(j1, run[1..]);
      P.LegalConcat(j.w, DeskPart(a), DeskRun(run[1..]));
      M.LegalConcat(j.m, BoxPart(j, a), BoxRun(j1, run[1..]));
    }
  }

  // ----- requests of one client key ---------------------------------------------

  /** The requests that carry the key. */
  function Carrying(m: M.Mail, key: string): set<nat> {
    set u: nat | 0 <= u < |m.calls| && m.calls[u].key == Some(key)
  }

  /** Those of them that the Expert executed, and those the bridge took back. */
  function ExecutedFor(m: M.Mail, key: string): set<nat> {
    set u | u in Carrying(m, key) && u in m.executed
  }

  function WithdrawnFor(m: M.Mail, key: string): set<nat> {
    set u | u in Carrying(m, key) && u in m.withdrawn
  }

  /** A mailbox step adds at most the one request of a call. */
  lemma CarryingBoxStep(m: M.Mail, a: M.Action, key: string)
    requires M.Enabled(m, a)
    ensures var grown := a.Call? && a.key == Some(key);
            Carrying(M.Apply(m, a), key) == Carrying(m, key) + (if grown then {|m.calls|} else {})
  {
    var m' := M.Apply(m, a);
    if a.Call? {
      assert m'.calls == m.calls + [M.Req(|m.calls|, m.n + 1, a.key)];
    } else {
      assert m'.calls == m.calls;
    }
  }

  lemma SentDeskStep(w: P.World, a: P.Action, key: string)
    requires P.Enabled(w, a)
    ensures P.Apply(w, a).sent[key] == w.sent[key] + if a.Transmit? && w.proc.pc.key == key then 1 else 0
  {
  }

  lemma CarryingStep(j: Joint, a: Action, key: string)
    requires Enabled(j, a) && |Carrying(j.m, key)| == j.w.sent[key]
    ensures |Carrying(Apply(j, a).m, key)| == Apply(j, a).w.sent[key]
  {
    match a {
      case Desk(p) => SentDeskStep(j.w, p, key);
      case Box(b) => CarryingBoxStep(j.m, b, key);
      case Send =>
        SentDeskStep(j.w, P.Transmit, key);
        CarryingBoxStep(j.m, M.Call(Some(j.w.proc.pc.key)), key);
        assert |j.m.calls| !in Carrying(j.m, key);
      case Reply =>
        SentDeskStep(j.w, P.Verdict, key);
        CarryingBoxStep(j.m, M.RemoveReq, key);
      case Raise(b) =>
        SentDeskStep(j.w, P.NoVerdict, key);
        CarryingBoxStep(j.m, b, key);
      case Crash =>
        SentDeskStep(j.w, P.Crash, key);
        CarryingBoxStep(j.m, M.BridgeCrash, key);
    }
  }

  lemma {:induction false} SentIsCarried(j: Joint, run: seq<Action>, key: string)
    requires Legal(j, run) && |Carrying(j.m, key)| == j.w.sent[key]
    ensures |Carrying(After(j, run).m, key)| == After(j, run).w.sent[key]
    decreases |run|
  {
    if run != [] {
      CarryingStep(j, run[0], key);
      SentIsCarried(Apply(j, run[0]), run[1..], key);
    }
  }

  lemma DisjointParts(a: set<nat>, b: set<nat>, whole: set<nat>)
    requires a <= whole && b <= whole && a !! b
    ensures |a| + |b| <= |whole|
  {
    assert |a + b| == |a| + |b|;
    SubsetSize(a + b, whole);
  }

  /** In every interleaving of desk, bridge, Expert and crashes: the Expert executes
      a client key no more often than it was transmitted, and a transmission that
      was reported `withdrawn` does not count: executed plus withdrawn never
      exceeds sent. */
  lemma ExecutedWithinSent(run: seq<Action>, key: string)
    requires Legal(INIT, run)
    ensures var j := After(INIT, run);
            |ExecutedFor(j.m, key)| + |WithdrawnFor(j.m, key)| <= j.w.sent[key]
  {
    var j := After(INIT, run);
    assert Carrying(M.INIT, key) == {};
    SentIsCarried(INIT, run, key);
    Projects(INIT, run);
    M.RunKeepsInv(M.INIT, BoxRun(INIT, run));
    DisjointParts(ExecutedFor(j.m, key), WithdrawnFor(j.m, key), Carrying(j.m, key));
  }

  /** End to end, on every joint run: the Expert executes a staged order at most once,
      plus once for each eviction of its ledger entry and each slip of its clearing, and
      an execution taken back counts as one of these. With no eviction and a clean window
      that is once at most, and never after a withdrawal. */
  lemma StagedOrderExecutedOnce(run: seq<Action>, key: string)
    requires Legal(INIT, run)
    ensures var j := After(INIT, run);
            |ExecutedFor(j.m, key)| + |WithdrawnFor(j.m, key)| <= 1 + j.w.evicted[key] + j.w.slips[key]
    ensures P.Legal(P.INIT, DeskRun(run)) && P.RoomyRun(P.INIT, DeskRun(run)) && P.CleanRun(P.INIT, DeskRun(run)) ==>
              var m := After(INIT, run).m;
              && |ExecutedFor(m, key)| <= 1
              && (WithdrawnFor(m, key) != {} ==> ExecutedFor(m, key) == {})
  {
    ExecutedWithinSent(run, key);
    Projects(INIT, run);
    P.SentWithinSlips(DeskRun(run), key);
    if P.RoomyRun(P.INIT, DeskRun(run)) && P.CleanRun(P.INIT, DeskRun(run)) {
      P.AtMostOnceInTotal(DeskRun(run), key);
    }
  }

  /** Crashes and failed writes anywhere: executions of a key never exceed its settled
      verdicts, its evictions and the one attempt the ledger may show as open. */
  lemma UnresolvedExecutedOnce(run: seq<Action>, key: string)
    requires Legal(INIT, run)
    ensures var j := After(INIT, run);
            |ExecutedFor(j.m, key)|
            <= j.w.settled[key] + j.w.evicted[key] + (if key in j.w.open then 1 else 0)
  {
    ExecutedWithinSent(run, key);
    Projects(INIT, run);
    P.OneOpenAttempt(DeskRun(run), key);
  }
}
