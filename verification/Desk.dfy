/** The desk and the send path of the engine (desk.py, engine.py) over the ledger
    and journal objects. What the outside world answers (risk gates, the venue, and
    how each file write ends) arrives as parameters. Each command is tied to a world, and
    lemmas reach that world by a legal run of OrderProtocol: each prefix of the run is a
    point where the process may die, and the protocol theorems speak about all of those.
    The methods return, as a ghost, the entries the cap of the ledger dropped. */
module Desk {
  import opened Wrappers
  import opened Confirm
  import opened JournalLog
  import opened Ledger
  import opened P = OrderProtocol

  /** A risk verdict, or an exception on the way to it; `halt` only ever comes with a
      refusal. */
  datatype Gate = Allowed(volume: real) | Refused(halt: bool) | GateRaised

  /** How the closing of a ticket ended. */
  datatype Closing = ClosingDone | ClosingRefused | ClosingRaised

  datatype Check = CheckPassed | CheckFailed | CheckRaised

  /** A record beside those of the protocol: a rejection, a close, a report. */
  type OtherRec = r: Rec | r.event !in CONFIRM witness Rec("open", map[], 0)

  /** One such record and how its write ended. */
  datatype Extra = Extra(rec: OtherRec, end: WriteEnd)

  /** How the venue call ended. */
  datatype Wired = Verdict(ok: bool) | Raised

  /** One pass through `_open` or `_place_pending`, as seen from outside: the check,
      whether the ledger writes land, the reports it writes (of a refusal, a send without
      an answer or a survivor), and how the `open` record ends. */
  datatype SendEnv = SendEnv(check: Check, beginOk: bool, wired: Wired, settleOk: bool, extras: seq<Extra>,
                             note: WriteEnd, noteBytes: nat, now: real, symbol: string, op: string)

  datatype SendResult = Answer(ok: bool) | NoAnswer

  // ----- the steps of a send, on values -----------------------------------------

  /** A legal run from `w0` to `w1`. */
  ghost predicate Ran(w0: World, steps: seq<P.Action>, w1: World) {
    P.Legal(w0, steps) && P.After(w0, steps) == w1
  }

  lemma RanOne(w: World, a: P.Action)
    requires P.Enabled(w, a)
    ensures Ran(w, [a], P.Apply(w, a))
  {
    LegalOne(w, a);
  }

  lemma RanConcat(w0: World, a: seq<P.Action>, w1: World, b: seq<P.Action>, w2: World)
    requires Ran(w0, a, w1) && Ran(w1, b, w2)
    ensures Ran(w0, a + b, w2)
  {
    P.LegalConcat(w0, a, b);
  }

  lemma RanNothing(w: World)
    ensures Ran(w, [], w)
  {
  }

  predicate Leaves(w: World, key: string, env: SendEnv) {
    key !in w.open && env.check.CheckPassed? && env.beginOk
  }

  // ----- records beside the protocol's own -----------------------------------------

  function Noted(l: Log, extras: seq<Extra>): (l': Log)
    requires l.Valid()
    ensures l'.Valid()
    decreases |extras|
  {
    if extras == [] then l else Noted(l.Put(extras[0].rec, extras[0].end), extras[1..])
  }

  lemma NotedNothing(l: Log)
    requires l.Valid()
    ensures Noted(l, []) == l
  {
  }

  function NoteSteps(extras: seq<Extra>): seq<P.Action> {
    if extras == [] then [] else [P.Note(extras[0].rec, extras[0].end)] + NoteSteps(extras[1..])
  }

  predicate AllWritten(extras: seq<Extra>) { forall i :: 0 <= i < |extras| ==> extras[i].end.Landed? }

  lemma {:induction false} NotesRun(w: World, extras: seq<Extra>)
    requires w.log.Valid()
    ensures Ran(w, NoteSteps(extras), w.(log := Noted(w.log, extras)))
    decreases |extras|
  {
    if extras == [] {
      RanNothing(w);
    } else {
      var note := P.Note(extras[0].rec, extras[0].end);
      RanOne(w, note);
      NotesRun(P.Apply(w, note), extras[1..]);
      RanConcat(w, [note], P.Apply(w, note), NoteSteps(extras[1..]), w.(log := Noted(w.log, extras)));
    }
  }

  lemma {:induction false} NotedAppend(l: Log, extras: seq<Extra>, e: Extra)
    requires l.Valid()
    ensures Noted(l, extras + [e]) == Noted(l, extras).Put(e.rec, e.end)
    decreases |extras|
  {
    if extras == [] {
      assert [e][1..] == [];
    } else {
      assert (extras + [e])[1..] == extras[1..] + [e];
      NotedAppend(l.Put(extras[0].rec, extras[0].end), extras[1..], e);
    }
  }

  // ----- the end of a send ------------------------------------------------------------

  function OpenRec(env: SendEnv): OtherRec
  {
    assert |"open"| == 4 && |STAGE| == 13 && |CANCEL| == 14 && |SENT| == 12;
    Rec("open", map[], env.noteBytes)
  }

  /** What is written after a verdict: a lost report leaves no `open` record. */
  function Records(env: SendEnv): seq<Extra> {
    if AllWritten(env.extras) then env.extras + [Extra(OpenRec(env), env.note)] else env.extras
  }

  lemma RecordsWritten(env: SendEnv)
    ensures AllWritten(Records(env)) <==> AllWritten(env.extras) && env.note.Landed?
  {
    if AllWritten(env.extras) {
      assert Records(env)[|env.extras|].end == env.note;
    }
  }

  /** What is written when nothing leaves. */
  function Refusal(w: World, key: string, env: SendEnv): seq<Extra> {
    if key in w.open || env.check.CheckFailed? then env.extras else []
  }

  /** Begin, transmit, and then what the outcome allows; `drop` is what the cap of the
      ledger gives up for the new entry. */
  function SendSteps(w: World, key: string, env: SendEnv, drop: set<string>): seq<P.Action> {
    if !Leaves(w, key, env) then NoteSteps(Refusal(w, key, env)) else [Begin(key, drop), Transmit] + EndSteps(env)
  }

  function EndSteps(env: SendEnv): seq<P.Action> {
    if env.wired.Raised? then [NoVerdict] + NoteSteps(env.extras)
    else if !env.settleOk then [P.Verdict, SettleFails]
    else [P.Verdict, Settle] + (NoteSteps(Records(env)) + (if AllWritten(Records(env)) then [] else [Abandon]))
  }

  function AnswerOf(env: SendEnv): SendResult {
    if env.wired.Verdict? && env.settleOk && AllWritten(Records(env)) then Answer(env.wired.ok) else NoAnswer
  }

  /** What `submit` gives its caller; NoAnswer is an exception. */
  function SendAnswer(w: World, key: string, env: SendEnv): SendResult {
    if key in w.open || env.check.CheckFailed? then (if AllWritten(env.extras) then Answer(false) else NoAnswer)
    else if Leaves(w, key, env) then AnswerOf(env)
    else NoAnswer
  }

  /** The cap drops what it must when the send leaves. */
  predicate Dropped(w: World, key: string, env: SendEnv, drop: set<string>) {
    Leaves(w, key, env) ==> Evicts(w, key, drop)
  }

  /** After the venue call, from the world in which it is on the wire. */
  function EndWorld(w: World, key: string, env: SendEnv): World
    requires w.log.Valid() && w.proc.Up?
  {
    if env.wired.Raised? then w.(proc := Up(w.proc.pending, Idle), log := Noted(w.log, env.extras))
    else if !env.settleOk then w.(proc := Up(w.proc.pending, Idle))
    else
      var noted := AllWritten(Records(env));
      w.(settled := w.settled + multiset{key}, open := w.open - {key}, log := Noted(w.log, Records(env)),
         slips := if !noted && key in w.staged then w.slips + multiset{key} else w.slips,
         proc := Up(w.proc.pending, if noted then Settled(key) else Idle))
  }

  function SendWorld(w: World, key: string, env: SendEnv, drop: set<string>): World
    requires w.log.Valid() && w.proc.Up?
  {
    if !Leaves(w, key, env) then w.(log := Noted(w.log, Refusal(w, key, env)))
    else EndWorld(OnTheWire(w, key, drop), key, env)
  }

  function OnTheWire(w: World, key: string, drop: set<string>): World
    requires w.proc.Up?
  {
    w.(sent := w.sent + multiset{key}, open := w.open + {key} - drop, evicted := w.evicted + multiset(drop),
       auto := if Holds(w, key) then w.auto else w.auto + {key}, proc := Up(w.proc.pending, Wire(key)))
  }

  lemma TransmitRuns(w: World, key: string, drop: set<string>)
    requires w.log.Valid() && w.proc.Up? && w.proc.pc.Idle? && Evicts(w, key, drop)
    requires key != "" && key !in w.open && (Holds(w, key) || Fresh(w, key))
    ensures Ran(w, [Begin(key, drop), Transmit], OnTheWire(w, key, drop))
  {
    TwoSteps(w, Begin(key, drop), Transmit);
  }

  lemma SettledRuns(w: World, key: string, records: seq<Extra>)
    requires w.log.Valid() && w.proc.Up? && w.proc.pc == Settled(key)
    ensures var noted := AllWritten(records);
            Ran(w, NoteSteps(records) + (if noted then [] else [Abandon]),
                w.(log := Noted(w.log, records),
                   slips := if !noted && key in w.staged then w.slips + multiset{key} else w.slips,
                   proc := Up(w.proc.pending, if noted then Settled(key) else Idle)))
  {
    NotesRun(w, records);
    var w1 := w.(log := Noted(w.log, records));
    if AllWritten(records) {
      RanNothing(w1);
      RanConcat(w, NoteSteps(records), w1, [], w1);
    } else {
      RanOne(w1, Abandon);
      RanConcat(w, NoteSteps(records), w1, [Abandon], P.Apply(w1, Abandon));
    }
  }

  lemma EndingRuns(w: World, key: string, env: SendEnv)
    requires w.log.Valid() && w.proc.Up? && w.proc.pc == Wire(key)
    ensures Ran(w, EndSteps(env), EndWorld(w, key, env))
  {
    if env.wired.Raised? {
      RanOne(w, NoVerdict);
      NotesRun(P.Apply(w, NoVerdict), env.extras);
      RanConcat(w, [NoVerdict], P.Apply(w, NoVerdict), NoteSteps(env.extras), EndWorld(w, key, env));
    } else if !env.settleOk {
      TwoSteps(w, P.Verdict, SettleFails);
    } else {
      TwoSteps(w, P.Verdict, Settle);
      var w2 := P.After(w, [P.Verdict, Settle]);
      SettledRuns(w2, key, Records(env));
      RanConcat(w, [P.Verdict, Settle], w2,
                NoteSteps(Records(env)) + (if AllWritten(Records(env)) then [] else [Abandon]), EndWorld(w, key, env));
    }
  }

  lemma SendRuns(w: World, key: string, env: SendEnv, drop: set<string>)
    requires w.log.Valid() && w.proc.Up? && w.proc.pc.Idle? && Dropped(w, key, env, drop)
    requires key != "" && (Holds(w, key) || Fresh(w, key))
    ensures Ran(w, SendSteps(w, key, env, drop), SendWorld(w, key, env, drop))
  {
    hide Ran, EndSteps, EndWorld, NoteSteps;
    if Leaves(w, key, env) {
      TransmitRuns(w, key, drop);
      EndingRuns(OnTheWire(w, key, drop), key, env);
      RanConcat(w, [Begin(key, drop), Transmit], OnTheWire(w, key, drop), EndSteps(env), SendWorld(w, key, env, drop));
    } else {
      NotesRun(w, Refusal(w, key, env));
    }
  }

  // ----- a confirm, on values -----------------------------------------------------

  /** What a confirm meets outside. `before` are the records of a close or a rejection,
      written ahead of the send or the clearing; `caught` is whether an exception of the
      send is one that `_submit_once` catches, `after` the record it then writes. */
  datatype ConfirmEnv = ConfirmEnv(now: real, ticketOpen: bool, quoteOk: bool, gate: Gate, closing: Closing,
                                   gateAfterClose: Gate, before: seq<Extra>, send: SendEnv, caught: bool,
                                   after: seq<Extra>, clear: WriteEnd, clearBytes: nat)

  datatype Reply = Nothing | Expired | HaltedReply | RefusedReply | AlreadyAttempted | Unresolved
                 | SendFailed | Sent | CloseFailed | Closed | NoTicket | RefusedAfterClose | Raise | Busy | StagedReply
                 | Cancelled

  /** The answer to the operator, whether the order goes to `submit`, and the record
      that clears the pending, if one does. */
  datatype Plan = Plan(reply: Reply, submits: bool, clear: Option<string>)

  function SendPlan(w: World, key: string, env: SendEnv, caught: bool): Plan {
    if key in w.open then Plan(AlreadyAttempted, false, None)
    else match SendAnswer(w, key, env)
      case NoAnswer => Plan(if caught then Unresolved else Raise, true, None)
      case Answer(ok) => if ok then Plan(Sent, true, Some(SENT)) else Plan(SendFailed, true, Some(CANCEL))
  }

  function ConfirmPlan(w: World, halted: bool, env: ConfirmEnv): Plan {
    if Pend(w).None? then Plan(Nothing, false, None)
    else
      var p := Pend(w).value;
      if env.now > p.expiresAt then Plan(Expired, false, Some(CANCEL))
      else if halted then Plan(HaltedReply, false, Some(CANCEL))
      else if p.signal.None? then
        if p.closeTicket.None? then Plan(Nothing, false, Some(CANCEL))
        else ClosePlan(env.closing)
      else if p.closeTicket.Some? && !env.ticketOpen then Plan(NoTicket, false, Some(CANCEL))
      else if !env.quoteOk then Plan(Raise, false, None)
      else if env.gate.GateRaised? then Plan(Raise, false, None)
      else if env.gate.Refused? then Plan(RefusedReply, false, if env.gate.halt then Some(CANCEL) else None)
      else if p.closeTicket.Some? && !env.closing.ClosingDone? then ClosePlan(env.closing)
      else if p.closeTicket.Some? && env.gateAfterClose.GateRaised? then Plan(Raise, false, None)
      else if p.closeTicket.Some? && env.gateAfterClose.Refused? then Plan(RefusedAfterClose, false, Some(CANCEL))
      else SendPlan(w, p.clientId, env.send, env.caught)
  }

  function ClosePlan(c: Closing): Plan {
    match c
    case ClosingDone => Plan(Closed, false, Some(SENT))
    case ClosingRefused => Plan(CloseFailed, false, Some(CANCEL))
    case ClosingRaised => Plan(Raise, false, None)
  }

  function ClearSteps(w: World, event: string, bytes: nat, end: WriteEnd): seq<P.Action> {
    if Pend(w).None? then []
    else if w.proc.pc.Idle? then [Clear(event, bytes, end)] else [Finish(event, bytes, end)]
  }

  function Cleared(w: World, event: string, bytes: nat, end: WriteEnd): World
    requires w.log.Valid()
  {
    if Pend(w).None? then w
    else
      var rec := ClearRec(w, event, bytes);
      Confirmed(w, Up(None, Idle), rec, end).(slips := if w.log.Lands(rec, end) then w.slips else Slipped(w))
  }

  lemma ClearRuns(w: World, event: string, bytes: nat, end: WriteEnd)
    requires w.log.Valid() && w.proc.Up? && event in {CANCEL, SENT}
    requires w.proc.pc.Idle? || (w.proc.pc.Settled? && Holds(w, w.proc.pc.key))
    ensures Ran(w, ClearSteps(w, event, bytes, end), Cleared(w, event, bytes, end))
  {
    hide RecordOf, Ran;
    if Pend(w).Some? {
      RanOne(w, ClearSteps(w, event, bytes, end)[0]);
    } else {
      RanNothing(w);
    }
  }

  /** The records written first, unless there is nothing to confirm in time. */
  function First(w: World, env: ConfirmEnv): seq<Extra> {
    if Pend(w).None? || env.now > Pend(w).value.expiresAt then [] else env.before
  }

  function Opening(w: World, env: ConfirmEnv): World
    requires w.log.Valid()
  {
    w.(log := Noted(w.log, First(w, env)))
  }

  function Submitted(w: World, halted: bool, env: ConfirmEnv, drop: set<string>): World
    requires w.log.Valid() && w.proc.Up?
  {
    var w0 := Opening(w, env);
    if ConfirmPlan(w, halted, env).submits && Pend(w).Some? then SendWorld(w0, Pend(w).value.clientId, env.send, drop)
    else w0
  }

  /** After the answer: the clearing, or the record of an unresolved send. */
  function Concluded(w: World, plan: Plan, env: ConfirmEnv): World
    requires w.log.Valid()
  {
    if plan.clear.Some? then Cleared(w, plan.clear.value, env.clearBytes, env.clear)
    else if plan.reply == Unresolved then w.(log := Noted(w.log, env.after))
    else w
  }

  function ConfirmWorld(w: World, halted: bool, env: ConfirmEnv, drop: set<string>): World
    requires w.log.Valid() && w.proc.Up?
  {
    Concluded(Submitted(w, halted, env, drop), ConfirmPlan(w, halted, env), env)
  }

  function SubmitSteps(w: World, halted: bool, env: ConfirmEnv, drop: set<string>): seq<P.Action>
    requires w.log.Valid() && w.proc.Up?
  {
    NoteSteps(First(w, env))
    + (if ConfirmPlan(w, halted, env).submits && Pend(w).Some?
       then SendSteps(Opening(w, env), Pend(w).value.clientId, env.send, drop) else [])
  }

  function LastSteps(w: World, plan: Plan, env: ConfirmEnv): seq<P.Action>
    requires w.log.Valid()
  {
    if plan.clear.Some? then ClearSteps(w, plan.clear.value, env.clearBytes, env.clear)
    else if plan.reply == Unresolved then NoteSteps(env.after)
    else []
  }

  function ConfirmSteps(w: World, halted: bool, env: ConfirmEnv, drop: set<string>): seq<P.Action>
    requires w.log.Valid() && w.proc.Up?
  {
    SubmitSteps(w, halted, env, drop) + LastSteps(Submitted(w, halted, env, drop), ConfirmPlan(w, halted, env), env)
  }

  /** What the cap drops for the order a confirm sends, if it sends one. */
  predicate ConfirmDrops(w: World, env: ConfirmEnv, drop: set<string>) {
    Pend(w).Some? ==> Dropped(w, Pend(w).value.clientId, env.send, drop)
  }

  /** A failed record in the clearing surfaces as an exception. */
  function ConfirmReply(w: World, halted: bool, env: ConfirmEnv): Reply {
    var plan := ConfirmPlan(w, halted, env);
    if plan.clear.Some? && !env.clear.Landed? then Raise else plan.reply
  }

  /** At rest between commands: what can be sent has a key. */
  predicate Ready(w: World) {
    && w.log.Valid() && w.proc.Up? && w.proc.pc.Idle? && |w.open| <= MAX_OPEN
    && (w.proc.pending.Some? && w.proc.pending.value.signal.Some? ==> w.proc.pending.value.clientId != "")
  }

  /** What each kind of plan rests on. */
  lemma PlanFacts(w: World, halted: bool, env: ConfirmEnv)
    ensures var plan := ConfirmPlan(w, halted, env);
            && (plan.clear.Some? ==> plan.clear.value in {CANCEL, SENT} && Pend(w).Some?)
            && (plan.submits ==>
                  && Pend(w).Some? && Pend(w).value.signal.Some? && Pend(w).value.clientId !in w.open
                  && env.now <= Pend(w).value.expiresAt && !halted
                  && plan == SendPlan(w, Pend(w).value.clientId, env.send, env.caught)
                  && plan.reply in {Sent, SendFailed, Unresolved, Raise})
            && (!plan.submits ==> plan.reply !in {Sent, SendFailed, Unresolved})
            && (plan.reply == AlreadyAttempted ==>
                  plan.clear.None? && Pend(w).Some? && Pend(w).value.clientId in w.open)
  {
  }

  /** The attempt left without a verdict the ledger could record. */
  predicate LeftOpen(w: World, key: string, env: SendEnv) {
    Leaves(w, key, env) && (env.wired.Raised? || !env.settleOk)
  }

  /** How a submitted order ends, by its answer. */
  lemma SendPlanFacts(w: World, key: string, env: SendEnv, caught: bool, drop: set<string>)
    requires key !in w.open && w.log.Valid() && w.proc.Up? && w.proc.pc.Idle?
    ensures var plan, w1 := SendPlan(w, key, env, caught), SendWorld(w, key, env, drop);
            && plan.submits && (plan.reply in {Unresolved, Raise} <==> plan.clear.None?)
            && w1.log.Valid() && w1.proc.Up? && Pend(w1) == Pend(w)
            && (w1.proc.pc.Idle? || (w1.proc.pc == Settled(key) && plan.clear.Some?))
            && w1.open == (if Leaves(w, key, env) then
                             if LeftOpen(w, key, env) then w.open + {key} - drop else w.open - drop
                           else w.open)
            && w1.sent == (if Leaves(w, key, env) then w.sent + multiset{key} else w.sent)
            && (plan.reply == Sent ==> Leaves(w, key, env) && !LeftOpen(w, key, env))
            && (plan.reply == SendFailed ==> !LeftOpen(w, key, env))
            && (Leaves(w, key, env) ==> w1.sent != w.sent)
  {
    assert (w.sent + multiset{key})[key] == w.sent[key] + 1;
    assert w.open + {key} - drop - {key} == w.open - drop;
  }

  lemma ClearedKeeps(w: World, event: string, bytes: nat, end: WriteEnd)
    requires w.log.Valid() && w.proc.Up?
    ensures var w' := Cleared(w, event, bytes, end);
            && w'.sent == w.sent && w'.open == w.open && w'.proc.Up? && w'.proc.pending.None?
            && w'.log.Valid() && (Pend(w).Some? || w.proc.pc.Idle? ==> w'.proc.pc.Idle?)
  {
    hide RecordOf;
  }

  lemma SendFits(w: World, key: string, env: SendEnv, drop: set<string>)
    requires Leaves(w, key, env) ==> Evicts(w, key, drop)
    requires |w.open| <= MAX_OPEN
    ensures |w.open + {key} - drop| <= MAX_OPEN || !Leaves(w, key, env)
    ensures |w.open - drop| <= MAX_OPEN
  {
    if Leaves(w, key, env) { EvictionFits(w, key, drop); }
    SubsetSize(w.open - drop, w.open);
  }

  /** Up to the clearing, a confirm is a legal run that keeps the pending. */
  lemma SubmitRuns(w: World, halted: bool, env: ConfirmEnv, drop: set<string>)
    requires Ready(w) && ConfirmDrops(w, env, drop)
    ensures var w1 := Submitted(w, halted, env, drop);
            && Ran(w, SubmitSteps(w, halted, env, drop), w1)
            && w1.log.Valid() && w1.proc.Up? && Pend(w1) == Pend(w) && |w1.open| <= MAX_OPEN
            && (w1.proc.pc.Idle? || (ConfirmPlan(w, halted, env).clear.Some? && w1.proc.pc.Settled? && Holds(w1, w1.proc.pc.key)))
  {
    hide Ran, ConfirmPlan, SendPlan, SendWorld, SendSteps, Leaves, LeftOpen, Evicts, NoteSteps, Noted;
    PlanFacts(w, halted, env);
    var w0 := Opening(w, env);
    NotesRun(w, First(w, env));
    if ConfirmPlan(w, halted, env).submits {
      var key := Pend(w).value.clientId;
      SameLeaves(w, w0, key, env.send);
      SamePlan(w, w0, key, env.send, env.caught);
      SendPlanFacts(w0, key, env.send, env.caught, drop);
      SendRuns(w0, key, env.send, drop);
      SendFits(w0, key, env.send, drop);
      RanConcat(w, NoteSteps(First(w, env)), w0, SendSteps(w0, key, env.send, drop), Submitted(w, halted, env, drop));
    } else {
      assert NoteSteps(First(w, env)) + [] == NoteSteps(First(w, env));
    }
  }

  /** The journal plays no part in what a send does to the ledger. */
  lemma SameLeaves(w: World, w0: World, key: string, env: SendEnv)
    requires w0 == w.(log := w0.log)
    ensures Leaves(w0, key, env) == Leaves(w, key, env) && LeftOpen(w0, key, env) == LeftOpen(w, key, env)
    ensures forall drop :: Evicts(w0, key, drop) == Evicts(w, key, drop)
  {
  }

  lemma SameConfirm(w: World, w0: World, halted: bool, env: ConfirmEnv)
    requires w0 == w.(log := w0.log)
    ensures ConfirmPlan(w0, halted, env) == ConfirmPlan(w, halted, env)
    ensures ConfirmReply(w0, halted, env) == ConfirmReply(w, halted, env)
    ensures forall drop :: ConfirmDrops(w0, env, drop) == ConfirmDrops(w, env, drop)
  {
  }

  lemma SamePlan(w: World, w0: World, key: string, env: SendEnv, caught: bool)
    requires w0 == w.(log := w0.log)
    ensures SendPlan(w0, key, env, caught) == SendPlan(w, key, env, caught)
  {
  }

  /** A confirm is a legal run of the protocol, whatever the world answers. */
  lemma ConfirmRuns(w: World, halted: bool, env: ConfirmEnv, drop: set<string>)
    requires Ready(w) && ConfirmDrops(w, env, drop)
    ensures Ran(w, ConfirmSteps(w, halted, env, drop), ConfirmWorld(w, halted, env, drop))
    ensures Ready(ConfirmWorld(w, halted, env, drop))
  {
    hide Ran, ConfirmPlan, Submitted, SubmitSteps, Cleared, ClearSteps, ConfirmDrops, NoteSteps, Noted;
    PlanFacts(w, halted, env);
    SubmitRuns(w, halted, env, drop);
    var plan, w1 := ConfirmPlan(w, halted, env), Submitted(w, halted, env, drop);
    if plan.clear.Some? {
      ClearRuns(w1, plan.clear.value, env.clearBytes, env.clear);
      ClearedKeeps(w1, plan.clear.value, env.clearBytes, env.clear);
    } else {
      NotesRun(w1, env.after);
      RanNothing(w1);
    }
    RanConcat(w, SubmitSteps(w, halted, env, drop), w1, LastSteps(w1, plan, env), ConfirmWorld(w, halted, env, drop));
  }

  /** What a confirm leaves of the ledger and the memory, by its plan. */
  lemma ConfirmFacts(w: World, halted: bool, env: ConfirmEnv, drop: set<string>)
    requires Ready(w)
    ensures var plan, w' := ConfirmPlan(w, halted, env), ConfirmWorld(w, halted, env, drop);
            && w'.log.Valid() && w'.proc.Up?
            && Pend(w') == (if plan.clear.Some? then None else Pend(w))
            && (!plan.submits ==> w'.sent == w.sent && w'.open == w.open)
            && (plan.reply == AlreadyAttempted ==> w' == w.(log := w'.log))
            && (plan.submits && Pend(w).Some? ==>
                  var key := Pend(w).value.clientId;
                  && (plan.reply in {Unresolved, Raise} <==> plan.clear.None?)
                  && w'.open == (if !Leaves(w, key, env.send) then w.open
                                 else if LeftOpen(w, key, env.send) then w.open + {key} - drop else w.open - drop)
                  && w'.sent == (if Leaves(w, key, env.send) then w.sent + multiset{key} else w.sent)
                  && (plan.reply == Sent ==> Leaves(w, key, env.send) && !LeftOpen(w, key, env.send))
                  && (plan.reply == SendFailed ==> !LeftOpen(w, key, env.send)))
  {
    hide ConfirmPlan, SendPlan, SendWorld, Cleared, Leaves, LeftOpen, Noted;
    var plan, w1 := ConfirmPlan(w, halted, env), Submitted(w, halted, env, drop);
    PlanFacts(w, halted, env);
    if plan.submits {
      var w0, key := Opening(w, env), Pend(w).value.clientId;
      SameLeaves(w, w0, key, env.send);
      SamePlan(w, w0, key, env.send, env.caught);
      SendPlanFacts(w0, key, env.send, env.caught, drop);
    }
    if plan.clear.Some? { ClearedKeeps(w1, plan.clear.value, env.clearBytes, env.clear); }
  }

  /** One confirm transmits at most once, only the key it holds, only before its
      expiry, only when not halted, and never a key with an open attempt. */
  lemma ConfirmTransmits(w: World, halted: bool, env: ConfirmEnv, drop: set<string>)
    requires Ready(w)
    ensures var w' := ConfirmWorld(w, halted, env, drop);
            w'.sent != w.sent ==>
              && Pend(w).Some? && Pend(w).value.clientId != ""
              && w'.sent == w.sent + multiset{Pend(w).value.clientId}
              && Pend(w).value.clientId !in w.open && env.now <= Pend(w).value.expiresAt && !halted
              && ConfirmReply(w, halted, env) in {Sent, SendFailed, Unresolved, Raise}
  {
    hide ConfirmPlan, ConfirmWorld, SendPlan, Leaves, LeftOpen;
    PlanFacts(w, halted, env);
    ConfirmFacts(w, halted, env, drop);
  }

  /** What the replies promise. `Sent` and `SendFailed` leave no attempt at the key open
      and nothing staged, and `Sent` left once; `AlreadyAttempted` adds at most records.
      `Unresolved` keeps the order staged, and the ledger then holds its key exactly when
      the order left, no verdict was recorded and the cap did not drop it at once: in
      every other case the same order can go out again. */
  lemma RepliesAreTrue(w: World, halted: bool, env: ConfirmEnv, drop: set<string>)
    requires Ready(w)
    ensures var w' := ConfirmWorld(w, halted, env, drop);
            match ConfirmReply(w, halted, env)
            case Sent =>
              && Pend(w).Some? && w'.sent == w.sent + multiset{Pend(w).value.clientId} && w'.open == w.open - drop
              && w'.proc.Up? && w'.proc.pending.None?
            case SendFailed =>
              && Pend(w).Some? && Pend(w).value.clientId !in w'.open && w'.proc.Up? && w'.proc.pending.None?
            case AlreadyAttempted => w' == w.(log := w'.log) && Pend(w).Some? && Pend(w).value.clientId in w.open
            case Unresolved =>
              && Pend(w).Some? && w'.proc.Up? && w'.proc.pending == w.proc.pending
              && (Pend(w).value.clientId in w'.open <==>
                    LeftOpen(w, Pend(w).value.clientId, env.send) && Pend(w).value.clientId !in drop)
            case _ => true
  {
    hide ConfirmPlan, ConfirmWorld, SendPlan, Leaves;
    PlanFacts(w, halted, env);
    ConfirmFacts(w, halted, env, drop);
  }

  /** The sentence "will NOT be sent again" can be false: the check raised, nothing left,
      the order is still staged and its key is not in the ledger. */
  lemma UnresolvedMayGoOut(w: World, halted: bool, env: ConfirmEnv)
    requires Ready(w) && Pend(w).Some? && Pend(w).value.signal.Some? && Pend(w).value.closeTicket.None?
    requires env.now <= Pend(w).value.expiresAt && !halted && env.quoteOk && env.gate.Allowed?
    requires Pend(w).value.clientId !in w.open && env.send.check.CheckRaised? && env.caught
    ensures var w' := ConfirmWorld(w, halted, env, {});
            ConfirmReply(w, halted, env) == Unresolved && w' == w.(log := w'.log) && Armed(w', Pend(w).value.clientId)
  {
  }

  // ----- what a send and a confirm rest on ------------------------------------------

  /** A send transmits if and only if its key has no open attempt, the check passed and
      the ledger entry was written; it answers a verdict if and only if the venue gave that
      verdict, the ledger entry was removed and every record was written. Else the answer
      is a refusal of this desk, or none. */
  lemma SendMeans(w: World, key: string, env: SendEnv, drop: set<string>)
    requires w.log.Valid() && w.proc.Up?
    ensures var w', left := SendWorld(w, key, env, drop), key !in w.open && env.check.CheckPassed? && env.beginOk;
            && w'.sent == (if left then w.sent + multiset{key} else w.sent)
            && w'.settled == (if left && env.wired.Verdict? && env.settleOk then w.settled + multiset{key} else w.settled)
            && (SendAnswer(w, key, env) == Answer(true) <==>
                  left && env.wired == Wired.Verdict(true) && env.settleOk && AllWritten(env.extras) && env.note.Landed?)
            && (SendAnswer(w, key, env) == Answer(false) <==>
                  AllWritten(env.extras) &&
                  (key in w.open || env.check.CheckFailed?
                   || (left && env.wired == Wired.Verdict(false) && env.settleOk && env.note.Landed?)))
  {
    hide Noted;
    RecordsWritten(env);
  }

  /** The order of a confirm goes out: it is in time, the engine runs, the quote was read,
      the risk gate allowed it and, for a reverse, the old position was closed and the gate
      allowed it again. */
  predicate Passes(w: World, halted: bool, env: ConfirmEnv) {
    && Pend(w).Some? && Pend(w).value.signal.Some? && env.now <= Pend(w).value.expiresAt && !halted
    && env.quoteOk && env.gate.Allowed?
    && (Pend(w).value.closeTicket.Some? ==> env.ticketOpen && env.closing.ClosingDone? && env.gateAfterClose.Allowed?)
  }

  /** A confirm transmits if and only if an order with a signal is pending and in time, the
      engine is not halted, the quote was read, the risk gate allowed it, its key has no
      open attempt, the venue's check passed and the ledger entry was written; for a
      reverse also the ticket was on the book, was closed and the gate allowed it again. */
  lemma ConfirmSendsExactly(w: World, halted: bool, env: ConfirmEnv, drop: set<string>)
    requires Ready(w)
    ensures ConfirmWorld(w, halted, env, drop).sent != w.sent <==>
            && Pend(w).Some? && Pend(w).value.signal.Some? && env.now <= Pend(w).value.expiresAt && !halted
            && env.quoteOk && env.gate.Allowed? && Pend(w).value.clientId !in w.open
            && env.send.check.CheckPassed? && env.send.beginOk
            && (Pend(w).value.closeTicket.Some? ==>
                  env.ticketOpen && env.closing.ClosingDone? && env.gateAfterClose.Allowed?)
  {
    ConfirmFacts(w, halted, env, drop);
    PlanOf(w, halted, env);
    hide ConfirmPlan, ConfirmWorld;
    if Pend(w).Some? {
      assert (w.sent + multiset{Pend(w).value.clientId})[Pend(w).value.clientId] == w.sent[Pend(w).value.clientId] + 1;
    }
  }

  lemma PlanOf(w: World, halted: bool, env: ConfirmEnv)
    ensures ConfirmPlan(w, halted, env).submits <==>
            Passes(w, halted, env) && Pend(w).value.clientId !in w.open
  {
  }

  /** A refusal of the risk gate sends nothing; the order stays staged unless the refusal
      halts, and only the loss of the clearing record keeps the refusal from the operator. */
  lemma RefusedGate(w: World, halted: bool, env: ConfirmEnv, drop: set<string>)
    requires Ready(w) && Pend(w).Some? && Pend(w).value.signal.Some?
    requires env.now <= Pend(w).value.expiresAt && !halted && env.quoteOk && env.gate.Refused?
    requires Pend(w).value.closeTicket.Some? ==> env.ticketOpen
    ensures var w' := ConfirmWorld(w, halted, env, drop);
            && w'.sent == w.sent && w'.open == w.open && w'.settled == w.settled
            && Pend(w') == (if env.gate.halt then None else Pend(w))
            && ConfirmReply(w, halted, env) == if env.gate.halt && !env.clear.Landed? then Raise else RefusedReply
  {
    hide Noted, RecordOf;
  }

  /** A reverse that the gate refuses after its close: nothing is sent, the pending goes. */
  lemma RefusedAfter(w: World, halted: bool, env: ConfirmEnv, drop: set<string>)
    requires Ready(w) && Pend(w).Some? && Pend(w).value.signal.Some? && Pend(w).value.closeTicket.Some?
    requires env.now <= Pend(w).value.expiresAt && !halted && env.quoteOk && env.gate.Allowed?
    requires env.ticketOpen && env.closing.ClosingDone? && env.gateAfterClose.Refused?
    ensures var w' := ConfirmWorld(w, halted, env, drop);
            && w'.sent == w.sent && w'.open == w.open && Pend(w') == None
            && ConfirmReply(w, halted, env) == if !env.clear.Landed? then Raise else RefusedAfterClose
  {
    hide Noted, RecordOf;
  }

  /** The send gave no answer that clears the order. */
  predicate Unanswered(send: SendEnv) {
    if send.check.CheckFailed? then !AllWritten(send.extras)
    else !send.check.CheckPassed? || !send.beginOk || send.wired.Raised? || !send.settleOk
         || !AllWritten(send.extras) || !send.note.Landed?
  }

  /** When each answer is given, in what the outside answered. */
  lemma RepliesExactly(w: World, halted: bool, env: ConfirmEnv)
    ensures var reply := ConfirmReply(w, halted, env);
            var send := env.send;
            var free := Pend(w).Some? && Pend(w).value.clientId !in w.open;
            var passed, left := Passes(w, halted, env), send.check.CheckPassed? && send.beginOk;
            var closing := Pend(w).Some? && env.now <= Pend(w).value.expiresAt && !halted && Pend(w).value.signal.None?
                           && Pend(w).value.closeTicket.Some?;
            var recorded := AllWritten(send.extras) && send.note.Landed?;
            && (reply == Sent <==>
                  passed && free && left && send.wired == Wired.Verdict(true) && send.settleOk && recorded && env.clear.Landed?)
            && (reply == SendFailed <==>
                  passed && free && env.clear.Landed? && AllWritten(send.extras)
                  && (send.check.CheckFailed? || (left && send.wired == Wired.Verdict(false) && send.settleOk && recorded)))
            && (reply == AlreadyAttempted <==> passed && !free)
            && (reply == Unresolved <==>
                  passed && free && env.caught
                  && Unanswered(send))
            && (reply == Closed <==> closing && env.closing.ClosingDone? && env.clear.Landed?)
            && (reply == CloseFailed <==>
                  && env.clear.Landed? && env.closing.ClosingRefused?
                  && (closing || (Pend(w).Some? && env.now <= Pend(w).value.expiresAt && !halted && Pend(w).value.signal.Some?
                                  && Pend(w).value.closeTicket.Some? && env.ticketOpen && env.quoteOk && env.gate.Allowed?)))
            && (reply == NoTicket <==>
                  && env.clear.Landed? && Pend(w).Some? && env.now <= Pend(w).value.expiresAt && !halted
                  && Pend(w).value.signal.Some? && Pend(w).value.closeTicket.Some? && !env.ticketOpen)
            && (reply == Expired <==> Pend(w).Some? && env.now > Pend(w).value.expiresAt && env.clear.Landed?)
            && (reply == HaltedReply <==> Pend(w).Some? && env.now <= Pend(w).value.expiresAt && halted && env.clear.Landed?)
  {
    hide SendPlan, Unanswered;
    if Pend(w).Some? { SendReplies(w, Pend(w).value.clientId, env.send, env.caught); }
  }

  lemma SendReplies(w: World, key: string, send: SendEnv, caught: bool)
    ensures var plan, left := SendPlan(w, key, send, caught), send.check.CheckPassed? && send.beginOk;
            var recorded := AllWritten(send.extras) && send.note.Landed?;
            && (plan.reply == Sent <==>
                  key !in w.open && left && send.wired == Wired.Verdict(true) && send.settleOk && recorded)
            && (plan.reply == SendFailed <==>
                  key !in w.open && AllWritten(send.extras)
                  && (send.check.CheckFailed? || (left && send.wired == Wired.Verdict(false) && send.settleOk && recorded)))
            && (plan.reply == AlreadyAttempted <==> key in w.open)
            && (plan.reply == Unresolved <==> key !in w.open && caught && Unanswered(send))
            && plan.reply in {Sent, SendFailed, AlreadyAttempted, Unresolved, Raise}
            && (plan.clear.Some? <==> plan.reply in {Sent, SendFailed})
  {
    RecordsWritten(send);
  }

  /** What was pending stays so if and only if it is in time, the engine runs and something
      kept the confirm from an end: an exception, a refusal that does not halt, an open
      attempt, or a send without an answer. */
  lemma PendingStaysExactly(w: World, halted: bool, env: ConfirmEnv, drop: set<string>)
    requires Ready(w) && Pend(w).Some?
    ensures var w', p := ConfirmWorld(w, halted, env, drop), Pend(w).value;
            var reverse := p.closeTicket.Some?;
            && (Pend(w') == Pend(w) || Pend(w') == None)
            && (Pend(w') == Pend(w) <==>
                  && env.now <= p.expiresAt && !halted
                  && (if p.signal.None? then reverse && env.closing.ClosingRaised?
                      else
                        && (reverse ==> env.ticketOpen)
                        && (|| !env.quoteOk || env.gate.GateRaised? || env.gate == Refused(false)
                            || (env.gate.Allowed? && reverse && env.closing.ClosingRaised?)
                            || (env.gate.Allowed? && reverse && env.closing.ClosingDone? && env.gateAfterClose.GateRaised?)
                            || (&& env.gate.Allowed? && (reverse ==> env.closing.ClosingDone? && env.gateAfterClose.Allowed?)
                                && (p.clientId in w.open || Unanswered(env.send))))))
  {
    hide ConfirmWorld, ConfirmPlan, Unanswered, LeftOpen, Leaves;
    ConfirmFacts(w, halted, env, drop);
    PlanClears(w, halted, env);
  }

  /** When a send ends without a clearing. */
  lemma SendClears(w: World, key: string, env: SendEnv, caught: bool)
    ensures SendPlan(w, key, env, caught).clear.None? <==> key in w.open || Unanswered(env)
  {
    RecordsWritten(env);
  }

  lemma PlanClears(w: World, halted: bool, env: ConfirmEnv)
    requires Pend(w).Some?
    ensures var p := Pend(w).value;
            var reverse := p.closeTicket.Some?;
            ConfirmPlan(w, halted, env).clear.None? <==>
              && env.now <= p.expiresAt && !halted
              && (if p.signal.None? then reverse && env.closing.ClosingRaised?
                  else
                    && (reverse ==> env.ticketOpen)
                    && (|| !env.quoteOk || env.gate.GateRaised? || env.gate == Refused(false)
                        || (env.gate.Allowed? && reverse && env.closing.ClosingRaised?)
                        || (env.gate.Allowed? && reverse && env.closing.ClosingDone? && env.gateAfterClose.GateRaised?)
                        || (&& env.gate.Allowed? && (reverse ==> env.closing.ClosingDone? && env.gateAfterClose.Allowed?)
                            && (p.clientId in w.open || Unanswered(env.send)))))
  {
    hide SendPlan, Unanswered;
    SendClears(w, Pend(w).value.clientId, env.send, env.caught);
  }

  // ----- staging, on values -------------------------------------------------------

  /** `rejects` is the record of a refusal to stage. */
  datatype StageEnv = StageEnv(now: real, gate: Gate, key: string, ttl: real, end: WriteEnd, bytes: nat,
                               rejects: seq<Extra>)

  function Rejected(w: World, env: StageEnv): World
    requires w.log.Valid()
  {
    w.(log := Noted(w.log, env.rejects))
  }

  /** An unexpired pending blocks the next one. */
  predicate Blocked(w: World, now: real) {
    Pend(w).Some? && now <= Pend(w).value.expiresAt
  }

  function Staging(p: Pending, env: StageEnv): P.Action { Stage(p, env.now, env.bytes, env.end) }

  /** What may be staged now. */
  predicate Stageable(w: World, p: Pending, env: StageEnv) {
    && Ready(w) && !Blocked(w, env.now) && Restorable(p)
    && (if p.signal.Some? then Fresh(w, p.clientId) else p.clientId == "")
  }

  lemma StageRuns(w: World, p: Pending, env: StageEnv)
    requires Stageable(w, p, env)
    ensures var a := Staging(p, env);
            P.Enabled(w, a) && Ran(w, [a], P.Apply(w, a)) && Ready(P.Apply(w, a))
  {
    hide RecordOf;
    RanOne(w, Staging(p, env));
  }

  /** The pending staged, and confirmed at once under `/approve always`. */
  function StagedWorld(w: World, p: Pending, env: StageEnv, always: bool, halted: bool, confirm: ConfirmEnv,
                       drop: set<string>): World
    requires P.Enabled(w, Staging(p, env)) && Ready(P.Apply(w, Staging(p, env)))
  {
    var staged := P.Apply(w, Staging(p, env));
    if env.end.Landed? && always then ConfirmWorld(staged, halted, confirm, drop) else staged
  }

  function StagingReply(w: World, p: Pending, env: StageEnv, always: bool, halted: bool, confirm: ConfirmEnv): Reply
    requires P.Enabled(w, Staging(p, env))
  {
    if !env.end.Landed? then Raise
    else if always then ConfirmReply(P.Apply(w, Staging(p, env)), halted, confirm)
    else StagedReply
  }

  /** A staged order is what the desk then holds, its record written or not; staging sends
      nothing by itself, and under `/approve always` it sends exactly when the record was
      written and the confirm sends it. */
  lemma StagedSendsExactly(w: World, p: Pending, env: StageEnv, always: bool, halted: bool, confirm: ConfirmEnv, drop: set<string>)
    requires Stageable(w, p, env)
    ensures P.Enabled(w, Staging(p, env)) && Ready(P.Apply(w, Staging(p, env)))
    ensures var w1 := P.Apply(w, Staging(p, env));
            Pend(w1) == Some(p) && w1.sent == w.sent && w1.open == w.open
    ensures StagedWorld(w, p, env, always, halted, confirm, drop).sent != w.sent <==>
            && env.end.Landed? && always
            && p.signal.Some? && confirm.now <= p.expiresAt && !halted
            && confirm.quoteOk && confirm.gate.Allowed? && p.clientId !in w.open
            && confirm.send.check.CheckPassed? && confirm.send.beginOk
            && (p.closeTicket.Some? ==> confirm.ticketOpen && confirm.closing.ClosingDone? && confirm.gateAfterClose.Allowed?)
  {
    hide ConfirmWorld, RecordOf, Restorable;
    StageRuns(w, p, env);
    ConfirmSendsExactly(P.Apply(w, Staging(p, env)), halted, confirm, drop);
  }

  const NOT_RESTORED := Rec("live_not_restored", map["scope" := JStr("process")], 64)

  /** Of the records named `yes` or `no`, the last one is a `yes`. */
  predicate LastIs(s: seq<Rec>, yes: string, no: string) {
    LastOf(s, {yes, no}).Some? && LastOf(s, {yes, no}).value.event == yes
  }

  /** The auto leg: a send under a fresh key, and nothing to clear. */
  function AutoWorld(w: World, key: string, env: SendEnv, drop: set<string>): World
    requires w.log.Valid() && w.proc.Up?
  {
    SendWorld(w, key, env, drop).(proc := w.proc)
  }

  lemma AutoReady(w: World, key: string, env: SendEnv, drop: set<string>)
    requires Ready(w) && Dropped(w, key, env, drop)
    ensures var w1 := SendWorld(w, key, env, drop);
            && Ready(w1.(proc := w.proc)) && w1.log.Valid() && w1.proc.Up? && Pend(w1) == Pend(w)
            && (w1.proc.pc.Idle? || w1.proc.pc == Settled(key))
  {
    hide Evicts;
    if Leaves(w, key, env) {
      SendPlanFacts(w, key, env, true, drop);
      SendFits(w, key, env, drop);
    }
    hide EndWorld, OnTheWire, Noted;
  }

  lemma AutoRuns(w: World, key: string, env: SendEnv, drop: set<string>)
    requires Ready(w) && Dropped(w, key, env, drop) && Fresh(w, key) && !Holds(w, key)
    ensures var w1 := SendWorld(w, key, env, drop);
            Ran(w, SendSteps(w, key, env, drop) + (if w1.proc.pc.Idle? then [] else [FinishAuto]),
                AutoWorld(w, key, env, drop))
    ensures Ready(AutoWorld(w, key, env, drop))
  {
    hide Ran, SendWorld, SendSteps, Evicts, Leaves;
    var w1, steps := SendWorld(w, key, env, drop), SendSteps(w, key, env, drop);
    SendRuns(w, key, env, drop);
    AutoReady(w, key, env, drop);
    if w1.proc.pc.Idle? {
      assert steps + [] == steps;
      assert w1 == AutoWorld(w, key, env, drop);
    } else {
      RanOne(w1, FinishAuto);
      RanConcat(w, steps, w1, [FinishAuto], AutoWorld(w, key, env, drop));
    }
  }

  /** The world a start restores into. */
  function Started(left: World, now: real, armExpired: bool, end: WriteEnd): World
    requires left.proc.Down? && left.log.Valid()
  {
    var up := P.Apply(left, Restart(now));
    if armExpired then P.Apply(up, P.Note(NOT_RESTORED, end)) else up
  }

  lemma StartedFacts(left: World, now: real, armExpired: bool, end: WriteEnd)
    requires left.proc.Down? && KeysOk(left)
    ensures var u := Started(left, now, armExpired, end);
            && Ready(u) && u.proc == Up(Restore(left.log, now), Idle) && u.open == left.open
            && u.log == if armExpired then left.log.Put(NOT_RESTORED, end) else left.log
  {
    hide PendingFromRecord, LastOf, Minted, InFlight;
    if Restore(left.log, now).Some? { RestoreFacts(left, now); }
  }

  /** Some admissible set for the cap to drop, when nothing is sent after all. */
  lemma SomeDrop(w: World, env: ConfirmEnv) returns (drop: set<string>)
    requires |w.open| <= MAX_OPEN
    ensures ConfirmDrops(w, env, drop)
  {
    drop := {};
    if Pend(w).Some? && Pend(w).value.clientId !in w.open {
      var key := Pend(w).value.clientId;
      assert |w.open + {key}| == |w.open| + 1;
      if |w.open| == MAX_OPEN { drop := {key}; }
    }
  }

  // ----- the objects ---------------------------------------------------------------

  /** The desk object with the engine's ledger and journal. The ghost `w` is the
      protocol state; `Coupled` ties it to the memory and the two files. */
  class Desk {
    var pending: Option<Pending>
    var approveAlways: bool
    var liveExpired: bool
    var halted: bool
    const ledger: InflightLedger
    const journal: Journal
    ghost var w: World

    ghost predicate Coupled()
      reads this, ledger, journal
    {
      && journal.Valid()
      && w.proc.Up? && w.proc.pending == pending
      && w.log == journal.log
      && w.open == ledger.Load().Keys
    }

    ghost predicate Valid()
      reads this, ledger, journal
    {
      Coupled() && Ready(w)
    }

    /** The restoring end of a process start, on the files an earlier process and the
        first records of this start left. */
    constructor (ledger: InflightLedger, journal: Journal, now: real, end: WriteEnd, ghost left: World)
      requires left.proc.Down? && KeysOk(left)
      requires journal.Valid() && left.log == journal.log && left.open == ledger.Load().Keys
      modifies journal
      ensures Valid() && this.ledger == ledger && this.journal == journal && !halted
      ensures pending == Restore(left.log, now)
      ensures approveAlways <==> LastIs(old(journal.live), "approve_always", "approve_off")
      ensures liveExpired <==> LastIs(old(journal.live), "live_on", "live_off")
      ensures w == Started(left, now, LastIs(old(journal.live), "live_on", "live_off"), end)
    {
      hide PendingFromRecord, Restore, LastOf, LastIs, Minted, InFlight, StageRecordOk;
      this.ledger, this.journal := ledger, journal;
      this.pending, this.approveAlways, this.liveExpired, this.halted := None, false, false, false;
      this.w := left;
      new;
      StartedFacts(left, now, LastIs(journal.live, "live_on", "live_off"), end);
      RestoreFromJournal(now, end);
      w := Started(left, now, liveExpired, end);
    }

    /** The pending comes back; the real-money arm does not, it is reported as
        expired. The confirm record is read before that report can rotate the file. */
    method RestoreFromJournal(now: real, end: WriteEnd)
      requires journal.Valid()
      modifies this`pending, this`approveAlways, this`liveExpired, journal
      ensures journal.Valid() && pending == if Restore(old(journal.log), now).Some? then Restore(old(journal.log), now) else old(pending)
      ensures approveAlways <==> old(approveAlways) || LastIs(old(journal.live), "approve_always", "approve_off")
      ensures liveExpired <==> old(liveExpired) || LastIs(old(journal.live), "live_on", "live_off")
      ensures journal.log == if LastIs(old(journal.live), "live_on", "live_off")
                             then old(journal.log).Put(NOT_RESTORED, end) else old(journal.log)
    {
      hide PendingFromRecord;
      var rec := journal.LastEvent({STAGE, CANCEL, SENT});
      var mode := journal.LastEvent({"approve_always", "approve_off"});
      if mode.Some? && mode.value.event == "approve_always" {
        approveAlways := true;
      }
      var live := journal.LastEvent({"live_on", "live_off"});
      if live.Some? && live.value.event == "live_on" {
        liveExpired := true;
        journal.Write(NOT_RESTORED, end);
      }
      if rec.Some? && rec.value.event == STAGE {
        var expires := FloatOrZero(Lookup(rec.value.fields, "expires_at"));
        if expires.Some? && now <= expires.value {
          var restored := PendingFromRecord(rec.value.fields);
          if restored.Some? {
            pending := restored;
          }
        }
      }
    }

    /** `_set_pending`: memory first, then the record. */
    method SetPending(p: Pending, env: StageEnv)
      requires Valid() && P.Enabled(w, Staging(p, env))
      modifies this`w, this`pending, journal
      ensures Coupled() && w == P.Apply(old(w), Staging(p, env))
    {
      hide RecordOf;
      pending := Some(p);
      journal.Write(Rec(STAGE, RecordOf(p), env.bytes), env.end);
      w := P.Apply(w, Staging(p, env));
    }

    /** `_clear_pending`: memory first, then the record, if there was something. */
    method ClearPending(event: string, bytes: nat, end: WriteEnd)
      requires Coupled()
      modifies this`w, this`pending, journal
      ensures Coupled() && w == Cleared(old(w), event, bytes, end) && pending == None
    {
      hide RecordOf;
      var was := pending;
      pending := None;
      if was.Some? {
        journal.Write(Rec(event, RecordOf(was.value), bytes), end);
        w := Cleared(w, event, bytes, end);
      }
    }

    /** The records beside the protocol's own, in order. */
    method WriteAll(extras: seq<Extra>)
      requires Coupled()
      modifies this`w, journal
      ensures Coupled() && w == old(w).(log := Noted(old(w).log, extras))
    {
      var i := 0;
      while i < |extras|
        invariant 0 <= i <= |extras| && Coupled() && w == old(w).(log := w.log)
        invariant Noted(w.log, extras[i..]) == Noted(old(w).log, extras)
      {
        assert extras[i..][0] == extras[i] && extras[i..][1..] == extras[i + 1..];
        journal.Write(extras[i].rec, extras[i].end);
        w := w.(log := journal.log);
        i := i + 1;
      }
      assert extras[i..] == [];
    }

    /** `_open` / `_place_pending` under a client key: refuse a key with an open
        attempt, check, write the ledger, send, settle on a verdict, record. */
    method EngineSend(key: string, env: SendEnv) returns (r: SendResult, ghost drop: set<string>)
      requires Coupled() && |w.open| <= MAX_OPEN
      modifies this`w, ledger, journal
      ensures Dropped(old(w), key, env, drop)
      ensures Coupled() && w == SendWorld(old(w), key, env, drop) && r == SendAnswer(old(w), key, env)
    {
      drop := {};
      var entry := ledger.Get(key);
      if entry.Some? {
        r := Refuse(env);
        return r, drop;
      }
      if env.check.CheckRaised? {
        return NoAnswer, drop;
      }
      if env.check.CheckFailed? {
        r := Refuse(env);
        return r, drop;
      }
      drop := BeginAttempt(key, env);
      if !env.beginOk {
        return NoAnswer, drop;
      }
      w := OnTheWire(w, key, drop);
      r := SettleAndRecord(key, env);
    }

    /** The report of a refusal; if it fails that is an exception. */
    method Refuse(env: SendEnv) returns (r: SendResult)
      requires Coupled()
      modifies this`w, journal
      ensures Coupled() && w == old(w).(log := Noted(old(w).log, env.extras))
      ensures r == if AllWritten(env.extras) then Answer(false) else NoAnswer
    {
      WriteAll(env.extras);
      r := if AllWritten(env.extras) then Answer(false) else NoAnswer;
    }

    /** What follows the venue call. */
    method SettleAndRecord(key: string, env: SendEnv) returns (r: SendResult)
      requires Coupled() && |w.open| <= MAX_OPEN
      modifies this`w, ledger, journal
      ensures Coupled() && w == EndWorld(old(w), key, env) && r == AnswerOf(env)
    {
      if env.wired.Raised? {
        WriteAll(env.extras);
        w := EndWorld(old(w), key, env);
        return NoAnswer;
      }
      SettleAttempt(key, env.settleOk);
      w := w.(open := ledger.Load().Keys);
      if !env.settleOk {
        w := EndWorld(old(w), key, env);
        return NoAnswer;
      }
      RecordsWritten(env);
      WriteAll(env.extras);
      var told := AllWritten(env.extras);
      if told {
        NotedAppend(old(w).log, env.extras, Extra(OpenRec(env), env.note));
        journal.Write(OpenRec(env), env.note);
      }
      w := EndWorld(old(w), key, env);
      r := if told && env.note.Landed? then Answer(env.wired.ok) else NoAnswer;
    }

    /** `inflight.begin`, before anything leaves: one more entry, less what the cap
        drops. */
    method BeginAttempt(key: string, env: SendEnv) returns (ghost drop: set<string>)
      requires Coupled() && key !in w.open && |w.open| <= MAX_OPEN
      modifies ledger
      ensures if env.beginOk then Evicts(w, key, drop) && ledger.Load().Keys == w.open + {key} - drop
              else ledger.Load() == old(ledger.Load())
    {
      ghost var before := ledger.Load();
      ledger.Begin(key, env.now, env.symbol, env.op, env.beginOk);
      drop := {};
      if env.beginOk {
        ghost var attempted := Attempted(before, key, env.now, env.symbol, env.op);
        drop := attempted.Keys - ledger.file.open.Keys;
        CapDrops(attempted, ledger.file.open);
        assert attempted.Keys == before.Keys + {key};
      }
    }

    /** `inflight.resolve`, after a verdict. */
    method SettleAttempt(key: string, ok: bool)
      requires |ledger.Load().Keys| <= MAX_OPEN
      modifies ledger
      ensures ledger.Load().Keys == old(ledger.Load().Keys) - (if ok then {key} else {})
    {
      ghost var held := ledger.Load();
      ledger.Resolve(key, ok);
      if ok && key in held {
        assert (held - {key}).Keys == held.Keys - {key};
        SubsetSize(held.Keys - {key}, held.Keys);
        assert |held - {key}| == |(held - {key}).Keys|;
        RoomKeepsAll(held - {key}, ledger.file.open);
      }
    }

    /** `_confirm` and `_confirm_reverse`. */
    method Confirm(env: ConfirmEnv) returns (r: Reply, ghost drop: set<string>)
      requires Valid()
      modifies this`w, this`pending, ledger, journal
      ensures ConfirmDrops(old(w), env, drop)
      ensures Valid() && w == ConfirmWorld(old(w), halted, env, drop) && r == ConfirmReply(old(w), halted, env)
    {
      r, drop := Confirmation(env);
      ConfirmRuns(old(w), halted, env, drop);
      hide ConfirmWorld, ConfirmReply, ConfirmDrops, Ran;
    }

    method Confirmation(env: ConfirmEnv) returns (r: Reply, ghost drop: set<string>)
      requires Valid()
      modifies this`w, this`pending, ledger, journal
      ensures ConfirmDrops(old(w), env, drop)
      ensures Coupled() && w == ConfirmWorld(old(w), halted, env, drop) && r == ConfirmReply(old(w), halted, env)
    {
      hide SendWorld, SendAnswer, Cleared, RecordOf, Evicts, Leaves, Noted;
      drop := SomeDrop(w, env);
      NotedNothing(w.log);
      if pending.None? {
        return Nothing, drop;
      }
      if env.now > pending.value.expiresAt {
        r := Finished(Expired, CANCEL, env);
        return r, drop;
      }
      WriteAll(env.before);
      SameConfirm(old(w), w, halted, env);
      r, drop := Decide(env);
    }

    /** A pending in time: the source writes the records in `before` on its way through
        these branches, and none of them reads the journal. */
    method Decide(env: ConfirmEnv) returns (r: Reply, ghost drop: set<string>)
      requires Valid() && pending.Some? && env.now <= pending.value.expiresAt
      modifies this`w, this`pending, ledger, journal
      ensures ConfirmDrops(old(w), env, drop) && Coupled()
      ensures var plan := ConfirmPlan(old(w), halted, env);
              var w1 := if plan.submits then SendWorld(old(w), old(pending).value.clientId, env.send, drop) else old(w);
              w1.log.Valid() && w == Concluded(w1, plan, env) && r == ConfirmReply(old(w), halted, env)
    {
      hide SendWorld, SendAnswer, Cleared, RecordOf, Evicts, Leaves, Noted;
      drop := SomeDrop(w, env);
      var p := pending.value;
      if halted {
        r := Finished(HaltedReply, CANCEL, env);
      } else if p.signal.None? {
        if p.closeTicket.None? {
          r := Finished(Nothing, CANCEL, env);
        } else {
          r := FinishClose(env);
        }
      } else {
        r, drop := DecideOrder(env);
      }
    }

    /** The part of an order with a signal. */
    method DecideOrder(env: ConfirmEnv) returns (r: Reply, ghost drop: set<string>)
      requires Valid() && pending.Some? && pending.value.signal.Some? && env.now <= pending.value.expiresAt && !halted
      modifies this`w, this`pending, ledger, journal
      ensures ConfirmDrops(old(w), env, drop) && Coupled()
      ensures var plan := ConfirmPlan(old(w), halted, env);
              var w1 := if plan.submits then SendWorld(old(w), old(pending).value.clientId, env.send, drop) else old(w);
              w1.log.Valid() && w == Concluded(w1, plan, env) && r == ConfirmReply(old(w), halted, env)
    {
      hide SendWorld, SendAnswer, Cleared, RecordOf, Evicts, Leaves, Noted;
      drop := SomeDrop(w, env);
      var p := pending.value;
      if p.closeTicket.Some? && !env.ticketOpen {
        r := Finished(NoTicket, CANCEL, env);
      } else if !env.quoteOk || env.gate.GateRaised? {
        r := Raise;
      } else if env.gate.Refused? {
        if env.gate.halt {
          r := Finished(RefusedReply, CANCEL, env);
        } else {
          r := RefusedReply;
        }
      } else if p.closeTicket.Some? && !env.closing.ClosingDone? {
        r := FinishClose(env);
      } else if p.closeTicket.Some? && env.gateAfterClose.GateRaised? {
        r := Raise;
      } else if p.closeTicket.Some? && env.gateAfterClose.Refused? {
        r := Finished(RefusedAfterClose, CANCEL, env);
      } else {
        var attempted := ledger.Get(p.clientId);
        if attempted.Some? {
          return AlreadyAttempted, drop;
        }
        r, drop := Submit(p.clientId, env);
      }
    }

    /** The answer of `close_ticket`. */
    method FinishClose(env: ConfirmEnv) returns (r: Reply)
      requires Coupled()
      modifies this`w, this`pending, journal
      ensures Coupled() && w == Concluded(old(w), ClosePlan(env.closing), env)
      ensures r == if !env.closing.ClosingRaised? && !env.clear.Landed? then Raise else ClosePlan(env.closing).reply
    {
      hide Cleared, Noted;
      match env.closing {
        case ClosingDone => r := Finished(Closed, SENT, env);
        case ClosingRefused => r := Finished(CloseFailed, CANCEL, env);
        case ClosingRaised => r := Raise;
      }
    }

    /** `_submit_once` and the clearing that its answer allows. */
    method Submit(key: string, env: ConfirmEnv) returns (r: Reply, ghost drop: set<string>)
      requires Valid() && key !in w.open
      modifies this`w, this`pending, ledger, journal
      ensures Dropped(old(w), key, env.send, drop) && Coupled()
      ensures var plan, w1 := SendPlan(old(w), key, env.send, env.caught), SendWorld(old(w), key, env.send, drop);
              && w1.log.Valid() && w == Concluded(w1, plan, env)
              && r == if plan.clear.Some? && !env.clear.Landed? then Raise else plan.reply
    {
      hide SendWorld, SendAnswer, Cleared, RecordOf, Evicts, Leaves, Noted;
      var sent;
      sent, drop := EngineSend(key, env.send);
      if sent.NoAnswer? && !env.caught {
        r := Raise;
      } else if sent.NoAnswer? {
        WriteAll(env.after);
        r := Unresolved;
      } else if sent.ok {
        r := Finished(Sent, SENT, env);
      } else {
        r := Finished(SendFailed, CANCEL, env);
      }
    }

    /** Clear the pending and answer; a failed record surfaces as an exception. */
    method Finished(reply: Reply, event: string, env: ConfirmEnv) returns (r: Reply)
      requires Coupled()
      modifies this`w, this`pending, journal
      ensures Coupled() && w == Cleared(old(w), event, env.clearBytes, env.clear)
      ensures r == if env.clear.Landed? then reply else Raise
    {
      ClearPending(event, env.clearBytes, env.clear);
      r := if env.clear.Landed? then reply else Raise;
    }

    /** The pending set, and confirmed at once under `/approve always`. */
    method Accept(p: Pending, env: StageEnv, confirm: ConfirmEnv) returns (r: Reply, ghost drop: set<string>)
      requires Valid() && Stageable(w, p, env) && P.Enabled(w, Staging(p, env)) && Ready(P.Apply(w, Staging(p, env)))
      modifies this`w, this`pending, ledger, journal
      ensures Valid() && w == StagedWorld(old(w), p, env, approveAlways, halted, confirm, drop)
      ensures r == StagingReply(old(w), p, env, approveAlways, halted, confirm)
    {
      hide RecordOf, ConfirmWorld, ConfirmReply, ConfirmDrops, P.Apply, P.Enabled, Stageable, Ready;
      SetPending(p, env);
      drop := {};
      if !env.end.Landed? {
        return Raise, drop;
      }
      if approveAlways {
        r, drop := Confirm(confirm);
      } else {
        r := StagedReply;
      }
    }

    /** `_stage`, and `_reverse` with a ticket: one key is minted per staged order.
        With `/approve always` the confirm follows at once. */
    method StageOrder(sig: Signal, source: string, ticket: Option<int>, env: StageEnv, confirm: ConfirmEnv)
        returns (r: Reply, ghost drop: set<string>)
      requires Valid() && sig.kind != FlatKind && Fresh(w, env.key)
      modifies this`w, this`pending, ledger, journal
      ensures Valid()
      ensures (old(pending).Some? && env.now <= old(pending).value.expiresAt) || env.gate.Refused? ==>
                w == Rejected(old(w), env) && r == if old(pending).Some? && env.now <= old(pending).value.expiresAt then Busy else RefusedReply
      ensures !(old(pending).Some? && env.now <= old(pending).value.expiresAt) && env.gate.GateRaised? ==> w == old(w) && r == Raise
      ensures !(old(pending).Some? && env.now <= old(pending).value.expiresAt) && env.gate.Allowed? ==>
                var p := Pending(Some(sig), env.gate.volume, source, env.now + env.ttl, ticket, env.key);
                && P.Enabled(old(w), Staging(p, env)) && Ready(P.Apply(old(w), Staging(p, env)))
                && w == StagedWorld(old(w), p, env, approveAlways, halted, confirm, drop)
                && r == StagingReply(old(w), p, env, approveAlways, halted, confirm)
    {
      hide RecordOf, StagedWorld, StagingReply, P.Apply, P.Enabled;
      drop := {};
      if pending.Some? && env.now <= pending.value.expiresAt {
        WriteAll(env.rejects);
        return Busy, drop;
      }
      if env.gate.GateRaised? {
        return Raise, drop;
      }
      if env.gate.Refused? {
        WriteAll(env.rejects);
        return RefusedReply, drop;
      }
      var p := Pending(Some(sig), env.gate.volume, source, env.now + env.ttl, ticket, env.key);
      StageRuns(w, p, env);
      r, drop := Accept(p, env, confirm);
    }

    /** `_stage_close`; `volume` is that of the ticket's position, if it is on the book. */
    method StageClose(ticket: Option<int>, volume: Option<real>, env: StageEnv, confirm: ConfirmEnv)
        returns (r: Reply, ghost drop: set<string>)
      requires Valid()
      modifies this`w, this`pending, ledger, journal
      ensures Valid()
      ensures (old(pending).Some? && env.now <= old(pending).value.expiresAt) || ticket.None? || volume.None? ==>
                w == Rejected(old(w), env) && r == if old(pending).Some? && env.now <= old(pending).value.expiresAt then Busy else NoTicket
      ensures !(old(pending).Some? && env.now <= old(pending).value.expiresAt) && ticket.Some? && volume.Some? ==>
                var p := Pending(None, volume.value, "advice", env.now + env.ttl, ticket, "");
                && P.Enabled(old(w), Staging(p, env)) && Ready(P.Apply(old(w), Staging(p, env)))
                && w == StagedWorld(old(w), p, env, approveAlways, halted, confirm, drop)
                && r == StagingReply(old(w), p, env, approveAlways, halted, confirm)
    {
      hide RecordOf, StagedWorld, StagingReply, P.Apply, P.Enabled;
      drop := {};
      if pending.Some? && env.now <= pending.value.expiresAt {
        WriteAll(env.rejects);
        return Busy, drop;
      }
      if ticket.None? || volume.None? {
        WriteAll(env.rejects);
        return NoTicket, drop;
      }
      var p := Pending(None, volume.value, "advice", env.now + env.ttl, ticket, "");
      StageRuns(w, p, env);
      r, drop := Accept(p, env, confirm);
    }

    /** `/cancel`, and the clearing that comes first in a flatten. */
    method Cancel(bytes: nat, end: WriteEnd) returns (r: Reply)
      requires Valid()
      modifies this`w, this`pending, journal
      ensures Valid() && w == Cleared(old(w), CANCEL, bytes, end) && pending == None
      ensures r == if old(pending).None? then Nothing else if end.Landed? then Cancelled else Raise
    {
      hide RecordOf;
      if pending.None? {
        return Nothing;
      }
      ClearPending(CANCEL, bytes, end);
      r := if end.Landed? then Cancelled else Raise;
    }

    /** The auto leg: a fresh key for every signal, no pending involved. */
    method AutoSend(key: string, env: SendEnv) returns (r: SendResult, ghost drop: set<string>)
      requires Valid() && Fresh(w, key) && !Holds(w, key)
      modifies this`w, ledger, journal
      ensures Valid() && r == SendAnswer(old(w), key, env) && Dropped(old(w), key, env, drop)
      ensures w == AutoWorld(old(w), key, env, drop)
    {
      r, drop := EngineSend(key, env);
      AutoRuns(old(w), key, env, drop);
      w := w.(proc := old(w).proc);
      hide SendWorld, SendAnswer, Dropped, Ran;
    }
  }
}
