/** `Engine.flatten` and the fill scan (engine.py), against a venue that may reject,
    fill short, raise, or fail and lie on any read, and a journal that may refuse any
    single record: such a record raises where it is written. */
module Flatten {
  import opened Wrappers
  import Confirm

  /** Volumes count units of 1e-8 lots. */
  datatype Held = Held(ticket: nat, volume: int)

  datatype Read<T> = Unreadable | Rows(rows: seq<T>)
  {
    function List(): seq<T> { if Rows? then rows else [] }
  }

  datatype CancelEnd = CancelRaised | Cancelled(ok: bool)
  datatype CloseEnd = CloseRaised | Rejected | Filled(volume: int)

  /** Everything the venue does during one sweep. Tickets are attempted once, so an
      answer per ticket is any venue at all. */
  datatype Venue = Venue(
    workingBefore: Read<nat>, openBefore: Read<Held>, openAfter: Read<nat>, workingAfter: Read<nat>,
    cancel: nat -> CancelEnd, close: nat -> CloseEnd)

  /** Which records of the sweep can be written. */
  datatype Records = Records(
    clear: bool, working: bool, cancelFailed: nat -> bool, open: bool, close: nat -> bool, closeFailed: nat -> bool,
    closePartial: nat -> bool, openAfter: bool, workingAfter: bool, report: bool, incomplete: bool)

  datatype Report = Report(
    requested: nat, confirmedClosed: nat, closedElsewhere: nat, survivors: set<nat>, residual: set<nat>,
    ordersRequested: nat, ordersCancelled: nat, ordersGone: nat, orderSurvivors: set<nat>, measured: bool)
  {
    /** `FlattenReport.complete`. */
    predicate Complete() {
      && measured && survivors == {} && orderSurvivors == {}
      && confirmedClosed + closedElsewhere == requested
      && ordersCancelled + ordersGone == ordersRequested
    }
  }

  // ----- what a sweep amounts to ---------------------------------------------------

  function Tickets(rows: seq<Held>): seq<nat> {
    if rows == [] then [] else Tickets(rows[..|rows| - 1]) + [rows[|rows| - 1].ticket]
  }

  function Elements(s: seq<nat>): set<nat> { set t | t in s }

  predicate Distinct(s: seq<nat>) {
    forall i, j :: 0 <= i < j < |s| ==> s[i] != s[j]
  }

  /** A fill that covers the whole position as it was before the close. */
  predicate Covers(v: Venue, h: Held) {
    v.close(h.ticket).Filled? && v.close(h.ticket).volume >= h.volume
  }

  predicate Short(v: Venue, h: Held) {
    v.close(h.ticket).Filled? && v.close(h.ticket).volume < h.volume
  }

  /** Closes that answered and were recorded; the others count as raised. */
  function ConfirmedOf(v: Venue, j: Records, rows: seq<Held>): set<nat> {
    set h | h in rows && Covers(v, h) && j.close(h.ticket) :: h.ticket
  }

  function ResidualOf(v: Venue, j: Records, rows: seq<Held>): set<nat> {
    set h | h in rows && Short(v, h) && j.close(h.ticket) :: h.ticket
  }

  function CancelledOf(v: Venue, tickets: seq<nat>): set<nat> {
    set t | t in tickets && v.cancel(t) == Cancelled(true)
  }

  /** The closes that answered at all. */
  function AnsweredOf(v: Venue, rows: seq<Held>): set<nat> {
    set h | h in rows && !v.close(h.ticket).CloseRaised? :: h.ticket
  }

  lemma NoCloses(v: Venue, j: Records)
    ensures ConfirmedOf(v, j, []) == ResidualOf(v, j, []) == AnsweredOf(v, []) == {} && Tickets([]) == []
  {
  }

  lemma OneMoreClose(v: Venue, j: Records, rows: seq<Held>, h: Held)
    ensures ConfirmedOf(v, j, rows + [h])
            == ConfirmedOf(v, j, rows) + (if Covers(v, h) && j.close(h.ticket) then {h.ticket} else {})
    ensures ResidualOf(v, j, rows + [h])
            == ResidualOf(v, j, rows) + (if Short(v, h) && j.close(h.ticket) then {h.ticket} else {})
    ensures AnsweredOf(v, rows + [h]) == AnsweredOf(v, rows) + (if v.close(h.ticket).CloseRaised? then {} else {h.ticket})
    ensures Tickets(rows + [h]) == Tickets(rows) + [h.ticket]
  {
    hide Covers, Short;
    assert (rows + [h])[..|rows|] == rows;
  }

  // ----- which records the sweep needs to get to its halt --------------------------------

  predicate CancelRecorded(v: Venue, j: Records, t: nat) {
    v.cancel(t) == Cancelled(true) || j.cancelFailed(t)
  }

  /** A close raises out of the loop only when its last record fails: that of the short
      fill, or that of the failure. */
  predicate CloseRecorded(v: Venue, j: Records, h: Held) {
    if v.close(h.ticket).CloseRaised? || !j.close(h.ticket) then j.closeFailed(h.ticket)
    else Short(v, h) ==> j.closePartial(h.ticket)
  }

  /** The sweep gets as far as its halt. */
  predicate ReachesHalt(pending: bool, v: Venue, j: Records) {
    && (pending ==> j.clear)
    && (v.workingBefore.Unreadable? ==> j.working)
    && (forall t :: t in v.workingBefore.List() ==> CancelRecorded(v, j, t))
    && (v.openBefore.Unreadable? ==> j.open)
    && (forall h :: h in v.openBefore.List() ==> CloseRecorded(v, j, h))
  }

  predicate Reports(v: Venue, j: Records) {
    && (v.openAfter.Unreadable? ==> j.openAfter)
    && (v.workingAfter.Unreadable? ==> j.workingAfter)
    && j.report && (ReportOf(v, j).Complete() || j.incomplete)
  }

  predicate Measured(v: Venue) {
    v.openBefore.Rows? && v.workingBefore.Rows? && v.openAfter.Rows? && v.workingAfter.Rows?
  }

  function ReportOf(v: Venue, j: Records): Report {
    var rows, orders := v.openBefore.List(), v.workingBefore.List();
    var requested, requestedOrders := Elements(Tickets(rows)), Elements(orders);
    var confirmed, residual, cancelled := ConfirmedOf(v, j, rows), ResidualOf(v, j, rows), CancelledOf(v, orders);
    var openAfter, workingAfter := Elements(v.openAfter.List()), Elements(v.workingAfter.List());
    if Measured(v) then
      Report(|rows|, |confirmed|, |requested - confirmed - residual - openAfter|, openAfter + residual, residual,
             |orders|, |cancelled|, |requestedOrders - cancelled - workingAfter|, workingAfter, true)
    else
      Report(|rows|, |confirmed|, 0, requested + openAfter, residual,
             |orders|, |cancelled|, 0, requestedOrders + workingAfter, false)
  }

  // ----- the objects -----------------------------------------------------------------

  class Engine {
    var halted: bool
    var pending: Option<Confirm.Pending>     // the desk's
    var seenPos: Option<set<nat>>
    var openedThisStep: set<nat>
    var closedThisStep: set<nat>
    var scaleOuts: map<nat, (real, int)>
    ghost var cancelCalls: seq<nat>
    ghost var closeCalls: seq<nat>

    constructor ()
      ensures !halted && pending == None && seenPos == None && openedThisStep == {} && closedThisStep == {}
      ensures cancelCalls == [] && closeCalls == []
    {
      halted, pending, seenPos, openedThisStep, closedThisStep := false, None, None, {}, {};
      scaleOuts, cancelCalls, closeCalls := map[], [], [];
    }

    /** The cancel loop. `ok` is false when a record could not be written. */
    method CancelAll(v: Venue, j: Records, tickets: seq<nat>) returns (cancelled: set<nat>, ok: bool)
      modifies this`cancelCalls
      ensures ok <==> forall t :: t in tickets ==> CancelRecorded(v, j, t)
      ensures ok ==> cancelled == CancelledOf(v, tickets) && cancelCalls == old(cancelCalls) + tickets
    {
      cancelled, ok := {}, true;
      var i := 0;
      while i < |tickets|
        invariant 0 <= i <= |tickets|
        invariant cancelled == CancelledOf(v, tickets[..i])
        invariant cancelCalls == old(cancelCalls) + tickets[..i]
        invariant forall t :: t in tickets[..i] ==> CancelRecorded(v, j, t)
      {
        var ticket := tickets[i];
        assert tickets[..i + 1] == tickets[..i] + [ticket];
        cancelCalls := cancelCalls + [ticket];
        var result := v.cancel(ticket);
        if result == Cancelled(true) {
          cancelled := cancelled + {ticket};
        } else if !j.cancelFailed(ticket) {
          assert ticket in tickets && !CancelRecorded(v, j, ticket);
          ok := false;
          return;
        }
        i := i + 1;
      }
      assert tickets[..i] == tickets;
    }

    /** One close and its records: a fill or a rejection that was recorded, or nothing
        when it raised, by itself or over its record. */
    method CloseOne(v: Venue, j: Records, pos: Held) returns (filled: Option<int>, ok: bool)
      modifies this`closeCalls, this`closedThisStep, this`scaleOuts
      ensures ok <==> CloseRecorded(v, j, pos)
      ensures filled == if v.close(pos.ticket).Filled? && j.close(pos.ticket) then Some(v.close(pos.ticket).volume) else None
      ensures closeCalls == old(closeCalls) + [pos.ticket]
      ensures closedThisStep == old(closedThisStep) + (if v.close(pos.ticket).CloseRaised? then {} else {pos.ticket})
    {
      closeCalls := closeCalls + [pos.ticket];
      var result := v.close(pos.ticket);
      if !result.CloseRaised? {
        closedThisStep := closedThisStep + {pos.ticket};
        if result.Filled? {
          scaleOuts := scaleOuts - {pos.ticket};
        }
      }
      if result.CloseRaised? || !j.close(pos.ticket) {
        return None, j.closeFailed(pos.ticket);
      }
      filled := if result.Filled? then Some(result.volume) else None;
      ok := !(result.Filled? && result.volume < pos.volume) || j.closePartial(pos.ticket);
    }

    /** The close loop; a ticket is marked only when its close answered. */
    method CloseAll(v: Venue, j: Records, rows: seq<Held>) returns (confirmed: set<nat>, residual: set<nat>, ok: bool)
      modifies this`closeCalls, this`closedThisStep, this`scaleOuts
      ensures ok <==> forall h :: h in rows ==> CloseRecorded(v, j, h)
      ensures ok ==> confirmed == ConfirmedOf(v, j, rows) && residual == ResidualOf(v, j, rows)
      ensures ok ==> closeCalls == old(closeCalls) + Tickets(rows)
      ensures ok ==> closedThisStep == old(closedThisStep) + AnsweredOf(v, rows)
    {
      hide ConfirmedOf, ResidualOf, AnsweredOf, Tickets, CloseRecorded;
      NoCloses(v, j);
      confirmed, residual, ok := {}, {}, true;
      var i := 0;
      while i < |rows|
        invariant 0 <= i <= |rows|
        invariant confirmed == ConfirmedOf(v, j, rows[..i]) && residual == ResidualOf(v, j, rows[..i])
        invariant closeCalls == old(closeCalls) + Tickets(rows[..i])
        invariant closedThisStep == old(closedThisStep) + AnsweredOf(v, rows[..i])
        invariant forall h :: h in rows[..i] ==> CloseRecorded(v, j, h)
      {
        var pos := rows[i];
        assert rows[..i + 1] == rows[..i] + [pos];
        OneMoreClose(v, j, rows[..i], pos);
        var filled, recorded := CloseOne(v, j, pos);
        if !recorded {
          ok := false;
          return;
        }
        if filled.Some? {
          if filled.value >= pos.volume {
            confirmed := confirmed + {pos.ticket};
          } else {
            residual := residual + {pos.ticket};
          }
        }
        i := i + 1;
      }
      assert rows[..i] == rows;
    }

    /** `desk._clear_pending`, the first thing a flatten does. */
    method ClearPending(recorded: bool) returns (ok: bool)
      modifies this`pending
      ensures pending == None && ok == (old(pending).None? || recorded)
    {
      ok := pending.None? || recorded;
      pending := None;
    }

    /** The sweep. None is the exception of a record that could not be written. New
        entries stop if and only if the sweep got to its halt; a pending whose clearing
        cannot be recorded ends it before anything is attempted. */
    method Flatten(v: Venue, j: Records) returns (r: Option<Report>)
      modifies this
      ensures halted <==> old(halted) || ReachesHalt(old(pending).Some?, v, j)
      ensures r == if ReachesHalt(old(pending).Some?, v, j) && Reports(v, j) then Some(ReportOf(v, j)) else None
      ensures ReachesHalt(old(pending).Some?, v, j) ==>
                && cancelCalls == old(cancelCalls) + v.workingBefore.List()
                && closeCalls == old(closeCalls) + Tickets(v.openBefore.List())
                && scaleOuts == map[]
      ensures old(pending).Some? && !j.clear ==>
                cancelCalls == old(cancelCalls) && closeCalls == old(closeCalls) && seenPos == old(seenPos)
      ensures r.Some? ==> seenPos == Some({})
      ensures pending == None && openedThisStep == old(openedThisStep)
    {
      hide ConfirmedOf, ResidualOf, AnsweredOf, CancelledOf, Tickets, CloseRecorded, CancelRecorded;
      var cleared := ClearPending(j.clear);
      if !cleared || (v.workingBefore.Unreadable? && !j.working) {
        return None;
      }
      var requestedOrders := v.workingBefore.List();
      var cancelled, cancelOk := CancelAll(v, j, requestedOrders);
      if !cancelOk || (v.openBefore.Unreadable? && !j.open) {
        return None;
      }
      var before := v.openBefore.List();
      var confirmed, residual, closeOk := CloseAll(v, j, before);
      if !closeOk {
        return None;
      }
      scaleOuts := map[];
      halted := true;
      r := Verify(v, j, confirmed, residual, cancelled);
    }

    /** The reads after the sweep and the report. */
    method Verify(v: Venue, j: Records, confirmed: set<nat>, residual: set<nat>, cancelled: set<nat>) returns (r: Option<Report>)
      requires confirmed == ConfirmedOf(v, j, v.openBefore.List()) && residual == ResidualOf(v, j, v.openBefore.List())
      requires cancelled == CancelledOf(v, v.workingBefore.List())
      modifies this`seenPos
      ensures r == if Reports(v, j) then Some(ReportOf(v, j)) else None
      ensures r.Some? ==> seenPos == Some({})
    {
      hide ConfirmedOf, ResidualOf, CancelledOf, Tickets;
      if (v.openAfter.Unreadable? && !j.openAfter) || (v.workingAfter.Unreadable? && !j.workingAfter) {
        return None;
      }
      var before, requestedOrders := v.openBefore.List(), v.workingBefore.List();
      var openAfter, workingAfter := Elements(v.openAfter.List()), Elements(v.workingAfter.List());
      var requested := Elements(Tickets(before));
      var measured := v.openBefore.Rows? && v.workingBefore.Rows? && v.openAfter.Rows? && v.workingAfter.Rows?;
      var survivors, closedElsewhere, orderSurvivors, ordersGone;
      if measured {
        survivors := openAfter + residual;
        closedElsewhere := requested - confirmed - residual - openAfter;
        orderSurvivors := workingAfter;
        ordersGone := Elements(requestedOrders) - cancelled - workingAfter;
      } else {
        survivors := requested + openAfter;
        closedElsewhere := {};
        orderSurvivors := Elements(requestedOrders) + workingAfter;
        ordersGone := {};
      }
      seenPos := Some(openAfter - survivors);
      assert openAfter - survivors == {};
      var report := Report(|before|, |confirmed|, |closedElsewhere|, survivors, residual,
                           |requestedOrders|, |cancelled|, |ordersGone|, orderSurvivors, measured);
      assert report == ReportOf(v, j);
      if !j.report || (!report.Complete() && !j.incomplete) {
        return None;
      }
      r := Some(report);
    }

    /** `_detect_fills`: what appeared and what vanished since the last scan, except
        what this very step opened or closed itself. */
    method DetectFills(now: set<nat>) returns (appeared: set<nat>, vanished: set<nat>)
      modifies this`seenPos
      ensures seenPos == Some(now)
      ensures old(seenPos).None? ==> appeared == vanished == {}
      ensures old(seenPos).Some? ==> appeared == now - old(seenPos).value - openedThisStep
                                     && vanished == old(seenPos).value - now - closedThisStep
    {
      appeared, vanished := {}, {};
      if seenPos.Some? {
        appeared := now - seenPos.value - openedThisStep;
        vanished := seenPos.value - now - closedThisStep;
      }
      seenPos := Some(now);
    }

    /** A sweep and the scan after it: a survivor that is still on the book is
        announced again exactly when it was not opened in this same step. */
    method SweepThenScan(v: Venue, j: Records, now: set<nat>) returns (r: Option<Report>, appeared: set<nat>)
      modifies this
      ensures r == if ReachesHalt(old(pending).Some?, v, j) && Reports(v, j) then Some(ReportOf(v, j)) else None
      ensures r.Some? ==> halted
      ensures r.Some? ==>
                forall t :: t in r.value.survivors && t in now ==> (t in appeared <==> t !in old(openedThisStep))
    {
      hide ReportOf, ReachesHalt, Reports;
      r := Flatten(v, j);
      var vanished;
      appeared, vanished := DetectFills(now);
    }
  }

  // ----- the sweep in the answers of venue and journal ------------------------------------

  /** The sweep gets to its halt if and only if no record on its way is lost: that of a
      pending order, of a failed read, of each cancel that did not succeed, of each close that
      raised or could not be recorded, and of each recorded fill that fell short. */
  lemma HaltsExactly(pending: bool, v: Venue, j: Records)
    ensures ReachesHalt(pending, v, j) <==>
            && (pending ==> j.clear)
            && (v.workingBefore == Unreadable ==> j.working)
            && (v.openBefore == Unreadable ==> j.open)
            && (forall t :: t in v.workingBefore.List() && v.cancel(t) != Cancelled(true) ==> j.cancelFailed(t))
            && (forall h :: h in v.openBefore.List() && (v.close(h.ticket) == CloseRaised || !j.close(h.ticket)) ==>
                  j.closeFailed(h.ticket))
            && (forall h :: h in v.openBefore.List() && ClosedInPart(v, j, h) ==> j.closePartial(h.ticket))
  {
  }

  /** The report comes if and only if the failed reads after the sweep, the report and, if
      something is left, the alarm could be recorded. */
  lemma ReportsExactly(v: Venue, j: Records)
    ensures Reports(v, j) <==>
            && (v.openAfter == Unreadable ==> j.openAfter) && (v.workingAfter == Unreadable ==> j.workingAfter)
            && j.report && (j.incomplete || ReportOf(v, j).Complete())
  {
    hide ReportOf;
  }

  /** The close of this position filled at least what was held, and was recorded. */
  predicate ClosedInFull(v: Venue, j: Records, h: Held) {
    match v.close(h.ticket)
    case Filled(volume) => volume >= h.volume && j.close(h.ticket)
    case _ => false
  }

  predicate ClosedInPart(v: Venue, j: Records, h: Held) {
    match v.close(h.ticket)
    case Filled(volume) => volume < h.volume && j.close(h.ticket)
    case _ => false
  }

  /** The whole report, in what the venue and the journal answered: confirmed are the
      recorded fills of at least the held volume and residual the recorded shorter ones;
      with all four reads, survivors are what is still open or filled short and the rest of
      the request was closed elsewhere; with one read missing everything requested counts as
      surviving and nothing as closed elsewhere. */
  lemma ReportExactly(v: Venue, j: Records, t: nat)
    requires Distinct(Tickets(v.openBefore.List()))
    ensures var r, rows, orders := ReportOf(v, j), v.openBefore.List(), v.workingBefore.List();
            var openAfter, workingAfter := v.openAfter.List(), v.workingAfter.List();
            var requested := exists h :: h in rows && h.ticket == t;
            var short := exists h :: h in rows && h.ticket == t && ClosedInPart(v, j, h);
            && (r.measured <==> v.openBefore.Rows? && v.workingBefore.Rows? && v.openAfter.Rows? && v.workingAfter.Rows?)
            && r.requested == |rows| && r.ordersRequested == |orders|
            && r.confirmedClosed == |set h | h in rows && ClosedInFull(v, j, h) :: h.ticket|
            && r.ordersCancelled == |set o | o in orders && v.cancel(o) == Cancelled(true)|
            && (t in r.residual <==> short)
            && (t in r.survivors <==> t in openAfter || (if r.measured then short else requested))
            && (t in r.orderSurvivors <==> t in workingAfter || (!r.measured && t in orders))
            && r.closedElsewhere == (if !r.measured then 0 else
                 |set h | h in rows && !ClosedInFull(v, j, h) && !ClosedInPart(v, j, h) && h.ticket !in openAfter :: h.ticket|)
            && r.ordersGone == (if !r.measured then 0 else
                 |set o | o in orders && v.cancel(o) != Cancelled(true) && o !in workingAfter|)
  {
    var rows := v.openBefore.List();
    ReportHeads(v, j);
    if Measured(v) { ReportMeasured(v, j); } else { ReportUnmeasured(v, j); }
    FullAndPart(v, j);
    ElsewhereIs(v, j);
    GoneIs(v, j);
    TicketOfRow(rows, t);
    hide ReportOf, Tickets, Distinct, ConfirmedOf, ResidualOf, CancelledOf, ClosedInFull, ClosedInPart;
  }

  lemma TicketOfRow(rows: seq<Held>, t: nat)
    ensures t in Tickets(rows) <==> exists h :: h in rows && h.ticket == t
  {
    TicketsAre(rows);
    if t in Tickets(rows) {
      var i :| 0 <= i < |rows| && Tickets(rows)[i] == t;
      assert rows[i] in rows;
    }
    if h :| h in rows && h.ticket == t {
      var i :| 0 <= i < |rows| && rows[i] == h;
      assert Tickets(rows)[i] == t;
    }
  }

  lemma FullAndPart(v: Venue, j: Records)
    ensures ConfirmedOf(v, j, v.openBefore.List()) == set h | h in v.openBefore.List() && ClosedInFull(v, j, h) :: h.ticket
    ensures ResidualOf(v, j, v.openBefore.List()) == set h | h in v.openBefore.List() && ClosedInPart(v, j, h) :: h.ticket
    ensures CancelledOf(v, v.workingBefore.List()) == set t | t in v.workingBefore.List() && v.cancel(t) == Cancelled(true)
  {
  }

  lemma ReportHeads(v: Venue, j: Records)
    ensures var r, rows, orders := ReportOf(v, j), v.openBefore.List(), v.workingBefore.List();
            && (r.measured <==> Measured(v)) && r.requested == |rows| && r.ordersRequested == |orders|
            && r.confirmedClosed == |ConfirmedOf(v, j, rows)| && r.ordersCancelled == |CancelledOf(v, orders)|
            && r.residual == ResidualOf(v, j, rows)
  {
    hide ConfirmedOf, ResidualOf, CancelledOf, Elements, Tickets;
  }

  lemma ReportMeasured(v: Venue, j: Records)
    requires Measured(v)
    ensures var r, rows, orders := ReportOf(v, j), v.openBefore.List(), v.workingBefore.List();
            && r.survivors == Elements(v.openAfter.List()) + ResidualOf(v, j, rows)
            && r.orderSurvivors == Elements(v.workingAfter.List())
            && r.closedElsewhere ==
               |Elements(Tickets(rows)) - ConfirmedOf(v, j, rows) - ResidualOf(v, j, rows) - Elements(v.openAfter.List())|
            && r.ordersGone == |Elements(orders) - CancelledOf(v, orders) - Elements(v.workingAfter.List())|
  {
    hide ConfirmedOf, ResidualOf, CancelledOf, Elements, Tickets;
  }

  lemma ReportUnmeasured(v: Venue, j: Records)
    requires !Measured(v)
    ensures var r, rows, orders := ReportOf(v, j), v.openBefore.List(), v.workingBefore.List();
            && r.survivors == Elements(Tickets(rows)) + Elements(v.openAfter.List())
            && r.orderSurvivors == Elements(orders) + Elements(v.workingAfter.List())
            && r.closedElsewhere == 0 && r.ordersGone == 0
  {
    hide ConfirmedOf, ResidualOf, CancelledOf, Elements, Tickets;
  }

  lemma ElsewhereIs(v: Venue, j: Records)
    requires Distinct(Tickets(v.openBefore.List()))
    ensures var rows, openAfter := v.openBefore.List(), v.openAfter.List();
            Elements(Tickets(rows)) - ConfirmedOf(v, j, rows) - ResidualOf(v, j, rows) - Elements(openAfter)
            == set h | h in rows && !ClosedInFull(v, j, h) && !ClosedInPart(v, j, h) && h.ticket !in openAfter :: h.ticket
  {
    hide ClosedInFull, ClosedInPart, Tickets, ConfirmedOf, ResidualOf;
    FullAndPart(v, j);
    var rows, openAfter := v.openBefore.List(), v.openAfter.List();
    var left := set h | h in rows && !ClosedInFull(v, j, h) && !ClosedInPart(v, j, h) && h.ticket !in openAfter :: h.ticket;
    forall t ensures t in left <==>
        t in Elements(Tickets(rows)) - ConfirmedOf(v, j, rows) - ResidualOf(v, j, rows) - Elements(openAfter)
    {
      TicketOfRow(rows, t);
      forall g, h | g in rows && h in rows && g.ticket == h.ticket ensures g == h { RowsOfTickets(rows, g, h); }
    }
  }

  lemma GoneIs(v: Venue, j: Records)
    ensures var orders, workingAfter := v.workingBefore.List(), v.workingAfter.List();
            Elements(orders) - CancelledOf(v, orders) - Elements(workingAfter)
            == set o | o in orders && v.cancel(o) != Cancelled(true) && o !in workingAfter
  {
  }

  // ----- the accounting -----------------------------------------------------------------

  lemma {:induction false} TicketsAre(rows: seq<Held>)
    ensures |Tickets(rows)| == |rows|
    ensures forall i :: 0 <= i < |rows| ==> Tickets(rows)[i] == rows[i].ticket
  {
    if rows != [] {
      TicketsAre(rows[..|rows| - 1]);
    }
  }

  lemma {:induction false} DistinctSize(s: seq<nat>)
    requires Distinct(s)
    ensures |Elements(s)| == |s|
  {
    if s == [] {
      assert Elements(s) == {};
    } else {
      var n := |s| - 1;
      DistinctSize(s[..n]);
      assert Elements(s) == Elements(s[..n]) + {s[n]};
    }
  }

  lemma RowsOfTickets(rows: seq<Held>, g: Held, h: Held)
    requires Distinct(Tickets(rows)) && g in rows && h in rows
    ensures g.ticket in Tickets(rows) && h.ticket in Tickets(rows)
    ensures g.ticket == h.ticket ==> g == h
  {
    TicketsAre(rows);
    var i :| 0 <= i < |rows| && rows[i] == g;
    var j :| 0 <= j < |rows| && rows[j] == h;
    assert Tickets(rows)[i] == g.ticket && Tickets(rows)[j] == h.ticket;
  }

  /** The requested tickets fall into confirmed, short-filled and the rest. */
  lemma Parts(v: Venue, j: Records, rows: seq<Held>)
    requires Distinct(Tickets(rows))
    ensures |Elements(Tickets(rows))| == |rows|
    ensures ConfirmedOf(v, j, rows) <= Elements(Tickets(rows)) && ResidualOf(v, j, rows) <= Elements(Tickets(rows))
    ensures ConfirmedOf(v, j, rows) !! ResidualOf(v, j, rows)
  {
    hide Tickets;
    TicketsAre(rows);
    DistinctSize(Tickets(rows));
    var all := Elements(Tickets(rows));
    forall t | t in ConfirmedOf(v, j, rows) ensures t in all && t !in ResidualOf(v, j, rows) {
      var g :| g in rows && Covers(v, g) && g.ticket == t;
      RowsOfTickets(rows, g, g);
      if t in ResidualOf(v, j, rows) {
        var h :| h in rows && Short(v, h) && h.ticket == t;
        RowsOfTickets(rows, g, h);
      }
    }
    forall t | t in ResidualOf(v, j, rows) ensures t in all {
      var h :| h in rows && Short(v, h) && h.ticket == t;
      RowsOfTickets(rows, h, h);
    }
  }

  lemma SizeOfSplit(a: set<nat>, b: set<nat>)
    ensures |a| == |a - b| + |a * b|
  {
    assert a == (a - b) + a * b;
  }

  /** The denominator of a measured sweep: every requested ticket is confirmed,
      closed elsewhere or a survivor, and the overlap is exactly the confirmed ones
      that the venue still shows. */
  lemma MeasuredIdentity(v: Venue, j: Records)
    requires Measured(v) && Distinct(Tickets(v.openBefore.rows))
    ensures var r := ReportOf(v, j);
            var requested := Elements(Tickets(v.openBefore.rows));
            var stillOpen := ConfirmedOf(v, j, v.openBefore.rows) * Elements(v.openAfter.rows);
            r.confirmedClosed + r.closedElsewhere + |r.survivors * requested| == r.requested + |stillOpen|
  {
    hide ConfirmedOf, ResidualOf, Elements, Tickets;
    var rows := v.openBefore.rows;
    var all, open := Elements(Tickets(rows)), Elements(v.openAfter.rows);
    var c, d := ConfirmedOf(v, j, rows), ResidualOf(v, j, rows);
    Parts(v, j, rows);
    var s := (open + d) * all;
    var elsewhere := all - c - d - open;
    assert all == (c + s) + elsewhere;
    assert (c + s) !! elsewhere;
    assert |all| == |c + s| + |elsewhere|;
    assert c + s == (c - s) + s;
    SizeOfSplit(c, s);
    assert c * s == c * open;
  }

  /** The identity the report is documented with holds exactly when nothing confirmed
      is still open (measured) or nothing was confirmed (not measured). */
  lemma IdentityExactly(v: Venue, j: Records)
    requires Distinct(Tickets(v.openBefore.List()))
    ensures var r := ReportOf(v, j);
            var requested := Elements(Tickets(v.openBefore.List()));
            var confirmed := ConfirmedOf(v, j, v.openBefore.List());
            r.confirmedClosed + r.closedElsewhere + |r.survivors * requested| == r.requested
            <==> if Measured(v) then confirmed !! Elements(v.openAfter.rows) else confirmed == {}
  {
    var rows := v.openBefore.List();
    Parts(v, j, rows);
    if Measured(v) {
      MeasuredIdentity(v, j);
    } else {
      var all := Elements(Tickets(rows));
      assert (all + Elements(v.openAfter.List())) * all == all;
    }
  }

  /** Complete means measured and nothing left; the count clauses follow. */
  lemma CompleteExactly(v: Venue, j: Records)
    requires Distinct(Tickets(v.openBefore.List())) && Distinct(v.workingBefore.List())
    ensures var r := ReportOf(v, j);
            r.Complete() <==> r.measured && r.survivors == {} && r.orderSurvivors == {}
  {
    MeasuredIsReported(v, j);
    hide Tickets, Distinct, ReportOf;
    var r := ReportOf(v, j);
    if r.measured && r.survivors == {} && r.orderSurvivors == {} {
      NothingStillOpen(v, j);
      OrdersSettled(v, j);
    }
  }

  lemma MeasuredIsReported(v: Venue, j: Records)
    ensures ReportOf(v, j).measured <==> Measured(v)
  {
  }

  lemma OrdersSettled(v: Venue, j: Records)
    requires Measured(v) && ReportOf(v, j).orderSurvivors == {} && Distinct(v.workingBefore.rows)
    ensures ReportOf(v, j).ordersCancelled + ReportOf(v, j).ordersGone == ReportOf(v, j).ordersRequested
  {
    hide Tickets, ConfirmedOf, ResidualOf, CancelledOf, Elements, Distinct;
    var orders := v.workingBefore.rows;
    DistinctSize(orders);
    CancelledAreOrders(v, orders);
    OrdersAddUp(Elements(orders), CancelledOf(v, orders));
    assert Elements(v.workingAfter.rows) == {};
  }

  lemma CancelledAreOrders(v: Venue, orders: seq<nat>)
    ensures CancelledOf(v, orders) <= Elements(orders)
  {
  }

  lemma NothingStillOpen(v: Venue, j: Records)
    requires Measured(v) && ReportOf(v, j).survivors == {} && Distinct(Tickets(v.openBefore.rows))
    ensures ReportOf(v, j).confirmedClosed + ReportOf(v, j).closedElsewhere == ReportOf(v, j).requested
  {
    hide Tickets, ConfirmedOf, ResidualOf, Elements, Distinct;
    var open := Elements(v.openAfter.rows);
    assert open == {} by { assert open <= ReportOf(v, j).survivors; }
    IdentityExactly(v, j);
    assert {} * Elements(Tickets(v.openBefore.rows)) == {};
  }

  lemma OrdersAddUp(all: set<nat>, cancelled: set<nat>)
    requires cancelled <= all
    ensures |cancelled| + |all - cancelled - {}| == |all|
  {
    assert all == cancelled + (all - cancelled - {});
  }

  /** Each instrument can only add a survivor: a short fill or a ticket in the
      last read is always one, and an unmeasured sweep keeps every request. */
  lemma SurvivorsOnlyGrow(v: Venue, j: Records, t: nat)
    ensures var r := ReportOf(v, j);
            && (t in v.openAfter.List() ==> t in r.survivors)
            && (t in ResidualOf(v, j, v.openBefore.List()) ==> t in r.survivors)
            && (!Measured(v) && t in Tickets(v.openBefore.List()) ==> t in r.survivors && !r.Complete())
            && (!Measured(v) && t in v.workingBefore.List() ==> t in r.orderSurvivors)
            && (t in v.workingAfter.List() ==> t in r.orderSurvivors)
  {
    var rows := v.openBefore.List();
    TicketsAre(rows);
    if t in ResidualOf(v, j, rows) {
      var h :| h in rows && Short(v, h) && h.ticket == t;
      var i :| 0 <= i < |rows| && rows[i] == h;
      assert Tickets(rows)[i] == t;
    }
  }

  /** The rule that a short fill is always a survivor, exactly: it is one if and only if
      the record of its close was written, or the last read still shows it, or the sweep
      was not measured. */
  lemma ShortFillSurvivesExactly(v: Venue, j: Records, h: Held)
    requires Distinct(Tickets(v.openBefore.List())) && h in v.openBefore.List() && Short(v, h)
    ensures h.ticket in ReportOf(v, j).survivors <==>
              j.close(h.ticket) || h.ticket in v.openAfter.List() || !Measured(v)
  {
    hide Tickets;
    var rows := v.openBefore.List();
    RowsOfTickets(rows, h, h);
    if h.ticket in ResidualOf(v, j, rows) {
      var g :| g in rows && Short(v, g) && j.close(g.ticket) && g.ticket == h.ticket;
      RowsOfTickets(rows, g, h);
    }
  }
}
