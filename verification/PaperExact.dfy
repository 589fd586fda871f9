/** What the paper broker does, order by order and request by request, in the fields of
    the request, the book and the bar. */
module PaperExact {
  import opened Wrappers
  import opened Market
  import opened Paper
  import opened PaperRuns

  // ----- when a working order fills -----------------------------------------------------

  /** The price was reached from the order's own side: a buy limit and a sell stop wait for
      a fall to it, a sell limit and a buy stop for a rise. */
  lemma TriggersExactly(v: Venue, b: Book, o: Order, symbol: Option<string>, bar: Option<Bar>)
    ensures var tick := TickOf(v, b.bars, o.symbol);
            var falling := (o.kind == Limit) == (o.side == Buy);
            Triggers(v, b, o, symbol, bar) <==>
              && (symbol.None? || symbol.value == o.symbol)
              && (if bar.Some? then (if falling then bar.value.low <= o.price else bar.value.high >= o.price)
                  else if o.side == Buy then (if falling then tick.ask <= o.price else tick.ask >= o.price)
                  else (if falling then tick.bid <= o.price else tick.bid >= o.price))
  {
  }

  /** Later orders of the snapshot do not change whether this one filled. */
  lemma {:induction false} FilledSoFar(v: Venue, b: Book, todo: seq<Order>, symbol: Option<string>, bar: Option<Bar>, n: nat, t: nat)
    requires Snapshot(b, todo) && n <= |todo|
    requires forall i :: n <= i < |todo| ==> todo[i].ticket != t
    ensures t in Resolved(v, b, todo, symbol, bar).1 <==> t in Resolved(v, b, todo[..n], symbol, bar).1
    decreases |todo|
  {
    hide Triggers, Affordable, WithFill, FindOrder;
    if n < |todo| {
      var front := todo[..|todo| - 1];
      assert front[..n] == todo[..n];
      FilledSoFar(v, b, front, symbol, bar, n, t);
    } else {
      assert todo[..n] == todo;
    }
  }

  /** An order of the snapshot that was not reached yet is not among the filled ones. */
  lemma NotAheadOfTurn(v: Venue, b: Book, todo: seq<Order>, symbol: Option<string>, bar: Option<Bar>, i: nat)
    requires Snapshot(b, todo) && i < |todo|
    ensures todo[i].ticket !in Resolved(v, b, todo[..i], symbol, bar).1
  {
    hide FindOrder, Resolved, Moved;
    assert Snapshot(b, todo[..i]);
    ResolvedMoves(v, b, todo[..i], symbol, bar);
    assert !Among(todo[..i], todo[i].ticket);
    var (b1, filled) := Resolved(v, b, todo[..i], symbol, bar);
    NotYetMoved(b, b1, todo[..i], filled, todo[i]);
  }

  /** The margin an order needs, against what the book then has free. */
  lemma AffordableExactly(v: Venue, b: Book, o: Order)
    ensures var spec := v.spec(o.symbol);
            Affordable(v, b, o) <==>
              spec.contractSize * Lots(o.volume) * spec.Normalize(o.price) / (if v.leverage < 1 then 1.0 else v.leverage as real)
              <= b.balance + MarkedPnl(v, b.bars, b.positions) - UsedMargin(v, b.positions)
  {
    hide Lots, Round, MarkedPnl, UsedMargin;
  }

  /** An order fills in one pass over the working orders if and only if its symbol is the
      one asked for, its price was reached from its own side (by the bar's low or high, else
      by the ask of a buy and the bid of a sell), and its margin is free on the book that
      the orders before it left. */
  lemma FillsExactly(v: Venue, b: Book, symbol: Option<string>, bar: Option<Bar>, i: nat)
    requires Sound(b) && i < |b.orders|
    ensures var o := b.orders[i];
            var before := Resolved(v, b, b.orders[..i], symbol, bar).0;
            var tick := TickOf(v, b.bars, o.symbol);
            var spec := v.spec(o.symbol);
            var falling := (o.kind == Limit) == (o.side == Buy);
            o.ticket in Resolved(v, b, b.orders, symbol, bar).1 <==>
              && (symbol.None? || symbol.value == o.symbol)
              && (if bar.Some? then (if falling then bar.value.low <= o.price else bar.value.high >= o.price)
                  else if o.side == Buy then (if falling then tick.ask <= o.price else tick.ask >= o.price)
                  else (if falling then tick.bid <= o.price else tick.bid >= o.price))
              && spec.contractSize * Lots(o.volume) * spec.Normalize(o.price) / (if v.leverage < 1 then 1.0 else v.leverage as real)
                 <= before.balance + MarkedPnl(v, before.bars, before.positions) - UsedMargin(v, before.positions)
  {
    hide Sound, Triggers, Affordable, MarkedPnl, UsedMargin, Lots, Round, TickOf, WithFill, FindOrder, Moved;
    var o, todo := b.orders[i], b.orders;
    SoundOrders(b);
    var front := todo[..i];
    var before := Resolved(v, b, front, symbol, bar).0;
    assert Snapshot(b, front);
    ResolvedMoves(v, b, front, symbol, bar);
    MovedKeepsBars(b, before, front, Resolved(v, b, front, symbol, bar).1);
    TriggersExactly(v, before, o, symbol, bar);
    AffordableExactly(v, before, o);
    NotAheadOfTurn(v, b, todo, symbol, bar, i);
    assert todo[..i + 1][..i] == front && todo[..i + 1][i] == o;
    FilledSoFar(v, b, todo, symbol, bar, i + 1, o.ticket);
  }

  lemma MovedKeepsBars(b: Book, b': Book, todo: seq<Order>, filled: seq<nat>)
    requires Moved(b, b', todo, filled)
    ensures b'.bars == b.bars
  {
  }

  /** So a limit never fills at a price the bar did not reach. */
  lemma LimitNeedsItsPrice(v: Venue, b: Book, symbol: string, bar: Bar, i: nat)
    requires Sound(b) && i < |b.orders| && b.orders[i].kind == Limit
    requires b.orders[i].ticket in Resolved(v, b, b.orders, Some(symbol), Some(bar)).1
    ensures b.orders[i].symbol == symbol
    ensures if b.orders[i].side == Buy then bar.low <= b.orders[i].price else bar.high >= b.orders[i].price
  {
    hide Sound, Resolved, MarkedPnl, UsedMargin, Lots, Round, TickOf;
    FillsExactly(v, b, Some(symbol), Some(bar), i);
  }

  // ----- what a fill opens -----------------------------------------------------------------

  lemma {:induction false} FindInAppended(ps: seq<Position>, p: Position, t: nat)
    ensures Find(ps + [p], t) == if Find(ps, t).Some? then Find(ps, t) else if p.ticket == t then Some(p) else None
  {
    if ps == [] {
      assert [] + [p] == [p] && [p][1..] == [];
    } else if ps[0].ticket != t {
      FindInAppended(ps[1..], p, t);
      assert (ps + [p])[1..] == ps[1..] + [p];
    }
  }

  /** No position holds the ticket. */
  lemma {:induction false} NoneHolds(ps: seq<Position>, t: nat)
    ensures Find(ps, t).None? <==> t !in Tickets(ps)
  {
    if ps != [] { NoneHolds(ps[1..], t); }
  }

  lemma {:induction false} NoOrderHolds(os: seq<Order>, t: nat)
    ensures FindOrder(os, t).None? <==> t !in OrderTickets(os)
  {
    if os != [] { NoOrderHolds(os[1..], t); }
  }

  /** The position of an order: its ticket, symbol, side, volume and magic, its own price as
      the entry, and its levels, an absent one staying absent. */
  function PositionOf(o: Order, spec: Spec): Position {
    Position(o.ticket, o.symbol, o.side, o.volume, Round(o.price, spec.digits),
             if o.sl == 0.0 then 0.0 else Round(o.sl, spec.digits), if o.tp == 0.0 then 0.0 else Round(o.tp, spec.digits),
             o.magic)
  }

  lemma {:induction false} FilledIsHeld(v: Venue, b: Book, todo: seq<Order>, symbol: Option<string>, bar: Option<Bar>, i: nat)
    requires Snapshot(b, todo) && i < |todo| && todo[i].ticket in Resolved(v, b, todo, symbol, bar).1
    requires forall j :: 0 <= j < |todo| ==> Find(b.positions, todo[j].ticket).None?
    ensures Find(Resolved(v, b, todo, symbol, bar).0.positions, todo[i].ticket) == Some(PositionOf(todo[i], v.spec(todo[i].symbol)))
    decreases |todo|
  {
    hide Triggers, Affordable, FindOrder, Moved, Round, Find;
    var n := |todo| - 1;
    var front, o := todo[..n], todo[n];
    assert front + [o] == todo;
    SnapshotParts(b, front, o);
    var (b1, filled) := Resolved(v, b, front, symbol, bar);
    ResolvedMoves(v, b, front, symbol, bar);
    NotYetMoved(b, b1, front, filled, o);
    NewHolds(v, b, b1, front, filled, o);
    if i < n {
      assert todo[i].ticket != o.ticket && front[i] == todo[i];
      FilledIsHeld(v, b, front, symbol, bar, i);
      FindInAppended(b1.positions, Filled(v, o), todo[i].ticket);
    }
  }

  lemma NewHolds(v: Venue, b: Book, b1: Book, front: seq<Order>, filled: seq<nat>, o: Order)
    requires Moved(b, b1, front, filled) && o.ticket !in filled && Find(b.positions, o.ticket).None?
    ensures Find(b1.positions + [Filled(v, o)], o.ticket) == Some(PositionOf(o, v.spec(o.symbol)))
  {
    hide Round;
    NoneHolds(b.positions, o.ticket);
    NoneHolds(b1.positions, o.ticket);
    FindInAppended(b1.positions, Filled(v, o), o.ticket);
  }

  /** A filled order is held as its position and is no order any more. */
  lemma FillOpens(v: Venue, b: Book, symbol: Option<string>, bar: Option<Bar>, i: nat)
    requires Sound(b) && i < |b.orders| && b.orders[i].ticket in Resolved(v, b, b.orders, symbol, bar).1
    ensures var o, b' := b.orders[i], Resolved(v, b, b.orders, symbol, bar).0;
            && Find(b'.positions, o.ticket) ==
               Some(Position(o.ticket, o.symbol, o.side, o.volume, Round(o.price, v.spec(o.symbol).digits),
                             if o.sl == 0.0 then 0.0 else Round(o.sl, v.spec(o.symbol).digits),
                             if o.tp == 0.0 then 0.0 else Round(o.tp, v.spec(o.symbol).digits), o.magic))
            && FindOrder(b'.orders, o.ticket) == None
  {
    hide Triggers, Affordable, Round, Resolved, Find, FindOrder;
    var o, b' := b.orders[i], Resolved(v, b, b.orders, symbol, bar).0;
    var filled := Resolved(v, b, b.orders, symbol, bar).1;
    SoundOrders(b);
    forall j | 0 <= j < |b.orders| ensures Find(b.positions, b.orders[j].ticket).None? {
      OrderIsCounted(b.orders, j);
      assert AllTickets(b)[b.orders[j].ticket] <= 1;
      NoneHolds(b.positions, b.orders[j].ticket);
    }
    FilledIsHeld(v, b, b.orders, symbol, bar, i);
    ResolveKeepsTickets(v, b, symbol, bar);
    assert o.ticket in multiset(filled);
    OrderIsCounted(b.orders, i);
    assert AllTickets(b)[o.ticket] <= 1;
    NoOrderHolds(b'.orders, o.ticket);
  }

  // ----- when a position leaves on a bar, and at which price --------------------------------

  predicate StopTouched(p: Position, bar: Bar) {
    p.sl > 0.0 && (if p.side == Buy then bar.low <= p.sl else bar.high >= p.sl)
  }

  predicate TargetTouched(p: Position, bar: Bar) {
    p.tp > 0.0 && (if p.side == Buy then bar.high >= p.tp else bar.low <= p.tp)
  }

  lemma HitLevelExactly(p: Position, bar: Bar)
    ensures HitLevel(p, bar) ==
            if StopTouched(p, bar) then Some(p.sl) else if TargetTouched(p, bar) then Some(p.tp) else None
  {
  }

  lemma {:induction false} ExitSlices(v: Venue, b: Book, todo: seq<Position>, symbol: string, bar: Bar, i: nat)
    requires i < |todo| && todo[i].symbol == symbol && (StopTouched(todo[i], bar) || TargetTouched(todo[i], bar))
    ensures |b.slices| <= |Exited(v, b, todo, symbol, bar).0.slices|
    ensures Slice(todo[i], todo[i].volume, if StopTouched(todo[i], bar) then todo[i].sl else todo[i].tp)
            in Exited(v, b, todo, symbol, bar).0.slices[|b.slices|..]
  {
    hide HitLevel, StopTouched, TargetTouched, Pnl, Reduced;
    var n := |todo| - 1;
    var front, p := todo[..n], todo[n];
    HitLevelExactly(p, bar);
    var b1 := Exited(v, b, front, symbol, bar).0;
    ExitGrows(v, b, front, symbol, bar);
    if i < n {
      assert front[i] == todo[i];
      ExitSlices(v, b, front, symbol, bar, i);
      MoreSlices(b1.slices, |b.slices|, Slice(p, p.volume, if HitLevel(p, bar).Some? then HitLevel(p, bar).value else 0.0));
    } else {
      var s := Slice(p, p.volume, HitLevel(p, bar).value);
      assert (b1.slices + [s])[|b1.slices|] == s;
      assert (b1.slices + [s])[|b.slices|..][|b1.slices| - |b.slices|] == s;
    }
  }

  lemma MoreSlices(slices: seq<Slice>, n: nat, s: Slice)
    requires n <= |slices|
    ensures (slices + [s])[n..] == slices[n..] + [s]
  {
  }

  lemma {:induction false} ExitGrows(v: Venue, b: Book, todo: seq<Position>, symbol: string, bar: Bar)
    ensures var (b', closed) := Exited(v, b, todo, symbol, bar);
            |b'.slices| == |b.slices| + |closed| && b'.slices[..|b.slices|] == b.slices
  {
    hide HitLevel, Pnl, Reduced;
    if todo != [] {
      ExitGrows(v, b, todo[..|todo| - 1], symbol, bar);
    }
  }

  /** A position of a sound book leaves on a bar of its symbol if and only if the bar
      reached its stop (from above for a buy) or its target, whole, and at the stop if that
      was touched; nothing else is realised. */
  lemma ExitsExactly(v: Venue, b: Book, symbol: string, bar: Bar, i: nat)
    requires Sound(b) && i < |b.positions|
    ensures var p := b.positions[i];
            var (b', closed) := Exited(v, b, b.positions, symbol, bar);
            var stop := p.sl > 0.0 && (if p.side == Buy then bar.low <= p.sl else bar.high >= p.sl);
            var target := p.tp > 0.0 && (if p.side == Buy then bar.high >= p.tp else bar.low <= p.tp);
            && |b'.slices| == |b.slices| + |closed|
            && (p.ticket in closed <==> p.symbol == symbol && (stop || target))
            && (p.ticket in closed ==> Slice(p, p.volume, if stop then p.sl else p.tp) in b'.slices[|b.slices|..])
            && (p.ticket !in closed ==> Find(b'.positions, p.ticket) == Some(p))
  {
    hide Exited, HitLevel, Find, Realised, Tickets;
    var p := b.positions[i];
    SoundPositions(b);
    HitLevelExactly(p, bar);
    ExitedExactly(v, b, b.positions, symbol, bar, b.balance - Realised(v, b.slices));
    ExitGrows(v, b, b.positions, symbol, bar);
    if p.symbol == symbol && (StopTouched(p, bar) || TargetTouched(p, bar)) {
      ExitSlices(v, b, b.positions, symbol, bar, i);
    }
  }

  /** The bar is appended to its symbol's series before anything else happens. */
  lemma BarIsAppended(v: Venue, b: Book, symbol: string, bar: Bar)
    requires Sound(b)
    ensures var b' := OnBar(v, b, symbol, bar).0;
            && symbol in b'.bars && b'.bars[symbol] == (if symbol in b.bars then b.bars[symbol] else []) + [bar]
            && (forall s :: s != symbol ==> (s in b'.bars <==> s in b.bars))
            && (forall s :: s != symbol && s in b.bars ==> b'.bars[s] == b.bars[s])
            && TickOf(v, b'.bars, symbol).bid + TickOf(v, b'.bars, symbol).ask == 2.0 * bar.close
            && TickOf(v, b'.bars, symbol).ask - TickOf(v, b'.bars, symbol).bid == v.spread(symbol) * v.spec(symbol).point
  {
    hide Exited, Resolved, Tickets, OrderTickets, Realised;
    var b1 := WithBar(b, symbol, bar);
    assert AllTickets(b1) == AllTickets(b) && Sound(b1);
    ResolveKeepsTickets(v, b1, Some(symbol), Some(bar));
    var b2 := Resolved(v, b1, b1.orders, Some(symbol), Some(bar)).0;
    SoundPositions(b2);
    ExitedExactly(v, b2, b2.positions, symbol, bar, b2.balance - Realised(v, b2.slices));
  }

  // ----- what a request does -----------------------------------------------------------------

  /** A tick is the last close, or 1, with half the spread on either side. */
  lemma TickIsAroundClose(v: Venue, bars: map<string, seq<Bar>>, symbol: string)
    ensures var t := TickOf(v, bars, symbol);
            && t.bid + t.ask == 2.0 * (if symbol in bars && bars[symbol] != [] then bars[symbol][|bars[symbol]| - 1].close else 1.0)
            && t.ask - t.bid == v.spread(symbol) * v.spec(symbol).point
  {
  }

  /** An opening deal: the first test that fails names the code, and an accepted one opens
      exactly what was asked for, a buy at the ask and a sell at the bid, under the next
      ticket. */
  lemma OpensExactly(v: Venue, b: Book, r: Request)
    requires v.tradeAllowed && r.Deal? && r.position == 0
    ensures var spec, tick, lots := v.spec(r.symbol), TickOf(v, b.bars, r.symbol), r.volume as real / 100000000.0;
            var price := if r.side == Buy then tick.ask else tick.bid;
            var margin := spec.contractSize * lots * price / (if v.leverage < 1 then 1.0 else v.leverage as real);
            var free := b.balance + MarkedPnl(v, b.bars, b.positions) - UsedMargin(v, b.positions);
            var code, b' := Code(v, b, r), Committed(v, b, r);
            && code == (if lots < spec.volumeMin || lots > spec.volumeMax then 10014
                        else if r.sl <= 0.0 || Abs(price - r.sl) < spec.MinStopDistance() - spec.point / 2.0 then 10016
                        else if margin > free then 10019
                        else 10009)
            && (code != 10009 ==> b' == b)
            && (code == 10009 ==>
                  && b'.positions == b.positions
                       + [Position(b.next, r.symbol, r.side, r.volume, Round(price, spec.digits), Round(r.sl, spec.digits),
                                   if r.tp == 0.0 then 0.0 else Round(r.tp, spec.digits), r.magic)]
                  && b' == b.(next := b.next + 1, positions := b'.positions))
  {
    hide TickOf, Round, MarkedPnl, UsedMargin;
  }

  lemma {:induction false} FindReplaced(ps: seq<Position>, p: Position)
    requires Find(ps, p.ticket).Some?
    ensures Find(Replaced(ps, p), p.ticket) == Some(p)
  {
    if ps[0].ticket != p.ticket { FindReplaced(ps[1..], p); }
  }

  lemma {:induction false} FindOrderReplaced(os: seq<Order>, o: Order, t: nat)
    requires FindOrder(os, o.ticket).Some?
    ensures FindOrder(ReplacedOrder(os, o), t) == if t == o.ticket then Some(o) else FindOrder(os, t)
  {
    if os[0].ticket != o.ticket { FindOrderReplaced(os[1..], o, t); }
  }

  lemma {:induction false} FindOrderGives(os: seq<Order>, t: nat)
    requires FindOrder(os, t).Some?
    ensures FindOrder(os, t).value.ticket == t
  {
    if os[0].ticket != t { FindOrderGives(os[1..], t); }
  }

  /** Units off a position: what is left under its ticket, and under any other. */
  lemma FindReduced(ps: seq<Position>, p: Position, volume: int, t: nat)
    requires Find(ps, p.ticket) == Some(p) && Tickets(ps)[p.ticket] <= 1
    ensures Find(Reduced(ps, p, volume), t) ==
            if t != p.ticket then Find(ps, t)
            else if p.volume == volume then None else Some(p.(volume := p.volume - volume))
  {
    hide Find, Dropped, Replaced, Tickets;
    if t != p.ticket {
      FindAfterReduce(ps, p, volume, t);
    } else if p.volume == volume {
      TicketsDropped(ps, p.ticket);
      NoneHolds(Dropped(ps, p.ticket), t);
    } else {
      FindReplaced(ps, p.(volume := p.volume - volume));
    }
  }

  lemma OnceHeld(b: Book, t: nat)
    requires Sound(b)
    ensures Tickets(b.positions)[t] <= 1
  {
    assert AllTickets(b)[t] <= 1;
  }

  /** A close: the position loses exactly these units, the last of them with it, at the bid
      for a buy and the ask for a sell, and nothing else moves. */
  lemma ClosesExactly(v: Venue, b: Book, r: Request, t: nat)
    requires v.tradeAllowed && r.Deal? && r.position != 0 && Sound(b)
    ensures var held, code, b' := Find(b.positions, r.position), Code(v, b, r), Committed(v, b, r);
            && code == (if held.None? then 10036 else if r.volume > held.value.volume then 10014 else 10009)
            && (code != 10009 ==> b' == b)
            && (code == 10009 ==>
                  var p, tick := held.value, TickOf(v, b.bars, held.value.symbol);
                  var price := if p.side == Buy then tick.bid else tick.ask;
                  && Find(b'.positions, t) == (if t != r.position then Find(b.positions, t)
                                               else if p.volume == r.volume then None
                                               else Some(p.(volume := p.volume - r.volume)))
                  && b'.balance == b.balance + Pnl(p, price, v.spec(p.symbol), r.volume)
                  && b'.slices == b.slices + [Slice(p, r.volume, price)]
                  && b'.orders == b.orders && b'.next == b.next && b'.bars == b.bars)
  {
    hide Find, Pnl, TickOf, Reduced, Tickets, Sound;
    if Find(b.positions, r.position).Some? {
      FindGives(b.positions, r.position);
      OnceHeld(b, r.position);
      FindReduced(b.positions, Find(b.positions, r.position).value, r.volume, t);
    }
  }

  /** New levels: exactly those of the request, rounded, an absent one kept, on this position
      only. */
  lemma LevelsExactly(v: Venue, b: Book, r: Request, t: nat)
    requires v.tradeAllowed && r.Sltp?
    ensures var held, code, b' := Find(b.positions, r.position), Code(v, b, r), Committed(v, b, r);
            && code == (if held.None? then 10036 else 10009)
            && b' == b.(positions := b'.positions)
            && Find(b'.positions, t) ==
               if held.None? || t != r.position then Find(b.positions, t)
               else
                 var p, digits := held.value, v.spec(held.value.symbol).digits;
                 var tp := if r.newTp.Some? then r.newTp.value else p.tp;
                 Some(p.(sl := Round(if r.newSl.Some? then r.newSl.value else p.sl, digits),
                         tp := if tp == 0.0 then 0.0 else Round(tp, digits)))
  {
    hide Find, Replaced, Round;
    if Find(b.positions, r.position).Some? {
      FindGives(b.positions, r.position);
      var q := SltpTarget(v, b, r);
      if t == r.position { FindReplaced(b.positions, q); } else { FindAfterReplace(b.positions, q, t); }
    }
  }

  /** An amended order: exactly what the request gives, rounded; a price of zero reads as
      absent, and only a price that is then not positive is refused. */
  lemma AmendsExactly(v: Venue, b: Book, r: Request, t: nat)
    requires v.tradeAllowed && r.Amend?
    ensures var held, code, b' := FindOrder(b.orders, r.order), Code(v, b, r), Committed(v, b, r);
            var price := if r.newPrice.Some? && r.newPrice.value != 0.0 then r.newPrice.value
                         else if held.Some? then held.value.price else 0.0;
            && code == (if held.None? then 10035 else if price <= 0.0 then 10015 else 10009)
            && b' == b.(orders := b'.orders)
            && FindOrder(b'.orders, t) ==
               if code != 10009 || t != r.order then FindOrder(b.orders, t)
               else
                 var o, digits := held.value, v.spec(held.value.symbol).digits;
                 var sl := if r.newSl.Some? then r.newSl.value else o.sl;
                 var tp := if r.newTp.Some? then r.newTp.value else o.tp;
                 Some(o.(price := Round(price, digits), sl := if sl == 0.0 then 0.0 else Round(sl, digits),
                         tp := if tp == 0.0 then 0.0 else Round(tp, digits)))
  {
    hide FindOrder, ReplacedOrder, Round;
    if FindOrder(b.orders, r.order).Some? {
      FindOrderGives(b.orders, r.order);
      FindOrderReplaced(b.orders, AmendTarget(v, b, r), t);
    }
  }

  /** A working order: exactly the one asked for, under the next ticket. */
  lemma PlacesExactly(v: Venue, b: Book, r: Request)
    requires v.tradeAllowed && r.Place?
    ensures var spec, lots, code, b' := v.spec(r.symbol), r.volume as real / 100000000.0, Code(v, b, r), Committed(v, b, r);
            && code == (if r.kind.None? then 10013
                        else if lots < spec.volumeMin || lots > spec.volumeMax then 10014
                        else if r.price <= 0.0 then 10015 else 10008)
            && (code != 10008 ==> b' == b)
            && (code == 10008 ==>
                  && b'.orders == b.orders
                       + [Order(b.next, r.symbol, r.side, r.kind.value, r.volume, Round(r.price, spec.digits),
                                if r.sl == 0.0 then 0.0 else Round(r.sl, spec.digits),
                                if r.tp == 0.0 then 0.0 else Round(r.tp, spec.digits), r.magic)]
                  && b' == b.(next := b.next + 1, orders := b'.orders))
  {
    hide Round;
  }

  /** A removed order is gone, and only that. */
  lemma RemovesExactly(v: Venue, b: Book, r: Request, t: nat)
    requires v.tradeAllowed && r.Remove? && Sound(b)
    ensures var held, code, b' := FindOrder(b.orders, r.order), Code(v, b, r), Committed(v, b, r);
            && code == (if held.None? then 10036 else 10009)
            && b' == b.(orders := b'.orders)
            && FindOrder(b'.orders, t) == if t == r.order then None else FindOrder(b.orders, t)
  {
    hide FindOrder, DroppedOrder, OrderTickets, Tickets;
    if FindOrder(b.orders, r.order).Some? {
      if t == r.order {
        OrderTicketsDropped(b.orders, t);
        assert AllTickets(b)[t] <= 1;
        NoOrderHolds(DroppedOrder(b.orders, t), t);
      } else {
        FindOrderAfterDrop(b.orders, r.order, t);
      }
    }
  }

  /** Two opposite positions against each other: both lose the smaller volume, each at its
      own mark, unless that would leave one of them below the minimum. */
  lemma CloseByExactly(v: Venue, b: Book, r: Request, t: nat)
    requires v.tradeAllowed && r.CloseBy? && Sound(b)
    ensures var fa, fc, code, b' := Find(b.positions, r.position), Find(b.positions, r.other), Code(v, b, r), Committed(v, b, r);
            && (fa.None? || fc.None? <==> code == 10036)
            && (code != 10009 ==> b' == b)
            && (fa.Some? && fc.Some? ==>
                  var a, c := fa.value, fc.value;
                  var vol := if a.volume < c.volume then a.volume else c.volume;
                  var least := v.spec(a.symbol).volumeMin - 0.000000000001;
                  && (code == 10013 <==> r.position == r.other || a.symbol != c.symbol || a.side == c.side)
                  && (code == 10009 <==>
                        && r.position != r.other && a.symbol == c.symbol && a.side != c.side
                        && (a.volume > vol ==> (a.volume - vol) as real / 100000000.0 >= least)
                        && (c.volume > vol ==> (c.volume - vol) as real / 100000000.0 >= least))
                  && (code == 10009 ==>
                        Find(b'.positions, t) ==
                        if t == r.position then (if a.volume == vol then None else Some(a.(volume := a.volume - vol)))
                        else if t == r.other then (if c.volume == vol then None else Some(c.(volume := c.volume - vol)))
                        else Find(b.positions, t)))
  {
    hide Find, Pnl, TickOf, Reduced, Tickets, Sound;
    var fa, fc := Find(b.positions, r.position), Find(b.positions, r.other);
    if fa.Some? && fc.Some? {
      var a, c := fa.value, fc.value;
      FindGives(b.positions, r.position);
      FindGives(b.positions, r.other);
      if r.position != r.other {
        OnceHeld(b, r.position);
        OnceHeld(b, r.other);
        CloseByLeaves(b.positions, a, c, t);
      }
    }
  }

  lemma CloseByLeaves(ps: seq<Position>, a: Position, c: Position, t: nat)
    requires a.ticket != c.ticket && Find(ps, a.ticket) == Some(a) && Find(ps, c.ticket) == Some(c)
    requires Tickets(ps)[a.ticket] <= 1 && Tickets(ps)[c.ticket] <= 1
    ensures var vol := CloseByVolume(a, c);
            Find(Reduced(Reduced(ps, a, vol), c, vol), t) ==
            if t == a.ticket then (if a.volume == vol then None else Some(a.(volume := a.volume - vol)))
            else if t == c.ticket then (if c.volume == vol then None else Some(c.(volume := c.volume - vol)))
            else Find(ps, t)
  {
    hide Find, Reduced, Tickets;
    var vol := CloseByVolume(a, c);
    FindReduced(ps, a, vol, t);
    FindReduced(ps, a, vol, c.ticket);
    ReducedTickets(ps, a, vol);
    FindReduced(Reduced(ps, a, vol), c, vol, t);
  }

  /** Nothing trades while trading is off, and an unknown action is refused. */
  lemma OthersRefused(v: Venue, b: Book, r: Request)
    requires !v.tradeAllowed || r.OtherAction?
    ensures Code(v, b, r) == (if !v.tradeAllowed then 10017 else 10013) && Committed(v, b, r) == b
  {
  }
}
