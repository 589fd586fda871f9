/** What the paper book keeps over every run: tickets, the balance identity, and what
    fills and bar exits move. */
module PaperRuns {
  import opened Wrappers
  import opened Market
  import opened Paper

  // ----- tickets under the elementary changes -----------------------------------------

  lemma {:induction false} TicketsAppend(ps: seq<Position>, p: Position)
    ensures Tickets(ps + [p]) == Tickets(ps) + multiset{p.ticket}
  {
    if ps == [] {
      assert [] + [p] == [p];
    } else {
      TicketsAppend(ps[1..], p);
      assert (ps + [p])[1..] == ps[1..] + [p];
    }
  }

  lemma {:induction false} OrderTicketsAppend(os: seq<Order>, o: Order)
    ensures OrderTickets(os + [o]) == OrderTickets(os) + multiset{o.ticket}
  {
    if os == [] {
      assert [] + [o] == [o];
    } else {
      OrderTicketsAppend(os[1..], o);
      assert (os + [o])[1..] == os[1..] + [o];
    }
  }

  lemma OneLess(first: nat, rest: multiset<nat>, t: nat)
    requires t in rest
    ensures t in multiset{first} + rest
    ensures (multiset{first} + rest) - multiset{t} == multiset{first} + (rest - multiset{t})
  {
  }

  lemma {:induction false} TicketsDropped(ps: seq<Position>, t: nat)
    requires Find(ps, t).Some?
    ensures t in Tickets(ps) && Tickets(Dropped(ps, t)) == Tickets(ps) - multiset{t}
  {
    if ps[0].ticket != t {
      TicketsDropped(ps[1..], t);
      assert ([ps[0]] + Dropped(ps[1..], t))[1..] == Dropped(ps[1..], t);
      OneLess(ps[0].ticket, Tickets(ps[1..]), t);
    }
  }

  lemma {:induction false} OrderTicketsDropped(os: seq<Order>, t: nat)
    requires FindOrder(os, t).Some?
    ensures t in OrderTickets(os) && OrderTickets(DroppedOrder(os, t)) == OrderTickets(os) - multiset{t}
  {
    if os[0].ticket != t {
      OrderTicketsDropped(os[1..], t);
      assert ([os[0]] + DroppedOrder(os[1..], t))[1..] == DroppedOrder(os[1..], t);
      OneLess(os[0].ticket, OrderTickets(os[1..]), t);
    }
  }

  lemma {:induction false} TicketsReplaced(ps: seq<Position>, p: Position)
    ensures Tickets(Replaced(ps, p)) == Tickets(ps)
  {
    if ps != [] {
      if ps[0].ticket == p.ticket {
        assert ([p] + ps[1..])[1..] == ps[1..];
      } else {
        TicketsReplaced(ps[1..], p);
        assert ([ps[0]] + Replaced(ps[1..], p))[1..] == Replaced(ps[1..], p);
      }
    }
  }

  lemma {:induction false} OrderTicketsReplaced(os: seq<Order>, o: Order)
    ensures OrderTickets(ReplacedOrder(os, o)) == OrderTickets(os)
  {
    if os != [] {
      if os[0].ticket == o.ticket {
        assert ([o] + os[1..])[1..] == os[1..];
      } else {
        OrderTicketsReplaced(os[1..], o);
        assert ([os[0]] + ReplacedOrder(os[1..], o))[1..] == ReplacedOrder(os[1..], o);
      }
    }
  }

  /** A position loses units and keeps its ticket, or leaves with it. */
  lemma ReducedTickets(ps: seq<Position>, p: Position, volume: int)
    requires Find(ps, p.ticket) == Some(p)
    ensures p.ticket in Tickets(ps)
    ensures Tickets(Reduced(ps, p, volume)) == Tickets(ps) - (if p.volume == volume then multiset{p.ticket} else multiset{})
  {
    hide Find, Tickets, Dropped, Replaced;
    TicketsDropped(ps, p.ticket);
    if p.volume != volume { TicketsReplaced(ps, p.(volume := p.volume - volume)); }
  }

  // ----- one request -------------------------------------------------------------------

  predicate Opens(v: Venue, b: Book, r: Request) {
    Code(v, b, r) in {DONE, PLACED} && ((r.Deal? && r.position == 0) || r.Place?)
  }

  lemma OpensTickets(v: Venue, b: Book, r: Request)
    requires Opens(v, b, r)
    ensures Committed(v, b, r).next == b.next + 1
    ensures AllTickets(Committed(v, b, r)) == AllTickets(b) + multiset{b.next}
  {
    hide OpenCode, Pnl, TickOf, MarginOf;
    var b' := Committed(v, b, r);
    if r.Deal? {
      TicketsAppend(b.positions, b'.positions[|b.positions|]);
    } else {
      OrderTicketsAppend(b.orders, b'.orders[|b.orders|]);
    }
  }

  lemma ClosesTickets(v: Venue, b: Book, r: Request)
    requires (r.Deal? && r.position != 0) || r.CloseBy?
    ensures Committed(v, b, r).next == b.next && AllTickets(Committed(v, b, r)) <= AllTickets(b)
  {
    hide Pnl, TickOf;
    if Code(v, b, r) in {DONE, PLACED} {
      FindGives(b.positions, r.position);
      if r.Deal? {
        ReducedTickets(b.positions, Find(b.positions, r.position).value, r.volume);
      } else {
        FindGives(b.positions, r.other);
        ClosedByTickets(v, b, Find(b.positions, r.position).value, Find(b.positions, r.other).value);
      }
    }
  }

  lemma OthersTickets(v: Venue, b: Book, r: Request)
    requires r.Sltp? || r.Amend? || r.Remove? || r.OtherAction?
    ensures Committed(v, b, r).next == b.next && AllTickets(Committed(v, b, r)) <= AllTickets(b)
  {
    if Code(v, b, r) in {DONE, PLACED} {
      match r {
        case Sltp(position, _, _) =>
          FindGives(b.positions, position);
          TicketsReplaced(b.positions, SltpTarget(v, b, r));
        case Amend(order, _, _, _) => OrderTicketsReplaced(b.orders, AmendTarget(v, b, r));
        case Remove(order) => OrderTicketsDropped(b.orders, order);
        case OtherAction =>
      }
    }
  }

  /** What a committed request does to the tickets: an open or a placed order uses up
      the next one, and nothing else adds any. */
  lemma CommittedTickets(v: Venue, b: Book, r: Request)
    ensures var b' := Committed(v, b, r);
            if Opens(v, b, r) then b'.next == b.next + 1 && AllTickets(b') == AllTickets(b) + multiset{b.next}
            else b'.next == b.next && AllTickets(b') <= AllTickets(b)
  {
    hide Code, AllTickets;
    if Opens(v, b, r) {
      OpensTickets(v, b, r);
    } else if (r.Deal? && r.position != 0) || r.CloseBy? {
      ClosesTickets(v, b, r);
    } else if r.Deal? || r.Place? {
      assert Committed(v, b, r) == b;
    } else {
      OthersTickets(v, b, r);
    }
  }

  function SltpTarget(v: Venue, b: Book, r: Request): Position
    requires r.Sltp? && Find(b.positions, r.position).Some?
  {
    var p := Find(b.positions, r.position).value;
    p.(sl := v.spec(p.symbol).Normalize(OrKeep(r.newSl, p.sl)), tp := RoundedOrZero(v.spec(p.symbol), OrKeep(r.newTp, p.tp)))
  }

  function AmendTarget(v: Venue, b: Book, r: Request): Order
    requires r.Amend? && FindOrder(b.orders, r.order).Some?
  {
    var o := FindOrder(b.orders, r.order).value;
    var spec := v.spec(o.symbol);
    o.(price := spec.Normalize(AmendedPrice(r.newPrice, o.price)), sl := RoundedOrZero(spec, OrKeep(r.newSl, o.sl)),
       tp := RoundedOrZero(spec, OrKeep(r.newTp, o.tp)))
  }

  lemma ClosedByTickets(v: Venue, b: Book, a: Position, c: Position)
    requires a.ticket != c.ticket && Find(b.positions, a.ticket) == Some(a) && Find(b.positions, c.ticket) == Some(c)
    ensures Tickets(ClosedBy(v, b, a, c).positions) <= Tickets(b.positions)
    ensures ClosedBy(v, b, a, c).orders == b.orders && ClosedBy(v, b, a, c).next == b.next
  {
    hide Find, Tickets, Reduced, Pnl, Mark, CloseByVolume;
    var vol := CloseByVolume(a, c);
    ReducedTickets(b.positions, a, vol);
    FindAfterReduce(b.positions, a, vol, c.ticket);
    ReducedTickets(Reduced(b.positions, a, vol), c, vol);
  }

  lemma SoundFromTickets(b: Book, b': Book)
    requires Sound(b) && b'.next >= b.next && AllTickets(b') <= AllTickets(b)
    ensures Sound(b')
  {
    forall t ensures AllTickets(b')[t] <= 1 && (t in AllTickets(b') ==> 0 < t < b'.next) {
      assert AllTickets(b')[t] <= AllTickets(b)[t];
    }
  }

  lemma CommittedSound(v: Venue, b: Book, r: Request)
    requires Sound(b)
    ensures Sound(Committed(v, b, r))
  {
    var b' := Committed(v, b, r);
    CommittedTickets(v, b, r);
    if b'.next == b.next {
      SoundFromTickets(b, b');
    } else {
      forall t ensures AllTickets(b')[t] <= 1 && (t in AllTickets(b') ==> 0 < t < b'.next) {
        assert AllTickets(b)[t] <= 1 && (t in AllTickets(b) ==> 0 < t < b.next);
      }
    }
  }

  lemma SliceBalances(v: Venue, b: Book, p: Position, volume: int, price: real, initial: real)
    requires Balanced(v, b, initial)
    ensures Balanced(v, CloseSlice(v, b, p, volume, price), initial)
  {
    assert (b.slices + [Slice(p, volume, price)])[..|b.slices|] == b.slices;
  }

  lemma CommittedBalanced(v: Venue, b: Book, r: Request, initial: real)
    requires Balanced(v, b, initial)
    ensures Balanced(v, Committed(v, b, r), initial)
  {
    if Code(v, b, r) in {DONE, PLACED} {
      if r.Deal? && r.position != 0 {
        var p := Find(b.positions, r.position).value;
        SliceBalances(v, b, p, r.volume, Mark(v, b.bars, p), initial);
      } else if r.CloseBy? {
        var a, c := Find(b.positions, r.position).value, Find(b.positions, r.other).value;
        var vol := CloseByVolume(a, c);
        SliceBalances(v, b, a, vol, Mark(v, b.bars, a), initial);
        SliceBalances(v, CloseSlice(v, b, a, vol, Mark(v, b.bars, a)), c, vol, Mark(v, b.bars, c), initial);
      }
    }
  }

  // ----- pending fills --------------------------------------------------------------------

  /** The orders of the snapshot are on the book, each with its own ticket. */
  ghost predicate Snapshot(b: Book, todo: seq<Order>) {
    && (forall i :: 0 <= i < |todo| ==> FindOrder(b.orders, todo[i].ticket) == Some(todo[i]))
    && (forall i, j :: 0 <= i < j < |todo| ==> todo[i].ticket != todo[j].ticket)
  }

  lemma {:induction false} FindOrderAfterDrop(os: seq<Order>, t: nat, other: nat)
    requires other != t
    ensures FindOrder(DroppedOrder(os, t), other) == FindOrder(os, other)
  {
    if os != [] && os[0].ticket != t {
      FindOrderAfterDrop(os[1..], t, other);
    }
  }

  /** What filling the tickets `filled` out of `todo` leaves. */
  ghost predicate Moved(b: Book, b': Book, todo: seq<Order>, filled: seq<nat>) {
    && OrderTickets(b'.orders) + multiset(filled) == OrderTickets(b.orders)
    && Tickets(b'.positions) == Tickets(b.positions) + multiset(filled)
    && (forall t :: t in filled ==> Among(todo, t))
    && (forall t :: t !in filled ==> FindOrder(b'.orders, t) == FindOrder(b.orders, t))
    && b'.balance == b.balance && b'.slices == b.slices && b'.next == b.next && b'.bars == b.bars
  }

  ghost predicate Among(todo: seq<Order>, t: nat) {
    exists i :: 0 <= i < |todo| && todo[i].ticket == t
  }

  /** One ticket goes over from a collection to the list. */
  lemma OneMoves(a: multiset<nat>, s: seq<nat>, t: nat)
    requires t in a
    ensures (a - multiset{t}) + multiset(s + [t]) == a + multiset(s)
    ensures multiset(s + [t]) == multiset(s) + multiset{t}
  {
  }

  lemma FillMoves(v: Venue, b: Book, b1: Book, front: seq<Order>, filled: seq<nat>, o: Order)
    requires Moved(b, b1, front, filled) && o.ticket !in filled && FindOrder(b.orders, o.ticket) == Some(o)
    ensures Moved(b, WithFill(v, b1, o), front + [o], filled + [o.ticket])
  {
    hide OrderTickets, Tickets, FindOrder, DroppedOrder, Filled;
    var b2, all := WithFill(v, b1, o), filled + [o.ticket];
    OrderTicketsDropped(b1.orders, o.ticket);
    OneMoves(OrderTickets(b1.orders), filled, o.ticket);
    TicketsAppend(b1.positions, Filled(v, o));
    FilledTicket(v, o);
    forall t | t !in all ensures FindOrder(b2.orders, t) == FindOrder(b.orders, t) {
      FindOrderAfterDrop(b1.orders, o.ticket, t);
    }
    forall t | t in all ensures Among(front + [o], t) {
      if t in filled { AmongMore(front, o, t); } else { assert (front + [o])[|front|].ticket == t; }
    }
  }

  lemma FilledTicket(v: Venue, o: Order)
    ensures Filled(v, o).ticket == o.ticket
  {
  }

  lemma AmongMore(front: seq<Order>, o: Order, t: nat)
    requires Among(front, t)
    ensures Among(front + [o], t)
  {
    var i :| 0 <= i < |front| && front[i].ticket == t;
    assert (front + [o])[i].ticket == t;
  }

  /** Each order of the snapshot fills at most once, under its own ticket, and moves
      from the orders to the positions; nothing else changes. */
  lemma {:induction false} ResolvedMoves(v: Venue, b: Book, todo: seq<Order>, symbol: Option<string>, bar: Option<Bar>)
    requires Snapshot(b, todo)
    ensures Moved(b, Resolved(v, b, todo, symbol, bar).0, todo, Resolved(v, b, todo, symbol, bar).1)
  {
    hide WithFill, Affordable, Triggers, Moved, Snapshot, FindOrder;
    if todo == [] {
      NothingMoved(b);
    } else {
      var n := |todo| - 1;
      var front, o := todo[..n], todo[n];
      assert front + [o] == todo;
      SnapshotParts(b, front, o);
      ResolvedMoves(v, b, front, symbol, bar);
      var (b1, filled) := Resolved(v, b, front, symbol, bar);
      if Triggers(v, b1, o, symbol, bar) && Affordable(v, b1, o) {
        NotYetMoved(b, b1, front, filled, o);
        FillMoves(v, b, b1, front, filled, o);
      } else {
        PassedOver(b, b1, front, filled, o);
      }
    }
  }

  lemma NothingMoved(b: Book)
    ensures Moved(b, b, [], [])
  {
  }

  lemma SnapshotParts(b: Book, front: seq<Order>, o: Order)
    requires Snapshot(b, front + [o])
    ensures Snapshot(b, front) && !Among(front, o.ticket) && FindOrder(b.orders, o.ticket) == Some(o)
  {
    var todo := front + [o];
    assert todo[|front|] == o;
    forall i | 0 <= i < |front| ensures todo[i] == front[i] && front[i].ticket != o.ticket {
      assert todo[i].ticket != todo[|front|].ticket;
    }
  }

  lemma NotYetMoved(b: Book, b1: Book, front: seq<Order>, filled: seq<nat>, o: Order)
    requires Moved(b, b1, front, filled) && !Among(front, o.ticket)
    ensures o.ticket !in filled
  {
  }

  lemma PassedOver(b: Book, b1: Book, front: seq<Order>, filled: seq<nat>, o: Order)
    requires Moved(b, b1, front, filled)
    ensures Moved(b, b1, front + [o], filled)
  {
    forall t | t in filled ensures Among(front + [o], t) {
      AmongMore(front, o, t);
    }
  }

  lemma {:induction false} OrderIsCounted(os: seq<Order>, i: nat)
    requires i < |os|
    ensures os[i].ticket in OrderTickets(os)
  {
    if i > 0 { OrderIsCounted(os[1..], i - 1); }
  }

  lemma {:induction false} OwnSnapshot(os: seq<Order>)
    requires forall t :: OrderTickets(os)[t] <= 1
    ensures forall i :: 0 <= i < |os| ==> FindOrder(os, os[i].ticket) == Some(os[i])
    ensures forall i, j :: 0 <= i < j < |os| ==> os[i].ticket != os[j].ticket
  {
    if os != [] {
      var rest := os[1..];
      forall t ensures OrderTickets(rest)[t] <= 1 {
        assert OrderTickets(os)[t] <= 1;
      }
      OwnSnapshot(rest);
      forall i | 0 < i < |os| ensures os[i].ticket != os[0].ticket {
        OrderIsCounted(rest, i - 1);
        assert OrderTickets(os)[os[0].ticket] == 1 + OrderTickets(rest)[os[0].ticket];
      }
      forall i | 0 <= i < |os| ensures FindOrder(os, os[i].ticket) == Some(os[i]) {
        if i > 0 { assert rest[i - 1] == os[i]; }
      }
      forall i, j | 0 <= i < j < |os| ensures os[i].ticket != os[j].ticket {
        if i > 0 { assert rest[i - 1] == os[i] && rest[j - 1] == os[j]; }
      }
    }
  }

  lemma SoundOrders(b: Book)
    requires Sound(b)
    ensures Snapshot(b, b.orders)
  {
    forall t ensures OrderTickets(b.orders)[t] <= 1 {
      assert AllTickets(b)[t] == Tickets(b.positions)[t] + OrderTickets(b.orders)[t];
    }
    OwnSnapshot(b.orders);
  }

  /** `resolve_pending` on a sound book: every ticket stays on it, exactly the returned
      ones moved from the orders to the positions, none of them twice. */
  lemma ResolveKeepsTickets(v: Venue, b: Book, symbol: Option<string>, bar: Option<Bar>)
    requires Sound(b)
    ensures var (b', filled) := Resolved(v, b, b.orders, symbol, bar);
            && AllTickets(b') == AllTickets(b) && Sound(b')
            && Tickets(b'.positions) == Tickets(b.positions) + multiset(filled)
            && OrderTickets(b'.orders) == OrderTickets(b.orders) - multiset(filled)
            && (forall t :: multiset(filled)[t] <= 1)
            && b'.balance == b.balance && b'.slices == b.slices && b'.bars == b.bars
  {
    SoundOrders(b);
    ResolvedMoves(v, b, b.orders, symbol, bar);
    var (b', filled) := Resolved(v, b, b.orders, symbol, bar);
    SoundFromTickets(b, b');
    forall t ensures multiset(filled)[t] <= 1 {
      assert OrderTickets(b.orders)[t] <= AllTickets(b)[t];
    }
  }

  // ----- exits on a bar --------------------------------------------------------------------

  ghost predicate Held(b: Book, todo: seq<Position>) {
    && (forall i :: 0 <= i < |todo| ==> Find(b.positions, todo[i].ticket) == Some(todo[i]))
    && (forall i, j :: 0 <= i < j < |todo| ==> todo[i].ticket != todo[j].ticket)
  }

  predicate Leaves(p: Position, symbol: string, bar: Bar) {
    p.symbol == symbol && HitLevel(p, bar).Some?
  }

  ghost predicate AmongHeld(todo: seq<Position>, t: nat) {
    exists i :: 0 <= i < |todo| && todo[i].ticket == t
  }

  /** What the exits `closed` out of `todo` leave. */
  ghost predicate Exits(v: Venue, b: Book, b': Book, todo: seq<Position>, closed: seq<nat>, symbol: string, bar: Bar) {
    && Tickets(b'.positions) + multiset(closed) == Tickets(b.positions)
    && (forall i :: 0 <= i < |todo| ==> (todo[i].ticket in closed <==> Leaves(todo[i], symbol, bar)))
    && (forall t :: t in closed ==> AmongHeld(todo, t))
    && (forall t :: t !in closed ==> Find(b'.positions, t) == Find(b.positions, t))
    && b'.orders == b.orders && b'.next == b.next && b'.bars == b.bars
  }

  lemma AmongHeldMore(front: seq<Position>, p: Position, t: nat)
    requires AmongHeld(front, t)
    ensures AmongHeld(front + [p], t)
  {
    var i :| 0 <= i < |front| && front[i].ticket == t;
    assert (front + [p])[i].ticket == t;
  }

  lemma ExitStep(v: Venue, b: Book, b1: Book, front: seq<Position>, closed: seq<nat>, p: Position, symbol: string, bar: Bar)
    requires Exits(v, b, b1, front, closed, symbol, bar) && Find(b.positions, p.ticket) == Some(p)
    requires p.ticket !in closed && Leaves(p, symbol, bar)
    requires forall i :: 0 <= i < |front| ==> front[i].ticket != p.ticket
    ensures Exits(v, b, CloseSlice(v, b1, p, p.volume, HitLevel(p, bar).value), front + [p], closed + [p.ticket], symbol, bar)
  {
    hide Pnl, HitLevel, Tickets, Find, Dropped;
    TicketsDropped(b1.positions, p.ticket);
    OneMoves(Tickets(b1.positions), closed, p.ticket);
    var all := closed + [p.ticket];
    forall t | t !in all ensures Find(Dropped(b1.positions, p.ticket), t) == Find(b.positions, t) {
      FindAfterDrop(b1.positions, p.ticket, t);
    }
    forall t | t in all ensures AmongHeld(front + [p], t) {
      if t in closed { AmongHeldMore(front, p, t); } else { assert (front + [p])[|front|].ticket == t; }
    }
  }

  /** Exactly the positions whose stop or target the bar touched leave, once each; the
      rest stay as they were, and the balance moves by what was realised. */
  lemma {:induction false} ExitedExactly(v: Venue, b: Book, todo: seq<Position>, symbol: string, bar: Bar, initial: real)
    requires Held(b, todo) && Balanced(v, b, initial)
    ensures var (b', closed) := Exited(v, b, todo, symbol, bar);
            Exits(v, b, b', todo, closed, symbol, bar) && Balanced(v, b', initial)
  {
    hide CloseSlice, HitLevel, Balanced;
    if todo != [] {
      var n := |todo| - 1;
      var front, p := todo[..n], todo[n];
      assert front + [p] == todo;
      assert Held(b, front);
      ExitedExactly(v, b, front, symbol, bar, initial);
      var (b1, closed) := Exited(v, b, front, symbol, bar);
      assert p.ticket !in closed;
      if Leaves(p, symbol, bar) {
        ExitStep(v, b, b1, front, closed, p, symbol, bar);
        SliceBalances(v, b1, p, p.volume, HitLevel(p, bar).value, initial);
      } else {
        forall t | t in closed ensures AmongHeld(todo, t) {
          AmongHeldMore(front, p, t);
        }
      }
    }
  }

  lemma {:induction false} PositionIsCounted(ps: seq<Position>, i: nat)
    requires i < |ps|
    ensures ps[i].ticket in Tickets(ps)
  {
    if i > 0 { PositionIsCounted(ps[1..], i - 1); }
  }

  lemma {:induction false} OwnPositions(ps: seq<Position>)
    requires forall t :: Tickets(ps)[t] <= 1
    ensures forall i :: 0 <= i < |ps| ==> Find(ps, ps[i].ticket) == Some(ps[i])
    ensures forall i, j :: 0 <= i < j < |ps| ==> ps[i].ticket != ps[j].ticket
  {
    if ps != [] {
      var rest := ps[1..];
      forall t ensures Tickets(rest)[t] <= 1 {
        assert Tickets(ps)[t] <= 1;
      }
      OwnPositions(rest);
      forall i | 0 < i < |ps| ensures ps[i].ticket != ps[0].ticket {
        PositionIsCounted(rest, i - 1);
        assert Tickets(ps)[ps[0].ticket] == 1 + Tickets(rest)[ps[0].ticket];
      }
      forall i | 0 <= i < |ps| ensures Find(ps, ps[i].ticket) == Some(ps[i]) {
        if i > 0 { assert rest[i - 1] == ps[i]; }
      }
      forall i, j | 0 <= i < j < |ps| ensures ps[i].ticket != ps[j].ticket {
        if i > 0 { assert rest[i - 1] == ps[i] && rest[j - 1] == ps[j]; }
      }
    }
  }

  lemma SoundPositions(b: Book)
    requires Sound(b)
    ensures Held(b, b.positions)
  {
    forall t ensures Tickets(b.positions)[t] <= 1 {
      assert AllTickets(b)[t] == Tickets(b.positions)[t] + OrderTickets(b.orders)[t];
    }
    OwnPositions(b.positions);
  }

  /** `on_bar`: the tickets it returns are exactly the ones that left the book, fills of
      the same bar included, and the accounts stay balanced. */
  lemma OnBarExactly(v: Venue, b: Book, symbol: string, bar: Bar, initial: real)
    requires Sound(b) && Balanced(v, b, initial)
    ensures var (b', closed) := OnBar(v, b, symbol, bar);
            && AllTickets(b') + multiset(closed) == AllTickets(b)
            && (forall t :: multiset(closed)[t] <= 1)
            && Sound(b') && Balanced(v, b', initial) && b'.next == b.next
  {
    hide Exited, Resolved, Tickets, OrderTickets;
    var b1 := WithBar(b, symbol, bar);
    assert AllTickets(b1) == AllTickets(b) && Sound(b1);
    ResolveKeepsTickets(v, b1, Some(symbol), Some(bar));
    ResolvedKeepsNext(v, b1, b1.orders, Some(symbol), Some(bar));
    var b2 := Resolved(v, b1, b1.orders, Some(symbol), Some(bar)).0;
    SoundPositions(b2);
    ExitedExactly(v, b2, b2.positions, symbol, bar, initial);
    var (b', closed) := OnBar(v, b, symbol, bar);
    assert AllTickets(b') + multiset(closed) == AllTickets(b2);
    SoundFromTickets(b2, b');
    forall t ensures multiset(closed)[t] <= 1 {
      assert multiset(closed)[t] <= AllTickets(b2)[t];
    }
  }

  lemma {:induction false} ResolvedKeepsNext(v: Venue, b: Book, todo: seq<Order>, symbol: Option<string>, bar: Option<Bar>)
    ensures Resolved(v, b, todo, symbol, bar).0.next == b.next
  {
    if todo != [] {
      ResolvedKeepsNext(v, b, todo[..|todo| - 1], symbol, bar);
    }
  }

  /** A bar that touches both levels of a position exits it at the stop, the worse of
      the two whenever stop and target lie on their own sides of the entry. */
  lemma StopWins(p: Position, bar: Bar, spec: Spec)
    requires p.sl > 0.0 && p.tp > 0.0 && bar.low <= bar.high
    requires if p.side == Buy then p.sl <= p.tp && bar.low <= p.sl && p.tp <= bar.high
             else p.tp <= p.sl && bar.low <= p.tp && p.sl <= bar.high
    requires p.volume >= 0 && spec.tickValue >= 0.0
    ensures HitLevel(p, bar) == Some(p.sl)
    ensures Pnl(p, p.sl, spec, p.volume) <= Pnl(p, p.tp, spec, p.volume)
  {
    OrderedPnl(p, p.sl, p.tp, spec);
  }

  lemma OrderedPnl(p: Position, worse: real, better: real, spec: Spec)
    requires if p.side == Buy then worse <= better else better <= worse
    requires p.volume >= 0 && spec.tickValue >= 0.0
    ensures Pnl(p, worse, spec, p.volume) <= Pnl(p, better, spec, p.volume)
  {
    PnlIsDirectional(p, worse, spec, p.volume);
    PnlIsDirectional(p, better, spec, p.volume);
    if TickSize(spec) > 0.0 {
      var tick := TickSize(spec);
      var dw := (if p.side == Buy then worse - p.priceOpen else p.priceOpen - worse);
      var db := (if p.side == Buy then better - p.priceOpen else p.priceOpen - better);
      DivMonotone(dw, db, tick);
      MulMonotone(dw / tick, db / tick, spec.tickValue);
      assert Lots(p.volume) >= 0.0;
      MulMonotone(dw / tick * spec.tickValue, db / tick * spec.tickValue, Lots(p.volume));
    }
  }

  // ----- volumes stay positive ----------------------------------------------------------------

  ghost predicate AllPositive(ps: seq<Position>) {
    forall i :: 0 <= i < |ps| ==> ps[i].volume > 0
  }

  ghost predicate OrdersPositive(os: seq<Order>) {
    forall i :: 0 <= i < |os| ==> os[i].volume > 0
  }

  lemma {:induction false} DroppedPositive(ps: seq<Position>, t: nat)
    requires AllPositive(ps)
    ensures AllPositive(Dropped(ps, t))
  {
    if ps != [] && ps[0].ticket != t { DroppedPositive(ps[1..], t); }
  }

  lemma {:induction false} ReplacedPositive(ps: seq<Position>, p: Position)
    requires AllPositive(ps) && p.volume > 0
    ensures AllPositive(Replaced(ps, p))
  {
    if ps != [] && ps[0].ticket != p.ticket { ReplacedPositive(ps[1..], p); }
  }

  lemma {:induction false} OrdersDroppedPositive(os: seq<Order>, t: nat)
    requires OrdersPositive(os)
    ensures OrdersPositive(DroppedOrder(os, t))
  {
    if os != [] && os[0].ticket != t { OrdersDroppedPositive(os[1..], t); }
  }

  lemma {:induction false} OrdersReplacedPositive(os: seq<Order>, o: Order)
    requires OrdersPositive(os) && o.volume > 0
    ensures OrdersPositive(ReplacedOrder(os, o))
  {
    if os != [] && os[0].ticket != o.ticket { OrdersReplacedPositive(os[1..], o); }
  }

  lemma ReducedPositive(ps: seq<Position>, p: Position, volume: int)
    requires AllPositive(ps) && volume <= p.volume
    ensures AllPositive(Reduced(ps, p, volume))
  {
    if p.volume == volume { DroppedPositive(ps, p.ticket); }
    else { ReplacedPositive(ps, p.(volume := p.volume - volume)); }
  }

  lemma {:induction false} FoundPositive(ps: seq<Position>, t: nat)
    requires AllPositive(ps) && Find(ps, t).Some?
    ensures Find(ps, t).value.volume > 0
  {
    if ps[0].ticket != t { FoundPositive(ps[1..], t); }
  }

  lemma {:induction false} FoundOrderPositive(os: seq<Order>, t: nat)
    requires OrdersPositive(os) && FindOrder(os, t).Some?
    ensures FindOrder(os, t).value.volume > 0
  {
    if os[0].ticket != t { FoundOrderPositive(os[1..], t); }
  }

  lemma PositiveVolume(spec: Spec, volume: int)
    requires spec.volumeMin > 0.0 && VolumeAllowed(spec, volume)
    ensures volume > 0
  {
  }

  lemma OpensStocked(v: Venue, b: Book, r: Request)
    requires Stocked(b) && Tradable(v) && Opens(v, b, r)
    ensures Stocked(Committed(v, b, r))
  {
    hide Pnl, TickOf, MarginOf;
    assert VolumeAllowed(v.spec(r.symbol), r.volume);
    PositiveVolume(v.spec(r.symbol), r.volume);
  }

  lemma OtherStocked(v: Venue, b: Book, r: Request)
    requires Stocked(b) && (r.Sltp? || r.Amend? || r.Remove? || r.OtherAction?)
    ensures Stocked(Committed(v, b, r))
  {
    if Code(v, b, r) in {DONE, PLACED} {
      match r {
        case Sltp(position, _, _) =>
          FoundPositive(b.positions, position);
          ReplacedPositive(b.positions, SltpTarget(v, b, r));
        case Amend(order, _, _, _) =>
          FoundOrderPositive(b.orders, order);
          OrdersReplacedPositive(b.orders, AmendTarget(v, b, r));
        case Remove(order) => OrdersDroppedPositive(b.orders, order);
        case OtherAction =>
      }
    }
  }

  lemma ClosesStocked(v: Venue, b: Book, r: Request)
    requires Stocked(b) && ((r.Deal? && r.position != 0) || r.CloseBy?)
    ensures Stocked(Committed(v, b, r))
  {
    hide Pnl, TickOf;
    if Code(v, b, r) in {DONE, PLACED} {
      var p := Find(b.positions, r.position).value;
      if r.Deal? {
        ReducedPositive(b.positions, p, r.volume);
      } else {
        var c := Find(b.positions, r.other).value;
        var vol := CloseByVolume(p, c);
        ReducedPositive(b.positions, p, vol);
        ReducedPositive(Reduced(b.positions, p, vol), c, vol);
      }
    }
  }

  lemma CommittedStocked(v: Venue, b: Book, r: Request)
    requires Stocked(b) && Tradable(v)
    ensures Stocked(Committed(v, b, r))
  {
    hide Code;
    if Opens(v, b, r) {
      OpensStocked(v, b, r);
    } else if (r.Deal? && r.position != 0) || r.CloseBy? {
      ClosesStocked(v, b, r);
    } else if r.Deal? || r.Place? {
      assert Committed(v, b, r) == b;
    } else {
      OtherStocked(v, b, r);
    }
  }

  lemma {:induction false} ResolvedStocked(v: Venue, b: Book, todo: seq<Order>, symbol: Option<string>, bar: Option<Bar>)
    requires Stocked(b) && OrdersPositive(todo)
    ensures Stocked(Resolved(v, b, todo, symbol, bar).0)
  {
    hide Triggers, Affordable;
    if todo != [] {
      var n := |todo| - 1;
      ResolvedStocked(v, b, todo[..n], symbol, bar);
      OrdersDroppedPositive(Resolved(v, b, todo[..n], symbol, bar).0.orders, todo[n].ticket);
    }
  }

  lemma {:induction false} ExitedStocked(v: Venue, b: Book, todo: seq<Position>, symbol: string, bar: Bar)
    requires Stocked(b)
    ensures Stocked(Exited(v, b, todo, symbol, bar).0)
  {
    hide HitLevel, Pnl;
    if todo != [] {
      var n := |todo| - 1;
      ExitedStocked(v, b, todo[..n], symbol, bar);
      DroppedPositive(Exited(v, b, todo[..n], symbol, bar).0.positions, todo[n].ticket);
    }
  }

  lemma OnBarStocked(v: Venue, b: Book, symbol: string, bar: Bar)
    requires Stocked(b)
    ensures Stocked(OnBar(v, b, symbol, bar).0)
  {
    var b1 := WithBar(b, symbol, bar);
    ResolvedStocked(v, b1, b1.orders, Some(symbol), Some(bar));
    var b2 := Resolved(v, b1, b1.orders, Some(symbol), Some(bar)).0;
    ExitedStocked(v, b2, b2.positions, symbol, bar);
  }

  // ----- runs -------------------------------------------------------------------------------

  datatype Step =
    | Submit(r: Request)
    | DryRun(r: Request)
    | Resolve(only: Option<string>)
    | NewBar(symbol: string, bar: Bar)

  function Next(v: Venue, b: Book, step: Step): Book {
    match step
    case Submit(r) => Committed(v, b, r)
    case DryRun(_) => b
    case Resolve(symbol) => Resolved(v, b, b.orders, symbol, None).0
    case NewBar(symbol, bar) => OnBar(v, b, symbol, bar).0
  }

  function Run(v: Venue, b: Book, steps: seq<Step>): Book
    decreases |steps|
  {
    if steps == [] then b else Run(v, Next(v, b, steps[0]), steps[1..])
  }

  function Opened(balance: real): Book { Book(balance, [], [], 1, map[], []) }

  lemma StepKeeps(v: Venue, b: Book, step: Step, initial: real)
    requires Sound(b) && Balanced(v, b, initial) && Stocked(b) && Tradable(v)
    ensures var b' := Next(v, b, step);
            Sound(b') && Balanced(v, b', initial) && Stocked(b')
  {
    hide Sound, Stocked, Tradable, Committed, OnBar, Resolved, AllTickets;
    match step {
      case Submit(r) =>
        CommittedSound(v, b, r);
        CommittedBalanced(v, b, r, initial);
        CommittedStocked(v, b, r);
      case DryRun(_) =>
      case Resolve(symbol) =>
        ResolveKeepsTickets(v, b, symbol, None);
        StockedOrders(b);
        ResolvedStocked(v, b, b.orders, symbol, None);
      case NewBar(symbol, bar) =>
        OnBarExactly(v, b, symbol, bar, initial);
        OnBarStocked(v, b, symbol, bar);
    }
  }

  lemma StockedOrders(b: Book)
    requires Stocked(b)
    ensures OrdersPositive(b.orders)
  {
  }

  /** Over every run from a good book: tickets are distinct between and within
      positions and orders and below the next one, nothing on the book is empty, and
      the balance is the initial balance plus the profit of every slice ever closed. */
  lemma {:induction false} BookIntegrity(v: Venue, b: Book, steps: seq<Step>, initial: real)
    requires Sound(b) && Balanced(v, b, initial) && Stocked(b) && Tradable(v)
    ensures Sound(Run(v, b, steps)) && Balanced(v, Run(v, b, steps), initial) && Stocked(Run(v, b, steps))
    decreases |steps|
  {
    hide Sound, Stocked, Tradable, Balanced, Next;
    if steps != [] {
      StepKeeps(v, b, steps[0], initial);
      BookIntegrity(v, Next(v, b, steps[0]), steps[1..], initial);
    }
  }

  lemma OpenedIsSound(v: Venue, balance: real)
    ensures Sound(Opened(balance)) && Balanced(v, Opened(balance), balance) && Stocked(Opened(balance))
  {
  }
}
