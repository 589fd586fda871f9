/** The book of broker/paper.py on values: positions and working orders in the order
    the source's dictionaries keep them, money over exact reals, volumes in units of
    1e-8 lots. `slices` is the history of everything closed, kept for the accounts. */
module Paper {
  import opened Wrappers
  import opened Market
  import Sizing

  datatype OrderKind = Limit | Stop

  datatype Order = Order(
    ticket: nat, symbol: string, side: Side, kind: OrderKind, volume: int, price: real, sl: real, tp: real, magic: int)

  /** A closed part of a position, with the price it was closed at. */
  datatype Slice = Slice(pos: Position, volume: int, price: real)

  /** The fixed part of the venue: specifications, spread in points, leverage. */
  datatype Venue = Venue(spec: string -> Spec, spread: string -> real, leverage: int, tradeAllowed: bool)

  datatype Book = Book(
    balance: real, positions: seq<Position>, orders: seq<Order>, next: nat, bars: map<string, seq<Bar>>,
    slices: seq<Slice>)

  function Lots(volume: int): real { volume as real / 100000000.0 }

  // ----- prices and money --------------------------------------------------------

  function TickOf(v: Venue, bars: map<string, seq<Bar>>, symbol: string): Tick {
    var mid := if symbol in bars && bars[symbol] != [] then bars[symbol][|bars[symbol]| - 1].close else 1.0;
    var half := v.spread(symbol) * v.spec(symbol).point / 2.0;
    Tick(mid - half, mid + half)
  }

  /** What closing the position now would pay: bid for a buy, ask for a sell. */
  function Mark(v: Venue, bars: map<string, seq<Bar>>, p: Position): real {
    if p.side == Buy then TickOf(v, bars, p.symbol).bid else TickOf(v, bars, p.symbol).ask
  }

  /** Ticks in the position's favour. */
  function SignedTicks(p: Position, price: real, spec: Spec): real {
    var ticks := Sizing.TicksBetween(p.priceOpen, price, spec);
    if p.side == Buy then (if price >= p.priceOpen then ticks else -ticks)
    else (if price <= p.priceOpen then ticks else -ticks)
  }

  /** `_pnl` of `volume` units of the position. */
  function Pnl(p: Position, price: real, spec: Spec, volume: int): real {
    SignedTicks(p, price, spec) * spec.tickValue * Lots(volume)
  }

  function TickSize(spec: Spec): real { if spec.tickSize != 0.0 then spec.tickSize else spec.point }

  /** The profit is what it should be: price distance in the position's direction,
      in ticks, times the tick value, times the lots. */
  lemma PnlIsDirectional(p: Position, price: real, spec: Spec, volume: int)
    ensures Pnl(p, price, spec, volume) ==
            if TickSize(spec) <= 0.0 then 0.0
            else (if p.side == Buy then price - p.priceOpen else p.priceOpen - price) / TickSize(spec)
                 * spec.tickValue * Lots(volume)
  {
    var tick := TickSize(spec);
    if tick > 0.0 {
      var d := p.priceOpen - price;
      assert -d / tick == -(d / tick);
    } else {
      assert SignedTicks(p, price, spec) == 0.0;
    }
  }

  /** The source takes the whole position's profit times the closed fraction. */
  function Fraction(volume: int, whole: int): real
    requires whole != 0
  {
    volume as real / whole as real
  }

  lemma FractionOfPnl(p: Position, price: real, spec: Spec, volume: int)
    requires p.volume != 0
    ensures Pnl(p, price, spec, p.volume) * Fraction(volume, p.volume) == Pnl(p, price, spec, volume)
  {
    var u := SignedTicks(p, price, spec) * spec.tickValue;
    var whole, part := p.volume as real, volume as real;
    assert Lots(p.volume) * (part / whole) == Lots(volume) by {
      assert whole / 100000000.0 * (part / whole) == part / 100000000.0;
    }
    Associate(u, Lots(p.volume), part / whole);
  }

  lemma Associate(a: real, b: real, c: real)
    ensures a * b * c == a * (b * c)
  {
  }

  lemma PnlSplits(p: Position, price: real, spec: Spec, a: int, b: int)
    ensures Pnl(p, price, spec, a) + Pnl(p, price, spec, b) == Pnl(p, price, spec, a + b)
  {
    var u := SignedTicks(p, price, spec) * spec.tickValue;
    assert Lots(a) + Lots(b) == Lots(a + b);
    assert u * Lots(a) + u * Lots(b) == u * (Lots(a) + Lots(b));
  }

  function MarkedPnl(v: Venue, bars: map<string, seq<Bar>>, ps: seq<Position>): real {
    if ps == [] then 0.0
    else Pnl(ps[0], Mark(v, bars, ps[0]), v.spec(ps[0].symbol), ps[0].volume) + MarkedPnl(v, bars, ps[1..])
  }

  function Leverage(v: Venue): real { if v.leverage < 1 then 1.0 else v.leverage as real }

  function MarginOf(v: Venue, symbol: string, volume: int, price: real): real {
    v.spec(symbol).contractSize * Lots(volume) * price / Leverage(v)
  }

  function UsedMargin(v: Venue, ps: seq<Position>): real {
    if ps == [] then 0.0
    else MarginOf(v, ps[0].symbol, ps[0].volume, ps[0].priceOpen) + UsedMargin(v, ps[1..])
  }

  function Equity(v: Venue, b: Book): real { b.balance + MarkedPnl(v, b.bars, b.positions) }
  function FreeMargin(v: Venue, b: Book): real { Equity(v, b) - UsedMargin(v, b.positions) }

  // ----- looking up and reducing ----------------------------------------------------

  function Find(ps: seq<Position>, ticket: nat): Option<Position> {
    if ps == [] then None else if ps[0].ticket == ticket then Some(ps[0]) else Find(ps[1..], ticket)
  }

  function FindOrder(os: seq<Order>, ticket: nat): Option<Order> {
    if os == [] then None else if os[0].ticket == ticket then Some(os[0]) else FindOrder(os[1..], ticket)
  }

  function Dropped(ps: seq<Position>, ticket: nat): seq<Position> {
    if ps == [] then [] else if ps[0].ticket == ticket then ps[1..] else [ps[0]] + Dropped(ps[1..], ticket)
  }

  function DroppedOrder(os: seq<Order>, ticket: nat): seq<Order> {
    if os == [] then [] else if os[0].ticket == ticket then os[1..] else [os[0]] + DroppedOrder(os[1..], ticket)
  }

  /** The position with this ticket replaced, in its place. */
  function Replaced(ps: seq<Position>, p: Position): seq<Position> {
    if ps == [] then [] else if ps[0].ticket == p.ticket then [p] + ps[1..] else [ps[0]] + Replaced(ps[1..], p)
  }

  function ReplacedOrder(os: seq<Order>, o: Order): seq<Order> {
    if os == [] then [] else if os[0].ticket == o.ticket then [o] + os[1..] else [os[0]] + ReplacedOrder(os[1..], o)
  }

  /** Take `volume` units off a position; the last unit takes it off the book. */
  function Reduced(ps: seq<Position>, p: Position, volume: int): seq<Position> {
    if p.volume == volume then Dropped(ps, p.ticket) else Replaced(ps, p.(volume := p.volume - volume))
  }

  lemma {:induction false} DroppedPnl(v: Venue, bars: map<string, seq<Bar>>, ps: seq<Position>, p: Position)
    requires Find(ps, p.ticket) == Some(p)
    ensures MarkedPnl(v, bars, Dropped(ps, p.ticket))
            == MarkedPnl(v, bars, ps) - Pnl(p, Mark(v, bars, p), v.spec(p.symbol), p.volume)
  {
    if ps[0].ticket != p.ticket {
      DroppedPnl(v, bars, ps[1..], p);
      assert ([ps[0]] + Dropped(ps[1..], p.ticket))[1..] == Dropped(ps[1..], p.ticket);
    }
  }

  lemma {:induction false} ReplacedPnl(v: Venue, bars: map<string, seq<Bar>>, ps: seq<Position>, p: Position, volume: int)
    requires Find(ps, p.ticket) == Some(p)
    ensures MarkedPnl(v, bars, Replaced(ps, p.(volume := volume)))
            == MarkedPnl(v, bars, ps) - Pnl(p, Mark(v, bars, p), v.spec(p.symbol), p.volume)
               + Pnl(p, Mark(v, bars, p), v.spec(p.symbol), volume)
  {
    var q := p.(volume := volume);
    if ps[0].ticket == p.ticket {
      assert ([q] + ps[1..])[1..] == ps[1..];
      assert Mark(v, bars, q) == Mark(v, bars, p);
    } else {
      ReplacedPnl(v, bars, ps[1..], p, volume);
      assert ([ps[0]] + Replaced(ps[1..], q))[1..] == Replaced(ps[1..], q);
    }
  }

  /** Taking units off changes the marked profit by exactly their profit. */
  lemma ReducedPnl(v: Venue, bars: map<string, seq<Bar>>, ps: seq<Position>, p: Position, volume: int)
    requires Find(ps, p.ticket) == Some(p)
    ensures MarkedPnl(v, bars, Reduced(ps, p, volume))
            == MarkedPnl(v, bars, ps) - Pnl(p, Mark(v, bars, p), v.spec(p.symbol), volume)
  {
    if p.volume == volume {
      DroppedPnl(v, bars, ps, p);
    } else {
      ReplacedPnl(v, bars, ps, p, p.volume - volume);
      PnlSplits(p, Mark(v, bars, p), v.spec(p.symbol), volume, p.volume - volume);
    }
  }

  lemma {:induction false} FindAfterReduce(ps: seq<Position>, p: Position, volume: int, other: nat)
    requires other != p.ticket
    ensures Find(Reduced(ps, p, volume), other) == Find(ps, other)
  {
    if p.volume == volume { FindAfterDrop(ps, p.ticket, other); }
    else { FindAfterReplace(ps, p.(volume := p.volume - volume), other); }
  }

  lemma {:induction false} FindAfterDrop(ps: seq<Position>, ticket: nat, other: nat)
    requires other != ticket
    ensures Find(Dropped(ps, ticket), other) == Find(ps, other)
  {
    if ps != [] && ps[0].ticket != ticket {
      FindAfterDrop(ps[1..], ticket, other);
    }
  }

  lemma {:induction false} FindAfterReplace(ps: seq<Position>, p: Position, other: nat)
    requires other != p.ticket
    ensures Find(Replaced(ps, p), other) == Find(ps, other)
  {
    if ps != [] && ps[0].ticket != p.ticket {
      FindAfterReplace(ps[1..], p, other);
    }
  }

  lemma {:induction false} FindGives(ps: seq<Position>, ticket: nat)
    requires Find(ps, ticket).Some?
    ensures Find(ps, ticket).value.ticket == ticket && Find(ps, ticket).value in ps
  {
    if ps[0].ticket != ticket { FindGives(ps[1..], ticket); }
  }

  // ----- closing -----------------------------------------------------------------------

  /** `volume` units of `p` leave the book at `price`. */
  function CloseSlice(v: Venue, b: Book, p: Position, volume: int, price: real): Book {
    b.(balance := b.balance + Pnl(p, price, v.spec(p.symbol), volume),
       positions := Reduced(b.positions, p, volume),
       slices := b.slices + [Slice(p, volume, price)])
  }

  /** At the marked price it leaves the equity exactly where it was. */
  lemma CloseKeepsEquity(v: Venue, b: Book, p: Position, volume: int)
    requires Find(b.positions, p.ticket) == Some(p)
    ensures Equity(v, CloseSlice(v, b, p, volume, Mark(v, b.bars, p))) == Equity(v, b)
  {
    ReducedPnl(v, b.bars, b.positions, p, volume);
  }

  function CloseByVolume(a: Position, c: Position): int { if a.volume <= c.volume then a.volume else c.volume }

  /** Two opposite positions against each other, each at its own mark. */
  function ClosedBy(v: Venue, b: Book, a: Position, c: Position): Book {
    var vol := CloseByVolume(a, c);
    var b1 := CloseSlice(v, b, a, vol, Mark(v, b.bars, a));
    CloseSlice(v, b1, c, vol, Mark(v, b.bars, c))
  }

  lemma CloseByKeepsEquity(v: Venue, b: Book, a: Position, c: Position)
    requires a.ticket != c.ticket && Find(b.positions, a.ticket) == Some(a) && Find(b.positions, c.ticket) == Some(c)
    ensures Equity(v, ClosedBy(v, b, a, c)) == Equity(v, b)
  {
    var vol := CloseByVolume(a, c);
    var b1 := CloseSlice(v, b, a, vol, Mark(v, b.bars, a));
    CloseKeepsEquity(v, b, a, vol);
    FindAfterReduce(b.positions, a, vol, c.ticket);
    CloseKeepsEquity(v, b1, c, vol);
  }

  // ----- requests ----------------------------------------------------------------------

  const DONE := 10009
  const PLACED := 10008
  const INVALID := 10013
  const INVALID_VOLUME := 10014
  const INVALID_PRICE := 10015
  const INVALID_STOPS := 10016
  const TRADE_DISABLED := 10017
  const NO_MONEY := 10019
  const INVALID_ORDER := 10035
  const POSITION_CLOSED := 10036

  datatype Request =
    | Deal(position: nat, symbol: string, side: Side, volume: int, sl: real, tp: real, magic: int)
    | Sltp(position: nat, newSl: Option<real>, newTp: Option<real>)
    | Amend(order: nat, newPrice: Option<real>, newSl: Option<real>, newTp: Option<real>)
    | Place(symbol: string, side: Side, kind: Option<OrderKind>, volume: int, price: real, sl: real, tp: real, magic: int)
    | Remove(order: nat)
    | CloseBy(position: nat, other: nat)
    | OtherAction

  function OrKeep(x: Option<real>, old_: real): real { if x.Some? then x.value else old_ }

  /** `float(request.get("price", order.price) or order.price)`: zero reads as absent. */
  function AmendedPrice(x: Option<real>, old_: real): real {
    if x.Some? && x.value != 0.0 then x.value else old_
  }

  function RoundedOrZero(spec: Spec, x: real): real { if x == 0.0 then 0.0 else spec.Normalize(x) }

  predicate VolumeAllowed(spec: Spec, volume: int) {
    spec.volumeMin <= Lots(volume) <= spec.volumeMax
  }

  function EntryPrice(v: Venue, b: Book, symbol: string, side: Side): real {
    if side == Buy then TickOf(v, b.bars, symbol).ask else TickOf(v, b.bars, symbol).bid
  }

  function OpenCode(v: Venue, b: Book, symbol: string, side: Side, volume: int, sl: real): int {
    var spec, price := v.spec(symbol), EntryPrice(v, b, symbol, side);
    if !VolumeAllowed(spec, volume) then INVALID_VOLUME
    else if sl <= 0.0 then INVALID_STOPS
    else if Abs(price - sl) < spec.MinStopDistance() - spec.point / 2.0 then INVALID_STOPS
    else if MarginOf(v, symbol, volume, price) > FreeMargin(v, b) then NO_MONEY
    else DONE
  }

  function CloseByCode(v: Venue, ps: seq<Position>, ticket: nat, other: nat): int {
    var a, c := Find(ps, ticket), Find(ps, other);
    if a.None? || c.None? then POSITION_CLOSED
    else if ticket == other || a.value.symbol != c.value.symbol || a.value.side == c.value.side then INVALID
    else
      var vol := CloseByVolume(a.value, c.value);
      var spec := v.spec(a.value.symbol);
      var restA, restC := Lots(a.value.volume - vol), Lots(c.value.volume - vol);
      if (restA > 0.000000000001 && restA < spec.volumeMin - 0.000000000001)
         || (restC > 0.000000000001 && restC < spec.volumeMin - 0.000000000001)
      then INVALID_VOLUME else DONE
  }

  /** The return code of a request: the same for a dry run and a committed one. */
  function Code(v: Venue, b: Book, r: Request): int {
    if !v.tradeAllowed then TRADE_DISABLED
    else match r
      case Deal(position, symbol, side, volume, sl, _, _) =>
        if position == 0 then OpenCode(v, b, symbol, side, volume, sl)
        else
          var p := Find(b.positions, position);
          if p.None? then POSITION_CLOSED else if volume > p.value.volume then INVALID_VOLUME else DONE
      case Sltp(position, _, _) => if Find(b.positions, position).None? then POSITION_CLOSED else DONE
      case Amend(order, price, _, _) =>
        var o := FindOrder(b.orders, order);
        if o.None? then INVALID_ORDER
        else if AmendedPrice(price, o.value.price) <= 0.0 then INVALID_PRICE else DONE
      case Place(symbol, _, kind, volume, price, _, _, _) =>
        if kind.None? then INVALID
        else if !VolumeAllowed(v.spec(symbol), volume) then INVALID_VOLUME
        else if price <= 0.0 then INVALID_PRICE else PLACED
      case Remove(order) => if FindOrder(b.orders, order).None? then POSITION_CLOSED else DONE
      case CloseBy(position, other) => CloseByCode(v, b.positions, position, other)
      case OtherAction => INVALID
  }

  /** The book after a committed request. */
  function Committed(v: Venue, b: Book, r: Request): Book {
    if Code(v, b, r) != DONE && Code(v, b, r) != PLACED then b
    else match r
      case Deal(position, symbol, side, volume, sl, tp, magic) =>
        if position == 0 then
          var spec := v.spec(symbol);
          b.(next := b.next + 1,
             positions := b.positions + [Position(b.next, symbol, side, volume,
               spec.Normalize(EntryPrice(v, b, symbol, side)), spec.Normalize(sl), RoundedOrZero(spec, tp), magic)])
        else
          var p := Find(b.positions, position).value;
          CloseSlice(v, b, p, volume, Mark(v, b.bars, p))
      case Sltp(position, sl, tp) =>
        var p := Find(b.positions, position).value;
        var spec := v.spec(p.symbol);
        b.(positions := Replaced(b.positions, p.(sl := spec.Normalize(OrKeep(sl, p.sl)),
                                                 tp := RoundedOrZero(spec, OrKeep(tp, p.tp)))))
      case Amend(order, price, sl, tp) =>
        var o := FindOrder(b.orders, order).value;
        var spec := v.spec(o.symbol);
        b.(orders := ReplacedOrder(b.orders, o.(price := spec.Normalize(AmendedPrice(price, o.price)),
                                                sl := RoundedOrZero(spec, OrKeep(sl, o.sl)),
                                                tp := RoundedOrZero(spec, OrKeep(tp, o.tp)))))
      case Place(symbol, side, kind, volume, price, sl, tp, magic) =>
        var spec := v.spec(symbol);
        b.(next := b.next + 1,
           orders := b.orders + [Order(b.next, symbol, side, kind.value, volume, spec.Normalize(price),
                                       RoundedOrZero(spec, sl), RoundedOrZero(spec, tp), magic)])
      case Remove(order) => b.(orders := DroppedOrder(b.orders, order))
      case CloseBy(position, other) =>
        ClosedBy(v, b, Find(b.positions, position).value, Find(b.positions, other).value)
      case OtherAction => b
  }

  /** Every request but an opening deal leaves equity untouched: a full close, a partial
      close of any size, a close-by with or without a rest, new levels, order changes. */
  lemma ClosingKeepsEquity(v: Venue, b: Book, r: Request)
    requires r.Deal? ==> r.position != 0
    ensures Equity(v, Committed(v, b, r)) == Equity(v, b)
  {
    if Code(v, b, r) == DONE || Code(v, b, r) == PLACED {
      if r.Deal? {
        FindGives(b.positions, r.position);
        CloseKeepsEquity(v, b, Find(b.positions, r.position).value, r.volume);
      } else if r.CloseBy? {
        FindGives(b.positions, r.position);
        FindGives(b.positions, r.other);
        CloseByKeepsEquity(v, b, Find(b.positions, r.position).value, Find(b.positions, r.other).value);
      } else if r.Sltp? {
        var p := Find(b.positions, r.position).value;
        var spec := v.spec(p.symbol);
        FindGives(b.positions, r.position);
        RelevelledPnl(v, b.bars, b.positions, p, spec.Normalize(OrKeep(r.newSl, p.sl)),
                      RoundedOrZero(spec, OrKeep(r.newTp, p.tp)));
      }
    }
  }

  lemma {:induction false} RelevelledPnl(v: Venue, bars: map<string, seq<Bar>>, ps: seq<Position>, p: Position, sl: real, tp: real)
    requires Find(ps, p.ticket) == Some(p)
    ensures MarkedPnl(v, bars, Replaced(ps, p.(sl := sl, tp := tp))) == MarkedPnl(v, bars, ps)
  {
    var q := p.(sl := sl, tp := tp);
    if ps[0].ticket == p.ticket {
      assert ([q] + ps[1..])[1..] == ps[1..];
      assert Mark(v, bars, q) == Mark(v, bars, p);
    } else {
      RelevelledPnl(v, bars, ps[1..], p, sl, tp);
      assert ([ps[0]] + Replaced(ps[1..], q))[1..] == Replaced(ps[1..], q);
    }
  }

  lemma {:induction false} AppendedValue(v: Venue, bars: map<string, seq<Bar>>, ps: seq<Position>, p: Position)
    ensures MarkedPnl(v, bars, ps + [p]) == MarkedPnl(v, bars, ps) + Pnl(p, Mark(v, bars, p), v.spec(p.symbol), p.volume)
    ensures UsedMargin(v, ps + [p]) == UsedMargin(v, ps) + MarginOf(v, p.symbol, p.volume, p.priceOpen)
  {
    hide Pnl, Mark, MarginOf;
    if ps == [] {
      assert [] + [p] == [p] && [p][1..] == [];
    } else {
      AppendedValue(v, bars, ps[1..], p);
      assert (ps + [p])[1..] == ps[1..] + [p];
    }
  }

  /** What an entry is away from the price it could be closed at. */
  function EntryGap(v: Venue, b: Book, r: Request): real
    requires r.Deal?
  {
    var spec, t := v.spec(r.symbol), TickOf(v, b.bars, r.symbol);
    if r.side == Buy then spec.Normalize(t.ask) - t.bid else t.ask - spec.Normalize(t.bid)
  }

  /** An opening deal costs exactly the gap between its rounded entry and the price on
      the other side, on the lots it opens; and on grid quotes the free margin stays
      above minus that cost, since the margin was there. */
  lemma OpeningCostsTheGap(v: Venue, b: Book, r: Request)
    requires r.Deal? && r.position == 0 && Code(v, b, r) == DONE && TickSize(v.spec(r.symbol)) > 0.0
    ensures var b', spec := Committed(v, b, r), v.spec(r.symbol);
            var cost := EntryGap(v, b, r) / TickSize(spec) * spec.tickValue * Lots(r.volume);
            && Equity(v, b') == Equity(v, b) - cost
            && (OnGrid(EntryPrice(v, b, r.symbol, r.side), spec.digits) ==> FreeMargin(v, b') >= -cost)
  {
    var spec := v.spec(r.symbol);
    var entry := spec.Normalize(EntryPrice(v, b, r.symbol, r.side));
    var p := Position(b.next, r.symbol, r.side, r.volume, entry, spec.Normalize(r.sl), RoundedOrZero(spec, r.tp), r.magic);
    AppendedValue(v, b.bars, b.positions, p);
    RoundIsProjection(EntryPrice(v, b, r.symbol, r.side), spec.digits);
    GapIsLoss(v, b, r, p);
    hide Pnl, TickOf, MarginOf, MarkedPnl, UsedMargin, EntryGap, Lots;
  }

  lemma GapIsLoss(v: Venue, b: Book, r: Request, p: Position)
    requires r.Deal? && TickSize(v.spec(r.symbol)) > 0.0
    requires p.symbol == r.symbol && p.side == r.side && p.volume == r.volume
    requires p.priceOpen == v.spec(r.symbol).Normalize(EntryPrice(v, b, r.symbol, r.side))
    ensures var spec := v.spec(r.symbol);
            Pnl(p, Mark(v, b.bars, p), spec, p.volume)
            == -(EntryGap(v, b, r) / TickSize(spec) * spec.tickValue * Lots(r.volume))
  {
    hide Pnl, TickOf, Round, Lots, TickSize;
    var spec, mark := v.spec(r.symbol), Mark(v, b.bars, p);
    PnlIsDirectional(p, mark, spec, p.volume);
    var distance := if p.side == Buy then mark - p.priceOpen else p.priceOpen - mark;
    assert distance == -EntryGap(v, b, r);
    NegatedProduct(distance, EntryGap(v, b, r), TickSize(spec), spec.tickValue, Lots(r.volume));
  }

  lemma NegatedProduct(d: real, gap: real, tick: real, value: real, lots: real)
    requires tick > 0.0 && d == -gap
    ensures d / tick * value * lots == -(gap / tick * value * lots)
  {
    assert d / tick == -(gap / tick);
  }

  // ----- fills and exits on bars ----------------------------------------------------------

  predicate HitByTick(o: Order, t: Tick) {
    match (o.kind, o.side)
    case (Limit, Buy) => t.ask <= o.price
    case (Limit, Sell) => t.bid >= o.price
    case (Stop, Buy) => t.ask >= o.price
    case (Stop, Sell) => t.bid <= o.price
  }

  predicate HitByBar(o: Order, bar: Bar) {
    match (o.kind, o.side)
    case (Limit, Buy) => bar.low <= o.price
    case (Limit, Sell) => bar.high >= o.price
    case (Stop, Buy) => bar.high >= o.price
    case (Stop, Sell) => bar.low <= o.price
  }

  function Filled(v: Venue, o: Order): Position {
    var spec := v.spec(o.symbol);
    Position(o.ticket, o.symbol, o.side, o.volume, spec.Normalize(o.price),
             RoundedOrZero(spec, o.sl), RoundedOrZero(spec, o.tp), o.magic)
  }

  predicate Affordable(v: Venue, b: Book, o: Order) {
    MarginOf(v, o.symbol, o.volume, v.spec(o.symbol).Normalize(o.price)) <= FreeMargin(v, b)
  }

  /** An order moves to the positions under its own ticket. */
  function WithFill(v: Venue, b: Book, o: Order): Book {
    b.(orders := DroppedOrder(b.orders, o.ticket), positions := b.positions + [Filled(v, o)])
  }

  predicate Triggers(v: Venue, b: Book, o: Order, symbol: Option<string>, bar: Option<Bar>) {
    && (symbol.Some? ==> o.symbol == symbol.value)
    && (if bar.Some? then HitByBar(o, bar.value) else HitByTick(o, TickOf(v, b.bars, o.symbol)))
  }

  /** `resolve_pending` over a snapshot of the orders, oldest first; every fill uses up
      margin before the next one is looked at. */
  function Resolved(v: Venue, b: Book, todo: seq<Order>, symbol: Option<string>, bar: Option<Bar>): (Book, seq<nat>) {
    if todo == [] then (b, [])
    else
      var (b1, filled) := Resolved(v, b, todo[..|todo| - 1], symbol, bar);
      var o := todo[|todo| - 1];
      if Triggers(v, b1, o, symbol, bar) && Affordable(v, b1, o) then (WithFill(v, b1, o), filled + [o.ticket])
      else (b1, filled)
  }

  /** The conservative exit: a touched stop wins over a touched target. */
  function HitLevel(p: Position, bar: Bar): Option<real> {
    var slHit := p.sl > 0.0 && (if p.side == Buy then bar.low <= p.sl else bar.high >= p.sl);
    var tpHit := p.tp > 0.0 && (if p.side == Buy then bar.high >= p.tp else bar.low <= p.tp);
    if slHit then Some(p.sl) else if tpHit then Some(p.tp) else None
  }

  function Exited(v: Venue, b: Book, todo: seq<Position>, symbol: string, bar: Bar): (Book, seq<nat>) {
    if todo == [] then (b, [])
    else
      var (b1, closed) := Exited(v, b, todo[..|todo| - 1], symbol, bar);
      var p := todo[|todo| - 1];
      if p.symbol == symbol && HitLevel(p, bar).Some?
      then (CloseSlice(v, b1, p, p.volume, HitLevel(p, bar).value), closed + [p.ticket])
      else (b1, closed)
  }

  function WithBar(b: Book, symbol: string, bar: Bar): Book {
    b.(bars := b.bars[symbol := (if symbol in b.bars then b.bars[symbol] else []) + [bar]])
  }

  function OnBar(v: Venue, b: Book, symbol: string, bar: Bar): (Book, seq<nat>) {
    var b1 := WithBar(b, symbol, bar);
    var (b2, _) := Resolved(v, b1, b1.orders, Some(symbol), Some(bar));
    Exited(v, b2, b2.positions, symbol, bar)
  }

  // ----- integrity -----------------------------------------------------------------------

  function Tickets(ps: seq<Position>): multiset<nat> {
    if ps == [] then multiset{} else multiset{ps[0].ticket} + Tickets(ps[1..])
  }

  function OrderTickets(os: seq<Order>): multiset<nat> {
    if os == [] then multiset{} else multiset{os[0].ticket} + OrderTickets(os[1..])
  }

  /** Every ticket on the book, with how often it occurs. */
  function AllTickets(b: Book): multiset<nat> { Tickets(b.positions) + OrderTickets(b.orders) }

  /** Each ticket once, as a position or as an order, and below the next one. */
  ghost predicate Sound(b: Book) {
    && (forall t :: AllTickets(b)[t] <= 1)
    && (forall t :: t in AllTickets(b) ==> 0 < t < b.next)
    && b.next >= 1
  }

  /** Nothing on the book is empty. */
  ghost predicate Stocked(b: Book) {
    && (forall i :: 0 <= i < |b.positions| ==> b.positions[i].volume > 0)
    && (forall i :: 0 <= i < |b.orders| ==> b.orders[i].volume > 0)
  }

  /** No symbol of the venue trades in a minimum of zero lots. */
  ghost predicate Tradable(v: Venue) {
    forall s :: v.spec(s).volumeMin > 0.0
  }

  function SliceProfit(v: Venue, s: Slice): real { Pnl(s.pos, s.price, v.spec(s.pos.symbol), s.volume) }

  function Realised(v: Venue, slices: seq<Slice>): real {
    if slices == [] then 0.0
    else Realised(v, slices[..|slices| - 1]) + SliceProfit(v, slices[|slices| - 1])
  }

  ghost predicate Balanced(v: Venue, b: Book, initial: real) {
    b.balance == initial + Realised(v, b.slices)
  }
}
