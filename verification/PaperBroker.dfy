/** The paper broker object. Its fields are those of the source, with each dictionary
    as the sequence of its values in insertion order; `B()` is the book they make up,
    and every method is tied to the function of the Paper module. */
module PaperBroker {
  import opened Wrappers
  import opened Market
  import opened Paper
  import PaperRuns

  class PaperBroker {
    const venue: Venue
    ghost const initial: real
    var balance: real
    var positions: seq<Position>
    var orders: seq<Order>
    var nextTicket: nat
    var bars: map<string, seq<Bar>>
    ghost var slices: seq<Slice>

    ghost function B(): Book
      reads this
    {
      Book(balance, positions, orders, nextTicket, bars, slices)
    }

    ghost predicate Valid()
      reads this
    {
      Sound(B()) && Balanced(venue, B(), initial) && Stocked(B()) && Tradable(venue)
    }

    constructor (venue: Venue, balance: real)
      requires Tradable(venue)
      ensures Valid() && B() == PaperRuns.Opened(balance) && this.venue == venue && initial == balance
    {
      this.venue, this.initial, this.balance := venue, balance, balance;
      positions, orders, nextTicket, bars, slices := [], [], 1, map[], [];
    }

    /** `_apply`: the dry run changes nothing and answers the same code. */
    method Apply(r: Request, commit: bool) returns (code: int)
      requires Valid()
      modifies this
      ensures code == Code(venue, old(B()), r)
      ensures B() == if commit then Committed(venue, old(B()), r) else old(B())
      ensures Valid()
    {
      PaperRuns.CommittedSound(venue, B(), r);
      PaperRuns.CommittedBalanced(venue, B(), r, initial);
      PaperRuns.CommittedStocked(venue, B(), r);
      if !venue.tradeAllowed {
        return TRADE_DISABLED;
      }
      match r {
        case Sltp(_, _, _) => code := ModifySltp(r, commit);
        case Amend(_, _, _, _) => code := ModifyPending(r, commit);
        case Place(_, _, _, _, _, _, _, _) => code := PlacePending(r, commit);
        case Remove(_) => code := RemovePending(r, commit);
        case CloseBy(_, _) => code := CloseByOther(r, commit);
        case Deal(position, _, _, _, _, _, _) =>
          if position != 0 {
            code := Close(r, commit);
          } else {
            code := Open(r, commit);
          }
        case OtherAction => code := INVALID;
      }
    }

    method Open(r: Request, commit: bool) returns (code: int)
      requires venue.tradeAllowed && r.Deal? && r.position == 0
      modifies this`nextTicket, this`positions
      ensures code == Code(venue, old(B()), r)
      ensures B() == if commit then Committed(venue, old(B()), r) else old(B())
    {
      var spec := venue.spec(r.symbol);
      var t := TickOf(venue, bars, r.symbol);
      var price := if r.side == Buy then t.ask else t.bid;
      if !(spec.volumeMin <= Paper.Lots(r.volume) <= spec.volumeMax) {
        return INVALID_VOLUME;
      }
      if r.sl <= 0.0 {
        return INVALID_STOPS;
      }
      if Abs(price - r.sl) < spec.MinStopDistance() - spec.point / 2.0 {
        return INVALID_STOPS;
      }
      var free := AccountFree();
      if MarginOf(venue, r.symbol, r.volume, price) > free {
        return NO_MONEY;
      }
      if commit {
        var ticket := nextTicket;
        nextTicket := nextTicket + 1;
        positions := positions + [Position(ticket, r.symbol, r.side, r.volume, spec.Normalize(price),
                                           spec.Normalize(r.sl), RoundedOrZero(spec, r.tp), r.magic)];
      }
      code := DONE;
    }

    /** `account().margin_free`: two passes over the positions. */
    method AccountFree() returns (free: real)
      ensures free == FreeMargin(venue, B())
    {
      var profit, margin := 0.0, 0.0;
      var i := |positions|;
      while i > 0
        invariant 0 <= i <= |positions|
        invariant profit == MarkedPnl(venue, bars, positions[i..])
        invariant margin == UsedMargin(venue, positions[i..])
      {
        i := i - 1;
        var p := positions[i];
        assert positions[i..] == [p] + positions[i + 1..];
        profit := Pnl(p, Mark(venue, bars, p), venue.spec(p.symbol), p.volume) + profit;
        margin := MarginOf(venue, p.symbol, p.volume, p.priceOpen) + margin;
      }
      assert positions[0..] == positions;
      free := balance + profit - margin;
    }

    /** The whole position's profit times the closed fraction goes to the balance. */
    method Close(r: Request, commit: bool) returns (code: int)
      requires venue.tradeAllowed && r.Deal? && r.position != 0
      requires forall i :: 0 <= i < |positions| ==> positions[i].volume > 0
      modifies this`balance, this`positions, this`slices
      ensures code == Code(venue, old(B()), r)
      ensures B() == if commit then Committed(venue, old(B()), r) else old(B())
    {
      var found := Find(positions, r.position);
      if found.None? {
        return POSITION_CLOSED;
      }
      FindGives(positions, r.position);
      var p := found.value;
      if r.volume > p.volume {
        return INVALID_VOLUME;
      }
      var price := Mark(venue, bars, p);
      var pnl := Pnl(p, price, venue.spec(p.symbol), p.volume) * Fraction(r.volume, p.volume);
      FractionOfPnl(p, price, venue.spec(p.symbol), r.volume);
      if commit {
        balance := balance + pnl;
        if r.volume == p.volume {
          positions := Dropped(positions, p.ticket);
        } else {
          positions := Replaced(positions, p.(volume := p.volume - r.volume));
        }
        slices := slices + [Slice(p, r.volume, price)];
      }
      code := DONE;
    }

    method CloseByOther(r: Request, commit: bool) returns (code: int)
      requires venue.tradeAllowed && r.CloseBy?
      requires forall i :: 0 <= i < |positions| ==> positions[i].volume > 0
      modifies this`balance, this`positions, this`slices
      ensures code == Code(venue, old(B()), r)
      ensures B() == if commit then Committed(venue, old(B()), r) else old(B())
    {
      hide Find, Dropped, Replaced, Pnl, Mark, Fraction, PaperRuns.Opened;
      var fa, fc := Find(positions, r.position), Find(positions, r.other);
      if fa.None? || fc.None? {
        return POSITION_CLOSED;
      }
      var a, c := fa.value, fc.value;
      if r.position == r.other || a.symbol != c.symbol || a.side == c.side {
        return INVALID;
      }
      var spec, vol := venue.spec(a.symbol), if c.volume < a.volume then c.volume else a.volume;
      var restA, restC := Lots(a.volume - vol), Lots(c.volume - vol);
      if (restA > 0.000000000001 && restA < spec.volumeMin - 0.000000000001)
         || (restC > 0.000000000001 && restC < spec.volumeMin - 0.000000000001)
      {
        return INVALID_VOLUME;
      }
      code := DONE;
      if !commit {
        return;
      }
      FindGives(positions, r.position);
      FindGives(positions, r.other);
      var pxA, pxC := Mark(venue, bars, a), Mark(venue, bars, c);
      FractionOfPnl(a, pxA, spec, vol);
      FractionOfPnl(c, pxC, spec, vol);
      balance := balance + Pnl(a, pxA, spec, a.volume) * Fraction(vol, a.volume);
      balance := balance + Pnl(c, pxC, spec, c.volume) * Fraction(vol, c.volume);
      if restA <= 0.000000000001 {
        positions := Dropped(positions, a.ticket);
      } else {
        positions := Replaced(positions, a.(volume := a.volume - vol));
      }
      if restC <= 0.000000000001 {
        positions := Dropped(positions, c.ticket);
      } else {
        positions := Replaced(positions, c.(volume := c.volume - vol));
      }
      slices := slices + [Slice(a, vol, pxA)] + [Slice(c, vol, pxC)];
    }

    method ModifySltp(r: Request, commit: bool) returns (code: int)
      requires venue.tradeAllowed && r.Sltp?
      modifies this`positions
      ensures code == Code(venue, old(B()), r)
      ensures B() == if commit then Committed(venue, old(B()), r) else old(B())
    {
      var found := Find(positions, r.position);
      if found.None? {
        return POSITION_CLOSED;
      }
      if commit {
        var p := found.value;
        var spec := venue.spec(p.symbol);
        var sl, tp := OrKeep(r.newSl, p.sl), OrKeep(r.newTp, p.tp);
        positions := Replaced(positions, p.(sl := spec.Normalize(sl), tp := RoundedOrZero(spec, tp)));
      }
      code := DONE;
    }

    method ModifyPending(r: Request, commit: bool) returns (code: int)
      requires venue.tradeAllowed && r.Amend?
      modifies this`orders
      ensures code == Code(venue, old(B()), r)
      ensures B() == if commit then Committed(venue, old(B()), r) else old(B())
    {
      var found := FindOrder(orders, r.order);
      if found.None? {
        return INVALID_ORDER;
      }
      var o := found.value;
      var spec := venue.spec(o.symbol);
      var price := AmendedPrice(r.newPrice, o.price);
      if price <= 0.0 {
        return INVALID_PRICE;
      }
      if commit {
        var sl, tp := OrKeep(r.newSl, o.sl), OrKeep(r.newTp, o.tp);
        orders := ReplacedOrder(orders, o.(price := spec.Normalize(price), sl := RoundedOrZero(spec, sl),
                                           tp := RoundedOrZero(spec, tp)));
      }
      code := DONE;
    }

    method PlacePending(r: Request, commit: bool) returns (code: int)
      requires venue.tradeAllowed && r.Place?
      modifies this`orders, this`nextTicket
      ensures code == Code(venue, old(B()), r)
      ensures B() == if commit then Committed(venue, old(B()), r) else old(B())
    {
      if r.kind.None? {
        return INVALID;
      }
      var spec := venue.spec(r.symbol);
      if !(spec.volumeMin <= Paper.Lots(r.volume) <= spec.volumeMax) {
        return INVALID_VOLUME;
      }
      if r.price <= 0.0 {
        return INVALID_PRICE;
      }
      if commit {
        var ticket := nextTicket;
        nextTicket := nextTicket + 1;
        orders := orders + [Order(ticket, r.symbol, r.side, r.kind.value, r.volume, spec.Normalize(r.price),
                                  RoundedOrZero(spec, r.sl), RoundedOrZero(spec, r.tp), r.magic)];
      }
      code := PLACED;
    }

    method RemovePending(r: Request, commit: bool) returns (code: int)
      requires venue.tradeAllowed && r.Remove?
      modifies this`orders
      ensures code == Code(venue, old(B()), r)
      ensures B() == if commit then Committed(venue, old(B()), r) else old(B())
    {
      var found := FindOrder(orders, r.order);
      if found.None? {
        return POSITION_CLOSED;
      }
      if commit {
        orders := DroppedOrder(orders, r.order);
      }
      code := DONE;
    }

    method FillPending(o: Order) returns (filled: bool)
      modifies this`orders, this`positions
      ensures filled <==> Affordable(venue, old(B()), o)
      ensures B() == if filled then WithFill(venue, old(B()), o) else old(B())
    {
      var spec := venue.spec(o.symbol);
      var price := spec.Normalize(o.price);
      var free := AccountFree();
      if MarginOf(venue, o.symbol, o.volume, price) > free {
        return false;
      }
      orders := DroppedOrder(orders, o.ticket);
      positions := positions + [Position(o.ticket, o.symbol, o.side, o.volume, price,
                                         RoundedOrZero(spec, o.sl), RoundedOrZero(spec, o.tp), o.magic)];
      filled := true;
    }

    /** Over a snapshot of the orders, so a fill never disturbs the walk. */
    method ResolvePending(symbol: Option<string>, bar: Option<Bar>) returns (filled: seq<nat>)
      modifies this`orders, this`positions
      ensures (B(), filled) == Resolved(venue, old(B()), old(orders), symbol, bar)
    {
      filled := [];
      var todo := orders;
      var i := 0;
      while i < |todo|
        invariant 0 <= i <= |todo|
        invariant (B(), filled) == Resolved(venue, old(B()), todo[..i], symbol, bar)
      {
        var o := todo[i];
        assert todo[..i + 1][..i] == todo[..i];
        var skip := symbol.Some? && o.symbol != symbol.value;
        if !skip {
          var hit := if bar.Some? then HitByBar(o, bar.value) else HitByTick(o, TickOf(venue, bars, o.symbol));
          if hit {
            var done := FillPending(o);
            if done {
              filled := filled + [o.ticket];
            }
          }
        }
        i := i + 1;
      }
      assert todo[..i] == todo;
    }

    /** Append the bar, fill what it triggers, then take out what it stops. */
    method OnBar(symbol: string, bar: Bar) returns (closed: seq<nat>)
      requires Valid()
      modifies this
      ensures (B(), closed) == Paper.OnBar(venue, old(B()), symbol, bar)
      ensures Valid()
    {
      PaperRuns.OnBarExactly(venue, B(), symbol, bar, initial);
      PaperRuns.OnBarStocked(venue, B(), symbol, bar);
      bars := bars[symbol := (if symbol in bars then bars[symbol] else []) + [bar]];
      var filled := ResolvePending(Some(symbol), Some(bar));
      closed := ExitTouched(symbol, bar);
    }

    method ExitTouched(symbol: string, bar: Bar) returns (closed: seq<nat>)
      modifies this`balance, this`positions, this`slices
      ensures (B(), closed) == Exited(venue, old(B()), old(positions), symbol, bar)
    {
      closed := [];
      var todo := positions;
      var i := 0;
      while i < |todo|
        invariant 0 <= i <= |todo|
        invariant (B(), closed) == Exited(venue, old(B()), todo[..i], symbol, bar)
      {
        var p := todo[i];
        assert todo[..i + 1][..i] == todo[..i];
        if p.symbol == symbol {
          var hit := HitLevel(p, bar);
          if hit.Some? {
            balance := balance + Pnl(p, hit.value, venue.spec(p.symbol), p.volume);
            positions := Dropped(positions, p.ticket);
            slices := slices + [Slice(p, p.volume, hit.value)];
            closed := closed + [p.ticket];
          }
        }
        i := i + 1;
      }
      assert todo[..i] == todo;
    }
  }
}
