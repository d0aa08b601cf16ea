/**
 When the paper broker fills: for every order and observation, in terms of the order's own fields and the market's.
*/
module PaperFills {
  import opened Base
  import opened Risk
  import opened PaperBroker
  import OrderStateMachine

  // ---------------------------------------------------------------- by the fields

  /** The broker looks at an observation that was received from the exchange in order, and is fit to trade on. */
  predicate Heeded(p: Paper, o: Observation) {
    && p.health == Ready && o.fromDhan && o.observed && !o.stale && !o.crossed && !o.unusable && 0 <= o.receiveTime
    && (o.exchangeTime.Some? ==> 0 <= o.exchangeTime.value <= o.receiveTime)
    && (o.bestBid.Some? && o.bestAsk.Some? ==> o.bestBid.value <= o.bestAsk.value)
  }

  /** The order is open, and was submitted before everything the observation says of its instrument. */
  predicate Meets(order: PaperOrder, o: Observation) {
    && order.snapshot.status != Filled && order.snapshot.status != Cancelled && order.snapshot.status != Rejected
    && order.snapshot.instrument == o.instrument && order.request.submittedAt < o.receiveTime
    && (o.exchangeTime.Some? ==> order.request.submittedAt < o.exchangeTime.value <= o.receiveTime)
  }

  /** A buyer finds an ask or a trade at the limit or below it, a seller a bid or a trade at the limit or above. */
  predicate Touches(order: PaperOrder, o: Observation) {
    if order.snapshot.side == OrderStateMachine.Buy then
      || (o.bestAsk.Some? && o.bestAsk.value <= order.snapshot.limitPrice)
      || (o.lastTrade.Some? && o.lastTrade.value <= order.snapshot.limitPrice)
    else
      || (o.bestBid.Some? && o.bestBid.value >= order.snapshot.limitPrice)
      || (o.lastTrade.Some? && o.lastTrade.value >= order.snapshot.limitPrice)
  }

  /** The order fills: something was traded since it was last looked at, at a price it accepts, and it is not still
      waiting for its first look after a restart. */
  predicate Reached(order: PaperOrder, o: Observation) {
    && Meets(order, o) && !order.awaitingBaseline && order.observedVolume < o.volume && Touches(order, o)
    && order.snapshot.filled < order.snapshot.quantity
  }

  /** What an observation makes of an order: a fill is whole, and an order that is met remembers the volume. */
  predicate Looked(order: PaperOrder, o: Observation, n: PaperOrder) {
    && n.request == order.request
    && n.snapshot == (if Reached(order, o)
                      then order.snapshot.(filled := order.snapshot.quantity, status := Filled) else order.snapshot)
    && (Meets(order, o) ==>
          && n.observedVolume == o.volume && !n.awaitingBaseline
          && (n.volumeReset <==> !order.awaitingBaseline && o.volume < order.observedVolume))
    && (!Meets(order, o) ==> n == order)
  }

  /** The fill of a whole order, at its limit price. */
  predicate FillsWhole(order: PaperOrder, o: Observation, fill: Fill) {
    && fill.orderId == order.snapshot.orderId && fill.instrument == order.snapshot.instrument
    && fill.token == order.snapshot.token && fill.cumulative == order.snapshot.quantity
    && fill.last == order.snapshot.quantity - order.snapshot.filled && fill.price == order.snapshot.limitPrice
    && fill.timestamp == o.receiveTime
  }

  /** The indexes, from `i` on, of the orders that fill. */
  function ReachedFrom(orders: seq<PaperOrder>, i: nat, o: Observation): (indexes: seq<nat>)
    requires i <= |orders|
    ensures forall k :: 0 <= k < |indexes| ==> i <= indexes[k] < |orders| && Reached(orders[indexes[k]], o)
    ensures forall k, l :: 0 <= k < l < |indexes| ==> indexes[k] < indexes[l]
    ensures forall n :: i <= n < |orders| && Reached(orders[n], o) ==> n in indexes
    decreases |orders| - i
  {
    if i == |orders| then []
    else if Reached(orders[i], o) then [i] + ReachedFrom(orders, i + 1, o)
    else ReachedFrom(orders, i + 1, o)
  }

  // ---------------------------------------------------------------- one order

  lemma {:induction false} WholeFill(p: Paper, i: nat, timestamp: int64)
    requires Sound(p) && i < |p.orders|
    ensures var (q, fill) := FillAt(p, i, p.orders[i].snapshot.quantity, timestamp);
            var x := p.orders[i].snapshot;
            && |q.orders| == |p.orders| && q.orders[i] == p.orders[i].(snapshot := x.(filled := x.quantity, status := Filled))
            && (forall n :: 0 <= n < |p.orders| && n != i ==> q.orders[n] == p.orders[n])
            && fill.orderId == x.orderId && fill.instrument == x.instrument && fill.token == x.token && fill.cumulative == x.quantity
            && fill.last == x.quantity - x.filled && fill.price == x.limitPrice && fill.timestamp == timestamp
            && q.marks == p.marks && q.latest == p.latest && q.scripted == p.scripted
  {
    hide PaperId, Notional, SetQuantity, Quantity, AddValues, UniqueOrders, UniquePositions;
  }

  lemma {:induction false} OneOrderIsLooked(p: Paper, i: nat, o: Observation)
    requires Sound(p) && i < |p.orders|
    ensures var (q, fill) := ObserveOrder(p, i, o);
            && |q.orders| == |p.orders| && Looked(p.orders[i], o, q.orders[i])
            && (forall n :: 0 <= n < |p.orders| && n != i ==> q.orders[n] == p.orders[n])
            && (fill.Some? <==> Reached(p.orders[i], o)) && (fill.Some? ==> FillsWhole(p.orders[i], o, fill.value))
            && q.marks == p.marks && q.latest == p.latest && q.scripted == p.scripted
  {
    var order := p.orders[i];
    var seen := p.(orders := p.orders[i := order.(observedVolume := o.volume, volumeReset := false)]);
    SeenIsSound(p, i, order.(observedVolume := o.volume, volumeReset := false));
    WholeFill(seen, i, o.receiveTime);
    hide FillAt, Sound;
  }

  lemma SeenIsSound(p: Paper, i: nat, order: PaperOrder)
    requires Sound(p) && i < |p.orders| && order.snapshot == p.orders[i].snapshot && order.request == p.orders[i].request
    ensures Sound(p.(orders := p.orders[i := order]))
  {
  }

  // ---------------------------------------------------------------- every order

  /** The orders from `i` on are looked at in turn. */
  lemma {:induction false} OrdersAreLooked(p: Paper, i: nat, o: Observation, generated: seq<Fill>)
    requires Sound(p) && i <= |p.orders|
    ensures var q := ObserveOrders(p, i, o, generated).0;
            && |q.orders| == |p.orders| && (forall n :: 0 <= n < i ==> q.orders[n] == p.orders[n])
            && (forall n :: i <= n < |p.orders| ==> Looked(p.orders[n], o, q.orders[n]))
            && q.marks == p.marks && q.latest == p.latest
    decreases |p.orders| - i
  {
    hide ObserveOrder, Sound, Looked, FillsWhole, Reached, Equity;
    if i < |p.orders| {
      ObserveOrderIsSound(p, i, o);
      OneOrderIsLooked(p, i, o);
      var (next, fill) := ObserveOrder(p, i, o);
      OrdersAreLooked(next, i + 1, o, if fill.Some? then generated + [fill.value] else generated);
    }
  }

  /** After those already `generated`, the fills are of the orders from `i` on that are reached, in turn. */
  ghost predicate InTurn(orders: seq<PaperOrder>, i: nat, o: Observation, generated: seq<Fill>, fills: seq<Fill>)
    requires i <= |orders|
  {
    var reached := ReachedFrom(orders, i, o);
    && |fills| == |generated| + |reached| && fills[..|generated|] == generated
    && (forall k :: 0 <= k < |reached| ==> FillsWhole(orders[reached[k]], o, fills[|generated| + k]))
  }

  lemma {:induction false} FirstInTurn(orders: seq<PaperOrder>, i: nat, o: Observation, generated: seq<Fill>, fill: Fill,
                                       fills: seq<Fill>)
    requires i < |orders| && Reached(orders[i], o) && FillsWhole(orders[i], o, fill)
    requires InTurn(orders, i + 1, o, generated + [fill], fills)
    ensures InTurn(orders, i, o, generated, fills)
  {
    hide Reached, FillsWhole;
    var rest, reached := ReachedFrom(orders, i + 1, o), ReachedFrom(orders, i, o);
    assert reached == [i] + rest;
    hide ReachedFrom;
    assert fills[..|generated|] == fills[..|generated| + 1][..|generated|];
    assert fills[|generated|] == fills[..|generated| + 1][|generated|];
    forall k | 0 <= k < |reached| ensures FillsWhole(orders[reached[k]], o, fills[|generated| + k]) {
      if k > 0 {
        assert FillsWhole(orders[rest[k - 1]], o, fills[|generated + [fill]| + (k - 1)]);
      }
    }
  }

  lemma InTurnOfSame(a: seq<PaperOrder>, b: seq<PaperOrder>, i: nat, o: Observation, generated: seq<Fill>, fills: seq<Fill>)
    requires |a| == |b| && i <= |a| && (forall n :: i <= n < |a| ==> a[n] == b[n]) && InTurn(b, i, o, generated, fills)
    ensures InTurn(a, i, o, generated, fills)
  {
    hide Reached, FillsWhole;
    SameReached(a, b, i, o);
  }

  /** Those that it reaches are filled, in turn. */
  lemma {:induction false} FillsAreInTurn(p: Paper, i: nat, o: Observation, generated: seq<Fill>)
    requires Sound(p) && i <= |p.orders|
    ensures InTurn(p.orders, i, o, generated, ObserveOrders(p, i, o, generated).1)
    decreases |p.orders| - i
  {
    hide ObserveOrder, Sound, Looked, FillsWhole, Reached, Equity;
    if i < |p.orders| {
      ObserveOrderIsSound(p, i, o);
      OneOrderIsLooked(p, i, o);
      var (next, fill) := ObserveOrder(p, i, o);
      var more := if fill.Some? then generated + [fill.value] else generated;
      FillsAreInTurn(next, i + 1, o, more);
      var fills := ObserveOrders(next, i + 1, o, more).1;
      hide InTurn;
      InTurnOfSame(p.orders, next.orders, i + 1, o, more, fills);
      if fill.Some? {
        FirstInTurn(p.orders, i, o, generated, fill.value, fills);
      } else {
        NotInTurn(p.orders, i, o, generated, fills);
      }
    }
  }

  lemma NotInTurn(orders: seq<PaperOrder>, i: nat, o: Observation, generated: seq<Fill>, fills: seq<Fill>)
    requires i < |orders| && !Reached(orders[i], o) && InTurn(orders, i + 1, o, generated, fills)
    ensures InTurn(orders, i, o, generated, fills)
  {
    hide Reached, FillsWhole;
  }

  lemma {:induction false} SameReached(a: seq<PaperOrder>, b: seq<PaperOrder>, i: nat, o: Observation)
    requires |a| == |b| && i <= |a| && forall n :: i <= n < |a| ==> a[n] == b[n]
    ensures ReachedFrom(a, i, o) == ReachedFrom(b, i, o)
    decreases |a| - i
  {
    hide Reached;
    if i < |a| {
      SameReached(a, b, i + 1, o);
    }
  }

  lemma HeededIsUsable(p: Paper, o: Observation)
    ensures Heeded(p, o) <==> p.health.Ready? && Usable(o)
  {
  }

  lemma MarkedIsSound(p: Paper, o: Observation)
    requires Sound(p)
    ensures Sound(Marked(p, o))
  {
  }

  /** Main result: an observation fills exactly the orders that it reaches, each whole and at its limit price, in the
      order of their ids; it moves the volume that the orders it meets remember, and nothing of any other order; an
      observation that is not heeded changes nothing, and a scripted broker fills nothing. */
  lemma {:induction false} FillsAreReached(p: Paper, o: Observation)
    requires Sound(p)
    ensures var (q, fills) := Observe(p, o);
            if !Heeded(p, o) then q == p && fills == []
            else if p.scripted then q.orders == p.orders && fills == []
            else
              var reached := ReachedFrom(p.orders, 0, o);
              && |q.orders| == |p.orders| && (forall n :: 0 <= n < |p.orders| ==> Looked(p.orders[n], o, q.orders[n]))
              && |fills| == |reached| && (forall k :: 0 <= k < |reached| ==> FillsWhole(p.orders[reached[k]], o, fills[k]))
    ensures Heeded(p, o) ==>
              var (q, m) := (Observe(p, o).0, Mark(o.bestBid, o.bestAsk, o.lastTrade, o.receiveTime));
              && q.latest == Max(p.latest, o.receiveTime)
              && q.marks == (if o.instrument in p.marks && o.receiveTime < p.marks[o.instrument].timestamp then p.marks
                             else p.marks[o.instrument := m])
  {
    HeededIsUsable(p, o);
    MarkedIsSound(p, o);
    hide Heeded, Usable, Sound, Looked, FillsWhole, Reached, AddValues;
    if p.health.Ready? && Usable(o) && !p.scripted {
      OrdersAreLooked(Marked(p, o), 0, o, []);
      FillsAreInTurn(Marked(p, o), 0, o, []);
      hide ObserveOrders;
    }
  }
}
