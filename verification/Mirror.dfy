/**
 The session's mirror of its broker: the orders, fills and positions it expects the broker to report, as
 each outcome and update changes them.
*/
module Mirror {
  import opened Base
  import opened PaperBroker
  import OrderStateMachine
  import Risk

  datatype HeldPosition = HeldPosition(instrument: string, token: string, quantity: int64)

  datatype Mirrored = Mirrored(orders: seq<OrderSnapshot>, fills: seq<Fill>, positions: seq<HeldPosition>)

  /** The first mirrored order with this id. */
  function Find(orders: seq<OrderSnapshot>, id: string): Option<nat> {
    if orders == [] then None
    else if orders[0].orderId == id then Some(0)
    else
      match Find(orders[1..], id)
      case Some(i) => Some(i + 1)
      case None => None
  }

  function FindHeld(positions: seq<HeldPosition>, instrument: string): Option<nat> {
    if positions == [] then None
    else if positions[0].instrument == instrument then Some(0)
    else
      match FindHeld(positions[1..], instrument)
      case Some(i) => Some(i + 1)
      case None => None
  }

  /** The name under which a broker reports a state of the order machine. */
  function StatusOf(state: OrderStateMachine.OrderState): Status {
    match state
    case Acknowledged => Working
    case PartiallyFilled => PartiallyFilled
    case Filled => Filled
    case Cancelled => Cancelled
    case Rejected => Rejected
    case _ => Unreported
  }

  // ---------------------------------------------------------------- outcomes of requests

  function AfterPlace(m: Mirrored, id: string, route: Risk.Route, side: Side, quantity: uint64, limitPrice: uint64): Mirrored {
    m.(orders := m.orders + [OrderSnapshot(id, route.instrument, route.token, side, quantity, limitPrice, 0, Working)])
  }

  function AfterModify(m: Mirrored, id: string, quantity: uint64, limitPrice: uint64): Mirrored {
    match Find(m.orders, id)
    case Some(i) =>
      if i < |m.orders| then m.(orders := m.orders[i := m.orders[i].(quantity := quantity, limitPrice := limitPrice)]) else m
    case None => m
  }

  function AfterCancel(m: Mirrored, id: string): Mirrored {
    match Find(m.orders, id)
    case Some(i) => if i < |m.orders| then m.(orders := m.orders[i := m.orders[i].(status := Cancelled)]) else m
    case None => m
  }

  // ---------------------------------------------------------------- updates

  /** The mirror after an update took its order to `order`, with what the update says of its fill. */
  function AfterUpdate(m: Mirrored, i: nat, order: OrderStateMachine.Order, delta: int, updateId: string, price: uint64, timestamp: int64)
      : Mirrored
    requires i < |m.orders|
  {
    var next := m.orders[i].(quantity := order.effectiveQuantity, limitPrice := order.limitPrice, filled := order.filled,
                             status := StatusOf(order.state));
    var told := m.(orders := m.orders[i := next]);
    if delta == 0 || !(-INT64_MAX <= delta <= INT64_MAX) then told
    else
      var fill := Fill(updateId, next.orderId, next.instrument, next.token, order.filled,
                       if delta < 0 then -delta else delta, price, timestamp);
      told.(fills := m.fills + [fill], positions := AfterFill(m.positions, next.instrument, next.token, delta))
  }

  function AfterFill(positions: seq<HeldPosition>, instrument: string, token: string, delta: int): seq<HeldPosition> {
    match FindHeld(positions, instrument)
    case Some(i) =>
      if i < |positions| then positions[i := positions[i].(quantity := Plus(positions[i].quantity, delta))] else positions
    case None => positions + [HeldPosition(instrument, token, Plus(0, delta))]
  }
}
