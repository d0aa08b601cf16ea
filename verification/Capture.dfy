/**
 The risk snapshot a session captures from its broker: positions and orders as the paper broker reports
 them, checked against the routes, and the sums over them.
*/
module Capture {
  import opened Base
  import opened Risk
  import opened PaperBroker
  import opened Mirror
  import OrderStateMachine

  /** The broker's positions, each with the token of the first order of its instrument. */
  function TokenOf(orders: seq<PaperOrder>, instrument: string): string {
    if orders == [] then ""
    else if orders[0].snapshot.instrument == instrument then orders[0].snapshot.token
    else TokenOf(orders[1..], instrument)
  }

  function QueryPositions(p: Paper): seq<HeldPosition> {
    seq(|p.positions|, i requires 0 <= i < |p.positions| =>
      HeldPosition(p.positions[i].instrument, TokenOf(p.orders, p.positions[i].instrument), p.positions[i].quantity))
  }

  function QueryOrders(p: Paper): seq<OrderSnapshot> {
    seq(|p.orders|, i requires 0 <= i < |p.orders| => p.orders[i].snapshot)
  }

  // ---------------------------------------------------------------- positions

  datatype PositionView = PositionView(
    reconciliation: bool, authoritative: bool, marked: bool, instrumentPosition: int64, tokenPosition: int64,
    gross: uint64, instruments: set<string>, tokens: set<string>)

  const EMPTY_VIEW: PositionView := PositionView(false, true, true, 0, 0, 0, {}, {})

  type Routes = map<string, Route>

  predicate Misrouted(x: HeldPosition, routes: Routes) {
    || x.token == "" || x.quantity == 0
    || x.instrument !in routes || routes[x.instrument].instrument != x.instrument || routes[x.instrument].token != x.token
  }

  /** A position the session does not accept as the broker's word. */
  predicate Unusable(v: PositionView, x: HeldPosition, routes: Routes) {
    Misrouted(x, routes) || x.instrument in v.instruments || x.token in v.tokens
  }

  /** Such a position counts for nothing, except that its instrument may be taken. */
  function Doubt(v: PositionView, x: HeldPosition, routes: Routes): PositionView {
    v.(reconciliation := true, authoritative := false, marked := false,
       instruments := if Misrouted(x, routes) then v.instruments else v.instruments + {x.instrument})
  }

  predicate Priced(o: Observation) {
    && (o.bestBid.Some? || o.bestAsk.Some? || o.lastTrade.Some?)
    && o.bestBid != Some(0) && o.bestAsk != Some(0) && o.lastTrade != Some(0)
  }

  /** The highest price of a fresh, healthy observation. */
  function MarkPrice(o: Observation, now: instant, maximumAge: int64): uint64 {
    if Usable(o) && Priced(o) && o.receiveTime <= now && now - o.receiveTime <= maximumAge
    then Max(o.bestBid.GetOr(0), Max(o.bestAsk.GetOr(0), o.lastTrade.GetOr(0)))
    else 0
  }

  /** What the snapshot is taken for, and when. */
  datatype Context = Context(
    instrument: string, route: Option<Route>, routes: Routes, observations: map<string, Observation>, now: instant,
    maximumAge: int64)

  function SeePosition(v: PositionView, x: HeldPosition, c: Context): PositionView {
    if Unusable(v, x, c.routes) then Doubt(v, x, c.routes)
    else
      var v := v.(instruments := v.instruments + {x.instrument}, tokens := v.tokens + {x.token});
      var v := if x.instrument != c.instrument then v
               else match CheckedAdd(v.instrumentPosition, x.quantity)
                    case Some(sum) => v.(instrumentPosition := sum)
                    case None => v.(reconciliation := true, authoritative := false);
      var v := if c.route.None? || x.token != c.route.value.token then v
               else match CheckedAdd(v.tokenPosition, x.quantity)
                    case Some(sum) => v.(tokenPosition := sum)
                    case None => v.(reconciliation := true, authoritative := false);
      SeeValue(v, x, c)
  }

  /** The position's share of the gross premium, saturated when it does not fit. */
  function SeeValue(v: PositionView, x: HeldPosition, c: Context): PositionView {
    var size: uint64 := if x.quantity < 0 then -(x.quantity as int) else x.quantity;
    var mark := if x.instrument in c.observations then MarkPrice(c.observations[x.instrument], c.now, c.maximumAge) else 0;
    var v := if x.quantity != 0 && mark == 0 then v.(marked := false) else v;
    match CheckedMultiply(size, mark)
    case Some(value) =>
      if mark != 0 && v.gross <= UINT64_MAX - value then v.(gross := v.gross + value)
      else if size != 0 then v.(gross := UINT64_MAX) else v
    case None => v.(gross := UINT64_MAX)
  }

  function SeePositions(positions: seq<HeldPosition>, c: Context): PositionView {
    if positions == [] then EMPTY_VIEW
    else SeePosition(SeePositions(positions[..|positions| - 1], c), positions[|positions| - 1], c)
  }

  /** The loop over the reported positions. */
  method CapturePositions(positions: seq<HeldPosition>, c: Context) returns (v: PositionView)
    ensures v == SeePositions(positions, c)
  {
    hide SeePosition;
    v := EMPTY_VIEW;
    for i := 0 to |positions|
      invariant v == SeePositions(positions[..i], c)
    {
      assert positions[..i + 1][..i] == positions[..i];
      v := SeePosition(v, positions[i], c);
    }
    assert positions[..|positions|] == positions;
  }

  // ---------------------------------------------------------------- orders

  datatype OrderView = OrderView(
    reconciliation: bool, working: seq<WorkingOrder>, tokenSell: uint64, ids: set<string>,
    target: Option<WorkingOrder>, targetTerminal: bool)

  const NO_ORDERS: OrderView := OrderView(false, [], 0, {}, None, false)

  predicate Live(status: Status) {
    status.Working? || status.PartiallyFilled? || status.Undecided?
  }

  predicate Reported(status: Status) {
    Live(status) || Ended(status)
  }

  predicate UnusableOrder(v: OrderView, x: OrderSnapshot, routes: Routes) {
    || x.orderId in v.ids || x.token == "" || x.quantity == 0 || x.limitPrice == 0 || !Reported(x.status)
    || x.instrument !in routes || routes[x.instrument].instrument != x.instrument || routes[x.instrument].token != x.token
    || x.filled > x.quantity
  }

  function AsWorking(x: OrderSnapshot): WorkingOrder
    requires x.filled <= x.quantity
  {
    WorkingOrder(x.orderId, x.instrument, x.token, x.side, x.quantity - x.filled, x.limitPrice, x.filled)
  }

  function SeeOrder(v: OrderView, x: OrderSnapshot, route: Option<Route>, target: Option<string>, routes: Routes): OrderView {
    if UnusableOrder(v, x, routes) then v.(reconciliation := true, ids := v.ids + {x.orderId})
    else
      var v := v.(ids := v.ids + {x.orderId});
      var v := if !Live(x.status) then v
               else
                 var w := v.(working := v.working + [AsWorking(x)]);
                 if route.None? || x.token != route.value.token || !x.side.Sell? then w
                 else if w.tokenSell > UINT64_MAX - (x.quantity - x.filled) then w.(reconciliation := true)
                 else w.(tokenSell := w.tokenSell + (x.quantity - x.filled));
      if target == Some(x.orderId) then v.(target := Some(AsWorking(x)), targetTerminal := !Live(x.status)) else v
  }

  function SeeOrders(orders: seq<OrderSnapshot>, route: Option<Route>, target: Option<string>, routes: Routes): OrderView {
    if orders == [] then NO_ORDERS
    else SeeOrder(SeeOrders(orders[..|orders| - 1], route, target, routes), orders[|orders| - 1], route, target, routes)
  }

  /** The loop over the reported orders. */
  method CaptureOrders(orders: seq<OrderSnapshot>, route: Option<Route>, target: Option<string>, routes: Routes) returns (v: OrderView)
    ensures v == SeeOrders(orders, route, target, routes)
  {
    hide SeeOrder;
    v := NO_ORDERS;
    for i := 0 to |orders|
      invariant v == SeeOrders(orders[..i], route, target, routes)
    {
      assert orders[..i + 1][..i] == orders[..i];
      v := SeeOrder(v, orders[i], route, target, routes);
    }
    assert orders[..|orders|] == orders;
  }

  // ---------------------------------------------------------------- the snapshot

  /** What the session adds to the broker's word: authority, mapping and observation. */
  datatype Standing = Standing(
    killSwitch: bool, ready: bool, reconciliationRequired: bool, correlated: bool, mapping: MappingState, routeForToday: bool,
    mappingAge: int64, maximumMappingAge: int64, recentOrderTimes: seq<int64>, greeks: Option<GreekSnapshot>, pnl: Option<Pnl>)

  /** The snapshot taken from the paper broker. Nothing the broker says counts while its session is lost. */
  function Snap(p: Paper, intent: Intent, standing: Standing, c: Context): Snapshot {
    var authoritative := !p.health.Lost?;
    var v := if authoritative then SeePositions(QueryPositions(p), c)
             else EMPTY_VIEW.(reconciliation := true, authoritative := false, marked := false);
    var w := if authoritative then SeeOrders(QueryOrders(p), c.route, intent.target, c.routes)
             else NO_ORDERS.(reconciliation := true);
    Snapshot(c.now, standing.killSwitch, standing.ready,
             standing.reconciliationRequired || v.reconciliation || w.reconciliation, NewIntent, standing.correlated,
             standing.mapping, c.route, standing.routeForToday, standing.mappingAge, standing.maximumMappingAge, p.health,
             if intent.instrument in c.observations then Some(c.observations[intent.instrument]) else None,
             v.instrumentPosition, v.tokenPosition, w.tokenSell, v.gross, v.authoritative, v.marked, w.working,
             standing.recentOrderTimes, standing.greeks, standing.pnl,
             w.target.Some?, w.targetTerminal, w.target)
  }
}
