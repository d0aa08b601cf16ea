/**
 What the captured snapshot shows of the broker's reports: exactly when they are trusted, and which sums and orders of
 theirs it holds then.
*/
module CaptureExact {
  import opened Base
  import opened Risk
  import opened PaperBroker
  import opened Mirror
  import opened Capture
  import OrderStateMachine

  // ---------------------------------------------------------------- positions, by their fields

  /** A position that is open, on the route of its instrument. */
  predicate Trusted(x: HeldPosition, routes: Routes) {
    && x.quantity != 0 && x.token != "" && x.instrument in routes
    && routes[x.instrument].instrument == x.instrument && routes[x.instrument].token == x.token
  }

  ghost predicate Distinct(xs: seq<HeldPosition>) {
    forall i, j :: 0 <= i < j < |xs| ==> xs[i].instrument != xs[j].instrument && xs[i].token != xs[j].token
  }

  ghost predicate AllTrusted(xs: seq<HeldPosition>, routes: Routes) {
    (forall i :: 0 <= i < |xs| ==> Trusted(xs[i], routes)) && Distinct(xs)
  }

  function Instruments(xs: seq<HeldPosition>): set<string> {
    set i | 0 <= i < |xs| :: xs[i].instrument
  }

  function Tokens(xs: seq<HeldPosition>): set<string> {
    set i | 0 <= i < |xs| :: xs[i].token
  }

  /** What is held of an instrument. */
  function OfInstrument(xs: seq<HeldPosition>, instrument: string): int {
    if xs == [] then 0
    else
      var last := xs[|xs| - 1];
      OfInstrument(xs[..|xs| - 1], instrument) + if last.instrument == instrument then last.quantity else 0
  }

  /** What is held under the token of a route. */
  function OnRoute(xs: seq<HeldPosition>, route: Option<Route>): int {
    if xs == [] then 0
    else
      var last := xs[|xs| - 1];
      OnRoute(xs[..|xs| - 1], route) + if route.Some? && last.token == route.value.token then last.quantity else 0
  }

  /** An observation at which a position can be valued: received in order, fit to trade on, fresh, and with prices. */
  predicate Values(o: Observation, c: Context) {
    && o.fromDhan && o.observed && !o.stale && !o.crossed && !o.unusable
    && 0 <= o.receiveTime <= c.now && c.now - o.receiveTime <= c.maximumAge
    && (o.exchangeTime.Some? ==> 0 <= o.exchangeTime.value <= o.receiveTime)
    && (o.bestBid.Some? && o.bestAsk.Some? ==> o.bestBid.value <= o.bestAsk.value)
    && o.bestBid != Some(0) && o.bestAsk != Some(0) && o.lastTrade != Some(0)
    && (o.bestBid.Some? || o.bestAsk.Some? || o.lastTrade.Some?)
  }

  /** The highest price that an observation shows. */
  function HighestPrice(o: Observation): int {
    var bid := if o.bestBid.Some? then o.bestBid.value else 0;
    var ask := if o.bestAsk.Some? then o.bestAsk.value else 0;
    var trade := if o.lastTrade.Some? then o.lastTrade.value else 0;
    if bid >= ask && bid >= trade then bid else if ask >= trade then ask else trade
  }

  /** Every position has an observation to value it at. */
  predicate AllValued(xs: seq<HeldPosition>, c: Context) {
    forall i :: 0 <= i < |xs| ==> xs[i].instrument in c.observations && Values(c.observations[xs[i].instrument], c)
  }

  /** The sizes of the positions, each at the highest price of its observation. */
  function GrossOf(xs: seq<HeldPosition>, c: Context): int
    requires AllValued(xs, c)
  {
    if xs == [] then 0
    else
      var last := xs[|xs| - 1];
      var size: int := if last.quantity < 0 then -(last.quantity as int) else last.quantity;
      GrossOf(xs[..|xs| - 1], c) + size * HighestPrice(c.observations[last.instrument])
  }

  // ---------------------------------------------------------------- one position

  lemma MarkIsHighest(o: Observation, c: Context)
    ensures MarkPrice(o, c.now, c.maximumAge) == if Values(o, c) then HighestPrice(o) else 0
    ensures Values(o, c) ==> HighestPrice(o) > 0
  {
  }

  lemma TrustedIsUsable(v: PositionView, x: HeldPosition, routes: Routes)
    ensures Unusable(v, x, routes) <==> !Trusted(x, routes) || x.instrument in v.instruments || x.token in v.tokens
  {
  }

  lemma SeeDoubted(v: PositionView, x: HeldPosition, c: Context)
    requires Unusable(v, x, c.routes)
    ensures var w := SeePosition(v, x, c); !w.authoritative && !w.marked && w.reconciliation
  {
    hide Unusable;
  }

  /** The part of the view that does not depend on marks. */
  lemma SeeHeld(v: PositionView, x: HeldPosition, c: Context)
    requires !Unusable(v, x, c.routes)
    ensures var w := SeePosition(v, x, c);
            && w.instruments == v.instruments + {x.instrument} && w.tokens == v.tokens + {x.token}
            && (v.reconciliation ==> w.reconciliation) && (!v.authoritative ==> !w.authoritative)
            && var a := v.instrumentPosition + if x.instrument == c.instrument then x.quantity else 0;
               var b := v.tokenPosition + if c.route.Some? && x.token == c.route.value.token then x.quantity else 0;
               && (INT64_MIN <= a <= INT64_MAX && INT64_MIN <= b <= INT64_MAX ==>
                     w.authoritative == v.authoritative && w.instrumentPosition == a && w.tokenPosition == b
                     && w.reconciliation == v.reconciliation)
  {
    hide SeeValue, Unusable;
    var w := v.(instruments := v.instruments + {x.instrument}, tokens := v.tokens + {x.token});
    var w1 := if x.instrument != c.instrument then w
              else match CheckedAdd(w.instrumentPosition, x.quantity)
                   case Some(sum) => w.(instrumentPosition := sum)
                   case None => w.(reconciliation := true, authoritative := false);
    var w2 := if c.route.None? || x.token != c.route.value.token then w1
              else match CheckedAdd(w1.tokenPosition, x.quantity)
                   case Some(sum) => w1.(tokenPosition := sum)
                   case None => w1.(reconciliation := true, authoritative := false);
    ValueIsApart(w2, x, c);
  }

  lemma ValueIsApart(v: PositionView, x: HeldPosition, c: Context)
    ensures SeeValue(v, x, c) == v.(marked := SeeValue(v, x, c).marked, gross := SeeValue(v, x, c).gross)
  {
    hide MarkPrice, CheckedMultiply;
  }

  /** The part of the view that does. */
  lemma SeeGross(v: PositionView, x: HeldPosition, c: Context)
    requires !Unusable(v, x, c.routes) && x.quantity != 0
    ensures var w := SeePosition(v, x, c);
            var valued := x.instrument in c.observations && Values(c.observations[x.instrument], c);
            && (w.marked <==> v.marked && valued)
            && (valued ==>
                  var size: int := if x.quantity < 0 then -(x.quantity as int) else x.quantity;
                  w.gross == Min(UINT64_MAX, v.gross + size * HighestPrice(c.observations[x.instrument])))
  {
    hide Unusable, Values, HighestPrice, MarkPrice, ProductOverflows;
    if x.instrument in c.observations {
      var o := c.observations[x.instrument];
      MarkIsHighest(o, c);
      var size: uint64 := if x.quantity < 0 then -(x.quantity as int) else x.quantity;
      ProductOverflowsIff(size, MarkPrice(o, c.now, c.maximumAge));
    }
  }

  // ---------------------------------------------------------------- all positions

  /** What a view of trusted positions shows. */
  ghost predicate Shows(v: PositionView, xs: seq<HeldPosition>, c: Context) {
    && v.authoritative && !v.reconciliation
    && v.instruments == Instruments(xs) && v.tokens == Tokens(xs)
    && v.instrumentPosition == OfInstrument(xs, c.instrument) && v.tokenPosition == OnRoute(xs, c.route)
    && (v.marked <==> AllValued(xs, c)) && (AllValued(xs, c) ==> v.gross == Min(UINT64_MAX, GrossOf(xs, c)))
  }

  lemma {:induction false} NotAmong(xs: seq<HeldPosition>, c: Context)
    ensures (forall i :: 0 <= i < |xs| ==> xs[i].instrument != c.instrument) ==> OfInstrument(xs, c.instrument) == 0
    ensures (forall i :: 0 <= i < |xs| ==> c.route.None? || xs[i].token != c.route.value.token) ==> OnRoute(xs, c.route) == 0
  {
    if xs != [] {
      NotAmong(xs[..|xs| - 1], c);
    }
  }

  /** Main result: the positions count as the broker's word exactly when every one is open, on the route of its
      instrument, and the only one of it. Then the snapshot's positions are what is held, and the gross is the sum of
      the sizes at the highest fresh prices, saturated, exactly when all have one. */
  lemma {:induction false} PositionsAreExact(xs: seq<HeldPosition>, c: Context)
    ensures var v := SeePositions(xs, c);
            && (v.authoritative <==> AllTrusted(xs, c.routes))
            && (!v.authoritative ==> v.reconciliation)
            && (v.authoritative ==> Shows(v, xs, c))
  {
    if xs == [] {
      NothingShown(c);
    } else {
      var n := |xs| - 1;
      PositionsAreExact(xs[..n], c);
      OnePositionMore(xs, c, SeePositions(xs[..n], c));
      hide SeePosition, AllTrusted, Shows;
    }
  }

  lemma NothingShown(c: Context)
    ensures Shows(EMPTY_VIEW, [], c)
  {
  }

  lemma {:induction false} TrustedFirst(xs: seq<HeldPosition>, routes: Routes)
    requires xs != []
    ensures AllTrusted(xs, routes) ==> AllTrusted(xs[..|xs| - 1], routes)
  {
    hide Trusted;
  }

  lemma {:induction false} TrustedMore(xs: seq<HeldPosition>, routes: Routes, instruments: set<string>, tokens: set<string>)
    requires xs != [] && AllTrusted(xs[..|xs| - 1], routes)
    requires instruments == Instruments(xs[..|xs| - 1]) && tokens == Tokens(xs[..|xs| - 1])
    ensures var x := xs[|xs| - 1];
            AllTrusted(xs, routes) <==> Trusted(x, routes) && x.instrument !in instruments && x.token !in tokens
  {
    hide Trusted;
    var n := |xs| - 1;
    assert forall i :: 0 <= i < n ==> xs[..n][i] == xs[i];
    if xs[n].instrument !in instruments && xs[n].token !in tokens && Trusted(xs[n], routes) {
      forall i, j | 0 <= i < j < |xs| ensures xs[i].instrument != xs[j].instrument && xs[i].token != xs[j].token {
        if j == n {
          assert xs[..n][i].instrument in instruments && xs[..n][i].token in tokens;
        } else {
          assert xs[..n][i].instrument != xs[..n][j].instrument && xs[..n][i].token != xs[..n][j].token;
        }
      }
    }
  }

  /** The sums of the positions seen so far and of one more are machine integers. */
  lemma {:induction false} SumsFit(xs: seq<HeldPosition>, c: Context, v: PositionView)
    requires xs != [] && Shows(v, xs[..|xs| - 1], c)
    requires xs[|xs| - 1].instrument !in v.instruments && xs[|xs| - 1].token !in v.tokens
    ensures INT64_MIN <= OfInstrument(xs, c.instrument) <= INT64_MAX && INT64_MIN <= OnRoute(xs, c.route) <= INT64_MAX
  {
    var n := |xs| - 1;
    var prefix := xs[..n];
    assert forall i :: 0 <= i < n ==> prefix[i].instrument in v.instruments && prefix[i].token in v.tokens;
    NotAmong(prefix, c);
    hide AllValued, GrossOf;
  }

  lemma {:induction false} OnePositionMore(xs: seq<HeldPosition>, c: Context, v: PositionView)
    requires xs != []
    requires (v.authoritative <==> AllTrusted(xs[..|xs| - 1], c.routes)) && (v.authoritative ==> Shows(v, xs[..|xs| - 1], c))
    requires !v.authoritative ==> v.reconciliation
    ensures var w := SeePosition(v, xs[|xs| - 1], c);
            && (w.authoritative <==> AllTrusted(xs, c.routes))
            && (!w.authoritative ==> w.reconciliation)
            && (w.authoritative ==> Shows(w, xs, c))
  {
    var x := xs[|xs| - 1];
    if Unusable(v, x, c.routes) {
      SeeDoubted(v, x, c);
    } else {
      SeeHeld(v, x, c);
    }
    TrustedIsUsable(v, x, c.routes);
    TrustedFirst(xs, c.routes);
    if v.authoritative {
      TrustedMore(xs, c.routes, v.instruments, v.tokens);
      if !Unusable(v, x, c.routes) {
        TrustedIsOpen(x, c.routes);
        SumsFit(xs, c, v);
        OneShownMore(xs, c, v, SeePosition(v, x, c));
      }
    }
    hide SeePosition, Unusable, Trusted, AllTrusted, Shows;
  }

  lemma TrustedIsOpen(x: HeldPosition, routes: Routes)
    ensures Trusted(x, routes) ==> x.quantity != 0
  {
  }

  lemma {:induction false} OneShownMore(xs: seq<HeldPosition>, c: Context, v: PositionView, w: PositionView)
    requires xs != [] && Shows(v, xs[..|xs| - 1], c) && !Unusable(v, xs[|xs| - 1], c.routes) && xs[|xs| - 1].quantity != 0
    requires w == SeePosition(v, xs[|xs| - 1], c)
    requires INT64_MIN <= OfInstrument(xs, c.instrument) <= INT64_MAX && INT64_MIN <= OnRoute(xs, c.route) <= INT64_MAX
    ensures Shows(w, xs, c)
  {
    var n := |xs| - 1;
    SeeHeld(v, xs[n], c);
    SeeGross(v, xs[n], c);
    hide SeePosition, Unusable, Values, HighestPrice;
    assert xs[..n] + [xs[n]] == xs;
    assert forall i :: 0 <= i < n ==> xs[..n][i] == xs[i];
    SetsGrow(xs);
    GrossGrows(xs, c);
  }

  lemma SetsGrow(xs: seq<HeldPosition>)
    requires xs != []
    ensures Instruments(xs) == Instruments(xs[..|xs| - 1]) + {xs[|xs| - 1].instrument}
    ensures Tokens(xs) == Tokens(xs[..|xs| - 1]) + {xs[|xs| - 1].token}
  {
    var n := |xs| - 1;
    assert forall i :: 0 <= i < n ==> xs[..n][i] == xs[i];
  }

  lemma {:induction false} GrossGrows(xs: seq<HeldPosition>, c: Context)
    requires xs != []
    ensures AllValued(xs, c) <==>
            AllValued(xs[..|xs| - 1], c)
            && xs[|xs| - 1].instrument in c.observations && Values(c.observations[xs[|xs| - 1].instrument], c)
    ensures AllValued(xs, c) ==> GrossOf(xs[..|xs| - 1], c) >= 0
  {
    hide Values, HighestPrice;
    var n := |xs| - 1;
    assert forall i :: 0 <= i < n ==> xs[..n][i] == xs[i];
    assert forall i :: 0 <= i < |xs| ==> i < n || xs[i] == xs[n];
    if AllValued(xs[..n], c) {
      GrossIsPositive(xs[..n], c);
    }
  }

  lemma {:induction false} GrossIsPositive(xs: seq<HeldPosition>, c: Context)
    requires AllValued(xs, c)
    ensures GrossOf(xs, c) >= 0
  {
    hide Values, HighestPrice;
    if xs != [] {
      var last := xs[|xs| - 1];
      GrossIsPositive(xs[..|xs| - 1], c);
      PriceIsPositive(c.observations[last.instrument]);
      ProductIsPositive(if last.quantity < 0 then -(last.quantity as int) else last.quantity, HighestPrice(c.observations[last.instrument]));
    }
  }

  lemma ProductIsPositive(a: int, b: int)
    requires a >= 0 && b >= 0
    ensures a * b >= 0
  {
  }

  lemma PriceIsPositive(o: Observation)
    ensures HighestPrice(o) >= 0
  {
  }

  // ---------------------------------------------------------------- orders, by their fields

  /** An order the broker may report: sized, priced, in a state it reports, and on the route of its instrument. */
  predicate TrustedOrder(x: OrderSnapshot, routes: Routes) {
    && x.token != "" && 0 < x.quantity && 0 < x.limitPrice && x.filled <= x.quantity && x.status != Unreported
    && x.instrument in routes && routes[x.instrument].instrument == x.instrument && routes[x.instrument].token == x.token
  }

  ghost predicate AllOrdersTrusted(xs: seq<OrderSnapshot>, routes: Routes) {
    && (forall i :: 0 <= i < |xs| ==> TrustedOrder(xs[i], routes))
    && (forall i, j :: 0 <= i < j < |xs| ==> xs[i].orderId != xs[j].orderId)
  }

  predicate Open(x: OrderSnapshot) {
    x.status != Filled && x.status != Cancelled && x.status != Rejected && x.status != Unreported
  }

  function Left(x: OrderSnapshot): int {
    x.quantity - x.filled
  }

  /** The open orders, each with what is left of it. */
  function OpenOrders(xs: seq<OrderSnapshot>): seq<WorkingOrder>
    requires forall i :: 0 <= i < |xs| ==> xs[i].filled <= xs[i].quantity
  {
    if xs == [] then []
    else
      var x := xs[|xs| - 1];
      OpenOrders(xs[..|xs| - 1])
      + if Open(x) then [WorkingOrder(x.orderId, x.instrument, x.token, x.side, Left(x), x.limitPrice, x.filled)] else []
  }

  /** What is left of the open sells under the token of a route. */
  function SellsLeft(xs: seq<OrderSnapshot>, route: Option<Route>): int {
    if xs == [] then 0
    else
      var x := xs[|xs| - 1];
      SellsLeft(xs[..|xs| - 1], route)
      + if Open(x) && x.side == OrderStateMachine.Sell && route.Some? && x.token == route.value.token then Left(x) else 0
  }

  /** What a view of trusted orders shows. */
  ghost predicate ShowsOrders(w: OrderView, xs: seq<OrderSnapshot>, route: Option<Route>, target: Option<string>) {
    && (forall i :: 0 <= i < |xs| ==> xs[i].filled <= xs[i].quantity)
    && w.ids == OrderIds(xs)
    && w.working == OpenOrders(xs) && w.tokenSell == SellsLeft(xs, route)
    && (w.target.Some? <==> exists i :: 0 <= i < |xs| && Some(xs[i].orderId) == target)
    && (forall i :: 0 <= i < |xs| && Some(xs[i].orderId) == target ==>
          var x := xs[i];
          && w.target == Some(WorkingOrder(x.orderId, x.instrument, x.token, x.side, Left(x), x.limitPrice, x.filled))
          && (w.targetTerminal <==> !Open(x)))
  }

  /** The sells left under the token fit the machine, after each order. */
  ghost predicate SellsFit(xs: seq<OrderSnapshot>, route: Option<Route>) {
    forall k :: 0 <= k <= |xs| ==> SellsLeft(xs[..k], route) <= UINT64_MAX
  }

  lemma TrustedOrderIsUsable(v: OrderView, x: OrderSnapshot, routes: Routes)
    ensures UnusableOrder(v, x, routes) <==> !TrustedOrder(x, routes) || x.orderId in v.ids
    ensures TrustedOrder(x, routes) ==> (Capture.Live(x.status) <==> Open(x))
  {
  }

  lemma {:induction false} SellsFitMore(xs: seq<OrderSnapshot>, route: Option<Route>)
    requires xs != []
    ensures SellsFit(xs, route) <==> SellsFit(xs[..|xs| - 1], route) && SellsLeft(xs, route) <= UINT64_MAX
  {
    hide SellsLeft;
    var n := |xs| - 1;
    assert forall k :: 0 <= k <= n ==> xs[..n][..k] == xs[..k];
    assert xs[..n + 1] == xs;
  }

  lemma {:induction false} TrustedOrdersMore(xs: seq<OrderSnapshot>, routes: Routes, ids: set<string>)
    requires xs != [] && ids == OrderIds(xs[..|xs| - 1])
    ensures AllOrdersTrusted(xs, routes) <==>
            AllOrdersTrusted(xs[..|xs| - 1], routes) && TrustedOrder(xs[|xs| - 1], routes) && xs[|xs| - 1].orderId !in ids
    ensures OrderIds(xs) == ids + {xs[|xs| - 1].orderId}
  {
    hide TrustedOrder;
    var n := |xs| - 1;
    assert forall i :: 0 <= i < n ==> xs[..n][i] == xs[i];
    if AllOrdersTrusted(xs[..n], routes) && xs[n].orderId !in ids {
      forall i, j | 0 <= i < j < |xs| ensures xs[i].orderId != xs[j].orderId {
        if j == n {
          assert xs[..n][i].orderId in ids;
        } else {
          assert xs[..n][i].orderId != xs[..n][j].orderId;
        }
      }
    }
  }

  function OrderIds(xs: seq<OrderSnapshot>): set<string> {
    set i | 0 <= i < |xs| :: xs[i].orderId
  }

  /** Main result: the orders raise no doubt exactly when every one is one the broker may report and its id is its own,
      and the sells left fit the machine. Then the snapshot holds exactly the open orders, in order, what is left of the
      sells under the token, and the order to modify or cancel when it is reported. */
  lemma {:induction false} OrdersAreExact(xs: seq<OrderSnapshot>, route: Option<Route>, target: Option<string>, routes: Routes)
    ensures var w := SeeOrders(xs, route, target, routes);
            && (!w.reconciliation <==> AllOrdersTrusted(xs, routes) && SellsFit(xs, route))
            && w.ids == OrderIds(xs)
            && (!w.reconciliation ==> ShowsOrders(w, xs, route, target))
  {
    if xs == [] {
      assert forall k :: 0 <= k <= |xs| ==> xs[..k] == [];
    } else {
      var n := |xs| - 1;
      OrdersAreExact(xs[..n], route, target, routes);
      var w := SeeOrders(xs[..n], route, target, routes);
      TrustedOrdersMore(xs, routes, w.ids);
      SellsFitMore(xs, route);
      OneOrderMore(xs, w, route, target, routes);
      hide SeeOrder, AllOrdersTrusted, ShowsOrders, SellsFit, TrustedOrder, SellsLeft;
    }
  }

  /** One more order, seen after orders that raised no doubt. */
  lemma {:induction false} OneOrderMore(xs: seq<OrderSnapshot>, w: OrderView, route: Option<Route>, target: Option<string>, routes: Routes)
    requires xs != [] && w.ids == OrderIds(xs[..|xs| - 1])
    requires !w.reconciliation ==> ShowsOrders(w, xs[..|xs| - 1], route, target)
    ensures var x, v := xs[|xs| - 1], SeeOrder(w, xs[|xs| - 1], route, target, routes);
            && v.ids == w.ids + {x.orderId}
            && (!v.reconciliation <==>
                !w.reconciliation && TrustedOrder(x, routes) && x.orderId !in w.ids && SellsLeft(xs, route) <= UINT64_MAX)
            && (!v.reconciliation ==> ShowsOrders(v, xs, route, target))
  {
    var n := |xs| - 1;
    TrustedOrderIsUsable(w, xs[n], routes);
    hide UnusableOrder, TrustedOrder;
    assert forall i :: 0 <= i < n ==> xs[..n][i] == xs[i];
    assert forall i :: 0 <= i < |xs| ==> i < n || xs[i] == xs[n];
  }

  // ---------------------------------------------------------------- the snapshot

  /** The order at `i` is the first of its instrument. */
  ghost predicate FirstOf(orders: seq<PaperOrder>, instrument: string, i: nat) {
    i < |orders| && orders[i].snapshot.instrument == instrument
    && forall j :: 0 <= j < i ==> orders[j].snapshot.instrument != instrument
  }

  /** The broker reports each position with its quantity, under the token of the first order of its instrument, and each
      order as it is. */
  lemma {:induction false} ReportsAreTheBrokers(p: Paper, k: nat, i: nat)
    ensures |QueryPositions(p)| == |p.positions| && |QueryOrders(p)| == |p.orders|
    ensures k < |p.orders| ==> QueryOrders(p)[k] == p.orders[k].snapshot
    ensures k < |p.positions| ==>
              var x := QueryPositions(p)[k];
              && x.instrument == p.positions[k].instrument && x.quantity == p.positions[k].quantity
              && (FirstOf(p.orders, x.instrument, i) ==> x.token == p.orders[i].snapshot.token)
              && ((forall j :: 0 <= j < |p.orders| ==> p.orders[j].snapshot.instrument != x.instrument) ==> x.token == "")
  {
    if k < |p.positions| {
      TokenIsFirst(p.orders, p.positions[k].instrument, i);
      NoToken(p.orders, p.positions[k].instrument);
    }
  }

  lemma {:induction false} TokenIsFirst(orders: seq<PaperOrder>, instrument: string, i: nat)
    ensures FirstOf(orders, instrument, i) ==> TokenOf(orders, instrument) == orders[i].snapshot.token
  {
    if i > 0 && FirstOf(orders, instrument, i) {
      assert forall j :: 0 < j < |orders| ==> orders[1..][j - 1] == orders[j];
      assert FirstOf(orders[1..], instrument, i - 1);
      TokenIsFirst(orders[1..], instrument, i - 1);
    }
  }

  lemma {:induction false} NoToken(orders: seq<PaperOrder>, instrument: string)
    ensures (forall j :: 0 <= j < |orders| ==> orders[j].snapshot.instrument != instrument) ==> TokenOf(orders, instrument) == ""
  {
    if orders != [] {
      NoToken(orders[1..], instrument);
    }
  }

  /** Main result: exactly when the snapshot leaves no doubt, and what it shows then: the broker's positions, gross, open
      orders, sells under the token, the order to modify or cancel, and the observation of the instrument. */
  lemma {:induction false} SnapshotIsExact(p: Paper, intent: Intent, standing: Capture.Standing, c: Context)
    ensures var s := Snap(p, intent, standing, c);
            var xs, ys := QueryPositions(p), QueryOrders(p);
            && s.health == p.health && s.route == c.route && s.now == c.now && s.pnl == standing.pnl && s.greeks == standing.greeks
            && s.killSwitch == standing.killSwitch && s.ready == standing.ready && s.recentOrderTimes == standing.recentOrderTimes
            && s.observation == (if intent.instrument in c.observations then Some(c.observations[intent.instrument]) else None)
            && (s.positionsAuthoritative <==> !p.health.Lost? && AllTrusted(xs, c.routes))
            && (!s.reconciliationRequired <==>
                && !standing.reconciliationRequired && !p.health.Lost? && AllTrusted(xs, c.routes)
                && AllOrdersTrusted(ys, c.routes) && SellsFit(ys, c.route))
            && (!s.reconciliationRequired ==>
                  && s.instrumentPosition == OfInstrument(xs, c.instrument) && s.tokenPosition == OnRoute(xs, c.route)
                  && (s.marksAuthoritative <==> AllValued(xs, c))
                  && (s.marksAuthoritative ==> s.currentGross == Min(UINT64_MAX, GrossOf(xs, c)))
                  && (forall i :: 0 <= i < |ys| ==> ys[i].filled <= ys[i].quantity)
                  && s.workingOrders == OpenOrders(ys) && s.tokenWorkingSell == SellsLeft(ys, c.route)
                  && (s.targetKnown <==> exists i :: 0 <= i < |ys| && Some(ys[i].orderId) == intent.target)
                  && (s.targetKnown <==> s.target.Some?)
                  && (forall i :: 0 <= i < |ys| && Some(ys[i].orderId) == intent.target ==>
                        && s.target == Some(WorkingOrder(ys[i].orderId, ys[i].instrument, ys[i].token, ys[i].side, Left(ys[i]),
                                                         ys[i].limitPrice, ys[i].filled))
                        && (s.targetTerminal <==> !Open(ys[i]))))
  {
    hide AllTrusted, AllOrdersTrusted, SellsFit, SeePositions, SeeOrders, OfInstrument, OnRoute, AllValued, GrossOf, OpenOrders,
         SellsLeft, QueryPositions, QueryOrders, Instruments, Tokens, OrderIds, Open;
    PositionsAreExact(QueryPositions(p), c);
    OrdersAreExact(QueryOrders(p), c.route, intent.target, c.routes);
  }
}
