/**
 Never short: over the paper broker, no order that the risk rules let through, no fill and no observation
 takes a position below what its working sell orders can still sell.
*/
module Inventory {
  import opened Base
  import opened Risk
  import opened PaperBroker
  import opened Mirror
  import opened Capture
  import OrderStateMachine

  /** What the working sell orders of an instrument can still sell. */
  function WorkingSell(orders: seq<PaperOrder>, instrument: string): int {
    if orders == [] then 0
    else WorkingSell(orders[..|orders| - 1], instrument) + SellOf(orders[|orders| - 1], instrument)
  }

  function SellOf(x: PaperOrder, instrument: string): int {
    if x.snapshot.instrument == instrument && x.snapshot.side.Sell? && Live(x.snapshot.status) then Remaining(x) else 0
  }

  ghost predicate Covered(p: Paper) {
    forall instrument :: Quantity(p.positions, instrument) >= WorkingSell(p.orders, instrument)
  }

  /** One token per instrument and one instrument per token. */
  ghost predicate OneToOne(routes: Routes) {
    && (forall a :: a in routes ==> routes[a].instrument == a && routes[a].token != "")
    && (forall a, b :: a in routes && b in routes && routes[a].token == routes[b].token ==> a == b)
  }

  /** Every order went out on its instrument's route. */
  ghost predicate OnRoutes(orders: seq<PaperOrder>, routes: Routes) {
    forall i :: 0 <= i < |orders| ==>
      var x := orders[i].snapshot; x.instrument in routes && routes[x.instrument].token == x.token
  }

  // ---------------------------------------------------------------- sums under a change of one order

  lemma {:induction false} SellUpdate(orders: seq<PaperOrder>, i: nat, next: PaperOrder, instrument: string)
    requires i < |orders|
    ensures WorkingSell(orders[i := next], instrument)
            == WorkingSell(orders, instrument) - SellOf(orders[i], instrument) + SellOf(next, instrument)
  {
    var n := |orders| - 1;
    if i == n {
      assert orders[i := next][..n] == orders[..n];
    } else {
      assert orders[i := next][..n] == orders[..n][i := next];
      SellUpdate(orders[..n], i, next, instrument);
    }
  }

  lemma {:induction false} SellConcat(a: seq<PaperOrder>, b: seq<PaperOrder>, instrument: string)
    ensures WorkingSell(a + b, instrument) == WorkingSell(a, instrument) + WorkingSell(b, instrument)
  {
    if b == [] {
      assert a + b == a;
    } else {
      assert (a + b)[..|a + b| - 1] == a + b[..|b| - 1];
      SellConcat(a, b[..|b| - 1], instrument);
    }
  }

  lemma {:induction false} SellInsert(orders: seq<PaperOrder>, x: PaperOrder, instrument: string)
    ensures WorkingSell(InsertOrder(orders, x), instrument) == WorkingSell(orders, instrument) + SellOf(x, instrument)
  {
    hide InsertOrder;
    var k := InsertOrderPlaces(orders, x);
    assert orders == orders[..k] + orders[k..];
    SellConcat(orders[..k], orders[k..], instrument);
    SellConcat(orders[..k] + [x], orders[k..], instrument);
    SellConcat(orders[..k], [x], instrument);
    assert [x][..0] == [];
  }

  /** Remaining quantities are not negative, so a covered position never is. */
  lemma {:induction false} SellIsNatural(orders: seq<PaperOrder>, instrument: string)
    requires forall i :: 0 <= i < |orders| ==> SoundOrder(orders[i])
    ensures WorkingSell(orders, instrument) >= 0
  {
    if orders != [] {
      SellIsNatural(orders[..|orders| - 1], instrument);
    }
  }

  lemma {:induction false} OneSellIsPart(orders: seq<PaperOrder>, i: nat, instrument: string)
    requires i < |orders| && forall k :: 0 <= k < |orders| ==> SoundOrder(orders[k])
    ensures SellOf(orders[i], instrument) <= WorkingSell(orders, instrument)
  {
    var n := |orders| - 1;
    SellIsNatural(orders[..n], instrument);
    if i < n {
      OneSellIsPart(orders[..n], i, instrument);
    }
  }

  // ---------------------------------------------------------------- what the broker does on its own

  /** A fill takes from the position exactly what it takes from the order's remainder. */
  lemma {:induction false} FillKeepsCovered(p: Paper, i: nat, requested: uint64, timestamp: int64)
    requires Sound(p) && Covered(p) && i < |p.orders| && Live(p.orders[i].snapshot.status)
    requires p.orders[i].snapshot.filled <= requested
    ensures Covered(FillAt(p, i, requested, timestamp).0)
  {
    var (r, fill) := FillAt(p, i, requested, timestamp);
    var x := p.orders[i].snapshot;
    FillIsSound(p, i, requested, timestamp);
    FillMovesPosition(p, i, requested, timestamp);
    hide FillAt, Quantity, FindPosition;
    forall instrument ensures Quantity(r.positions, instrument) >= WorkingSell(r.orders, instrument) {
      SellUpdate(p.orders, i, r.orders[i], instrument);
      assert Quantity(p.positions, instrument) >= WorkingSell(p.orders, instrument);
    }
  }

  /** The position a fill leaves; an addition that overflows leaves it alone. */
  lemma {:induction false} FillMovesPosition(p: Paper, i: nat, requested: uint64, timestamp: int64)
    requires Sound(p) && i < |p.orders| && p.orders[i].snapshot.filled <= requested
    ensures var (r, fill) := FillAt(p, i, requested, timestamp);
            var x := p.orders[i].snapshot;
            forall instrument ::
              var before, after := Quantity(p.positions, instrument), Quantity(r.positions, instrument);
              && (instrument != x.instrument ==> after == before)
              && (instrument == x.instrument ==>
                    after == before + SignedFill(x.side, fill.last) || (after == before && before + SignedFill(x.side, fill.last) > INT64_MAX)
                    || (after == before && before + SignedFill(x.side, fill.last) < INT64_MIN))
    ensures var r := FillAt(p, i, requested, timestamp).0;
            r.orders[i].snapshot.status.Filled? || r.orders[i].snapshot.status.PartiallyFilled?
  {
    hide Quantity, SetQuantity, AddValues, Notional;
    var x := p.orders[i].snapshot;
    var position := Quantity(p.positions, x.instrument);
    SetQuantitySets(p.positions, x.instrument, position);
    var fill := FillAt(p, i, requested, timestamp).1;
    var moved := CheckedAdd(position, SignedFill(x.side, fill.last));
    if moved.Some? {
      SetQuantitySets(p.positions, x.instrument, moved.value);
    }
  }

  lemma {:induction false} StatusKeepsCovered(p: Paper, i: nat, status: Status)
    requires Sound(p) && Covered(p) && i < |p.orders| && (Live(status) ==> Live(p.orders[i].snapshot.status))
    ensures Covered(WithStatus(p, i, status))
  {
    hide Quantity;
    var q := WithStatus(p, i, status);
    forall instrument ensures Quantity(q.positions, instrument) >= WorkingSell(q.orders, instrument) {
      SellUpdate(p.orders, i, q.orders[i], instrument);
      assert Quantity(p.positions, instrument) >= WorkingSell(p.orders, instrument);
    }
  }

  lemma {:induction false} CancelKeepsCovered(p: Paper, id: string)
    requires Sound(p) && Covered(p)
    ensures Covered(CancelOrder(p, id).0)
  {
    hide Covered, Sound, FindOrder;
    FindOrderFinds(p.orders, id);
    var q := CancelOrder(p, id).0;
    if q.orders != p.orders {
      var i := FindOrder(p.orders, id).value;
      StatusKeepsCovered(p, i, Cancelled);
      CoveredReads(WithStatus(p, i, Cancelled), q);
    } else {
      CoveredReads(p, q);
    }
  }

  lemma CoveredReads(p: Paper, q: Paper)
    requires p.orders == q.orders && p.positions == q.positions && Covered(p)
    ensures Covered(q)
  {
  }

  lemma {:induction false} ObserveOrderKeepsCovered(p: Paper, i: nat, o: Observation)
    requires Sound(p) && Covered(p) && i < |p.orders| && Reported(p.orders[i].snapshot.status)
    ensures Covered(ObserveOrder(p, i, o).0)
  {
    hide Quantity, FillAt;
    var order := p.orders[i];
    var q := ObserveOrder(p, i, o).0;
    if Concerns(order, o) {
      if order.awaitingBaseline || o.volume < order.observedVolume || !(Trades(order, o) && Remaining(order) > 0) {
        SeenIsCovered(p, q, i);
      } else {
        var seen := p.(orders := p.orders[i := order.(observedVolume := o.volume, volumeReset := false)]);
        SeenIsCovered(p, seen, i);
        FillKeepsCovered(seen, i, order.snapshot.quantity, o.receiveTime);
      }
    }
  }

  lemma {:induction false} SeenIsCovered(p: Paper, q: Paper, i: nat)
    requires Covered(p) && i < |p.orders| == |q.orders| && q.orders == p.orders[i := q.orders[i]] && q.positions == p.positions
    requires q.orders[i].snapshot == p.orders[i].snapshot
    ensures Covered(q)
  {
    hide Quantity;
    forall instrument ensures Quantity(q.positions, instrument) >= WorkingSell(q.orders, instrument) {
      SellUpdate(p.orders, i, q.orders[i], instrument);
      assert Quantity(p.positions, instrument) >= WorkingSell(p.orders, instrument);
    }
  }

  // ---------------------------------------------------------------- the invariant

  ghost predicate AllReported(orders: seq<PaperOrder>) {
    forall i :: 0 <= i < |orders| ==> Reported(orders[i].snapshot.status)
  }

  /** No position is short of its working sells, and every order is on its instrument's route. */
  ghost predicate NeverShort(p: Paper, routes: Routes) {
    Sound(p) && Covered(p) && OnRoutes(p.orders, routes) && AllReported(p.orders)
  }

  /** Orders keep their instruments and tokens. */
  ghost predicate SameRoutes(a: seq<PaperOrder>, b: seq<PaperOrder>) {
    && |a| == |b|
    && forall i :: 0 <= i < |a| ==>
         && a[i].snapshot.instrument == b[i].snapshot.instrument && a[i].snapshot.token == b[i].snapshot.token
         && (Reported(a[i].snapshot.status) ==> Reported(b[i].snapshot.status))
  }

  lemma SameRoutesKeep(a: seq<PaperOrder>, b: seq<PaperOrder>, routes: Routes)
    requires SameRoutes(a, b) && OnRoutes(a, routes) && AllReported(a)
    ensures OnRoutes(b, routes) && AllReported(b)
  {
  }

  lemma {:induction false} FillKeepsRoutes(p: Paper, i: nat, requested: uint64, timestamp: int64)
    requires Sound(p) && i < |p.orders| && p.orders[i].snapshot.filled <= requested
    ensures SameRoutes(p.orders, FillAt(p, i, requested, timestamp).0.orders)
  {
    hide FillAt, Quantity;
    FillIsSound(p, i, requested, timestamp);
    FillMovesPosition(p, i, requested, timestamp);
  }

  lemma {:induction false} ObserveOrderKeepsRoutes(p: Paper, i: nat, o: Observation)
    requires Sound(p) && i < |p.orders|
    ensures SameRoutes(p.orders, ObserveOrder(p, i, o).0.orders)
  {
    hide FillAt;
    var order := p.orders[i];
    var seen := p.(orders := p.orders[i := order.(observedVolume := o.volume, volumeReset := false)]);
    if Trades(order, o) && Remaining(order) > 0 {
      FillKeepsRoutes(seen, i, order.snapshot.quantity, o.receiveTime);
    }
  }

  lemma {:induction false} ObserveOrderIsSafe(p: Paper, i: nat, o: Observation, routes: Routes)
    requires NeverShort(p, routes) && i < |p.orders|
    ensures NeverShort(ObserveOrder(p, i, o).0, routes)
  {
    hide Sound, Covered, ObserveOrder, OnRoutes, SameRoutes;
    ObserveOrderIsSound(p, i, o);
    ObserveOrderKeepsCovered(p, i, o);
    ObserveOrderKeepsRoutes(p, i, o);
    SameRoutesKeep(p.orders, ObserveOrder(p, i, o).0.orders, routes);
  }

  lemma {:induction false} ObserveOrdersIsSafe(p: Paper, i: nat, o: Observation, generated: seq<Fill>, routes: Routes)
    requires Sound(p) && NeverShort(p, routes) && i <= |p.orders|
    ensures NeverShort(ObserveOrders(p, i, o, generated).0, routes)
    decreases |p.orders| - i
  {
    hide Sound, NeverShort, ObserveOrder, UpdatePeak;
    if i == |p.orders| {
      PeakKeeps(p);
      SafeReads(p, UpdatePeak(p), routes);
    } else {
      ObserveOrderIsSound(p, i, o);
      ObserveOrderIsSafe(p, i, o, routes);
      var step := ObserveOrder(p, i, o);
      var grown := if step.1.Some? then generated + [step.1.value] else generated;
      ObserveOrdersIsSafe(step.0, i + 1, o, grown, routes);
      assert ObserveOrders(p, i, o, generated) == ObserveOrders(step.0, i + 1, o, grown);
    }
  }

  lemma SafeReads(p: Paper, q: Paper, routes: Routes)
    requires p.orders == q.orders && p.positions == q.positions && NeverShort(p, routes)
    ensures NeverShort(q, routes)
  {
  }

  lemma {:induction false} ObserveIsSafe(p: Paper, o: Observation, routes: Routes)
    requires Sound(p) && NeverShort(p, routes)
    ensures NeverShort(Observe(p, o).0, routes)
  {
    hide Sound, NeverShort, ObserveOrders, UpdatePeak;
    if p.health.Ready? && Usable(o) {
      var marked := Marked(p, o);
      SafeReads(p, marked, routes);
      PeakKeeps(marked);
      SafeReads(marked, UpdatePeak(marked), routes);
      SafeIsSound(marked, routes);
      if !p.scripted {
        ObserveOrdersIsSafe(marked, 0, o, [], routes);
      }
    }
  }

  lemma SafeIsSound(p: Paper, routes: Routes)
    requires NeverShort(p, routes)
    ensures Sound(p)
  {
  }

  lemma {:induction false} StatusIsSafe(p: Paper, i: nat, status: Status, routes: Routes)
    requires NeverShort(p, routes) && i < |p.orders| && !status.Filled? && Reported(status)
    requires Live(status) ==> Live(p.orders[i].snapshot.status)
    ensures NeverShort(WithStatus(p, i, status), routes)
  {
    hide Covered;
    StatusKeepsCovered(p, i, status);
  }

  lemma {:induction false} FillIsSafe(p: Paper, i: nat, requested: uint64, timestamp: int64, routes: Routes)
    requires NeverShort(p, routes) && i < |p.orders| && Live(p.orders[i].snapshot.status)
    requires p.orders[i].snapshot.filled <= requested && Sound(p)
    ensures NeverShort(FillAt(p, i, requested, timestamp).0, routes)
  {
    hide Covered, FillAt, OnRoutes, SameRoutes, AllReported, UniqueOrders, UniquePositions;
    FillIsSound(p, i, requested, timestamp);
    FillKeepsCovered(p, i, requested, timestamp);
    FillKeepsRoutes(p, i, requested, timestamp);
    SameRoutesKeep(p.orders, FillAt(p, i, requested, timestamp).0.orders, routes);
  }

  lemma {:induction false} ScriptIsSafe(p: Paper, event: ScriptEvent, routes: Routes)
    requires Sound(p) && NeverShort(p, routes)
    ensures NeverShort(ApplyScript(p, event).paper, routes)
  {
    FindOrderFinds(p.orders, event.orderId);
    hide FindOrder, Sound, NeverShort, FillAt, WithStatus;
    var noted := p.(scriptUpdates := p.scriptUpdates + [event.updateId]);
    SafeReads(p, noted, routes);
    SafeReads(p, noted.(health := Lost), routes);
    SafeIsSound(noted, routes);
    var at := FindOrder(p.orders, event.orderId);
    if at.Some? && !Ended(p.orders[at.value].snapshot.status) {
      LiveIsNotEnded(p, at.value, routes);
      ScriptToIsSafe(noted, at.value, event, routes);
    }
  }

  lemma LiveIsNotEnded(p: Paper, i: nat, routes: Routes)
    requires NeverShort(p, routes) && i < |p.orders| && !Ended(p.orders[i].snapshot.status)
    ensures Live(p.orders[i].snapshot.status)
  {
    assert Reported(p.orders[i].snapshot.status);
  }

  lemma {:induction false} ScriptToIsSafe(p: Paper, i: nat, event: ScriptEvent, routes: Routes)
    requires Sound(p) && NeverShort(p, routes) && i < |p.orders| && Live(p.orders[i].snapshot.status)
    ensures NeverShort(ApplyScriptTo(p, i, event).paper, routes)
  {
    hide Sound, NeverShort, FillAt, WithStatus;
    if event.kind.Reject? {
      StatusIsSafe(p, i, Rejected, routes);
    } else if event.kind.Ambiguity? {
      StatusIsSafe(p, i, Undecided, routes);
      SafeReads(WithStatus(p, i, Undecided), WithStatus(p, i, Undecided).(health := Unknown), routes);
    } else if event.cumulative > p.orders[i].snapshot.filled {
      FillIsSafe(p, i, event.cumulative, event.timestamp, routes);
    }
  }

  lemma {:induction false} CancelIsSafe(p: Paper, id: string, routes: Routes)
    requires Sound(p) && NeverShort(p, routes)
    ensures NeverShort(CancelOrder(p, id).0, routes)
  {
    FindOrderFinds(p.orders, id);
    CancelIsSound(p, id);
    CancelKeepsCovered(p, id) by { CoveredOf(p, routes); }
    hide FindOrder, Covered;
  }

  lemma CoveredOf(p: Paper, routes: Routes)
    requires NeverShort(p, routes)
    ensures Covered(p)
  {
  }

  // ---------------------------------------------------------------- what the snapshot says

  /** The exact quantity held under a token. */
  function Held(xs: seq<HeldPosition>, token: string): int {
    if xs == [] then 0
    else Held(xs[..|xs| - 1], token) + if xs[|xs| - 1].token == token then xs[|xs| - 1].quantity else 0
  }

  /** Positions that raise no doubt add up exactly, and each is on its instrument's route. */
  lemma {:induction false} PositionsAreSeen(xs: seq<HeldPosition>, c: Context)
    requires c.route.Some?
    ensures var v := SeePositions(xs, c);
            v.authoritative ==>
              && !v.reconciliation && v.tokenPosition == Held(xs, c.route.value.token)
              && (forall i :: 0 <= i < |xs| ==>
                    xs[i].instrument in c.routes && c.routes[xs[i].instrument].token == xs[i].token && xs[i].quantity != 0)
  {
    if xs != [] {
      PositionsAreSeen(xs[..|xs| - 1], c);
      SeePositionIs(SeePositions(xs[..|xs| - 1], c), xs[|xs| - 1], c);
      hide SeePosition, Unusable;
    }
  }

  lemma SeePositionIs(v: PositionView, x: HeldPosition, c: Context)
    requires c.route.Some?
    ensures var w := SeePosition(v, x, c);
            w.authoritative ==>
              && v.authoritative && (!v.reconciliation ==> !w.reconciliation)
              && w.tokenPosition == v.tokenPosition + (if x.token == c.route.value.token then x.quantity else 0)
              && x.instrument in c.routes && c.routes[x.instrument].token == x.token && x.quantity != 0
  {
    hide MarkPrice, CheckedMultiply;
  }

  /** Under one-to-one routes a token's holding is its instrument's position. */
  lemma {:induction false} HeldIsQuantity(positions: seq<Position>, xs: seq<HeldPosition>, routes: Routes, instrument: string)
    requires UniquePositions(positions) && OneToOne(routes) && instrument in routes && |xs| == |positions|
    requires forall i :: 0 <= i < |xs| ==>
               && xs[i].instrument == positions[i].instrument && xs[i].quantity == positions[i].quantity
               && xs[i].instrument in routes && routes[xs[i].instrument].token == xs[i].token
    ensures Held(xs, routes[instrument].token) == Quantity(positions, instrument)
  {
    hide Quantity;
    if positions == [] {
      QuantityOf(positions, instrument);
    } else {
      var n := |positions| - 1;
      HeldIsQuantity(positions[..n], xs[..n], routes, instrument);
      QuantityOf(positions[..n], instrument);
      QuantityOf(positions, instrument);
      assert positions == positions[..n] + [positions[n]];
      assert forall x :: x in positions[..n] ==> x in positions;
      if positions[n].instrument == instrument {
        assert positions[n] in positions;
        assert forall x :: x in positions[..n] ==> x.instrument != instrument;
      } else {
        assert xs[n].token != routes[instrument].token;
        QuantityExtends(positions[..n], positions[n], instrument);
      }
    }
  }

  lemma {:induction false} QuantityExtends(positions: seq<Position>, x: Position, instrument: string)
    requires UniquePositions(positions + [x]) && x.instrument != instrument
    ensures Quantity(positions + [x], instrument) == Quantity(positions, instrument)
  {
    FindPositionFinds(positions, instrument);
    FindPositionFinds(positions + [x], instrument);
    hide FindPosition;
    var a, b := FindPosition(positions, instrument), FindPosition(positions + [x], instrument);
    assert forall i :: 0 <= i < |positions| ==> (positions + [x])[i] == positions[i];
    if a.Some? {
      assert (positions + [x])[a.value].instrument == instrument;
    }
  }

  /** Orders that raise no doubt add up exactly, and the target is the order of that id. */
  lemma {:induction false} OrdersAreSeen(orders: seq<PaperOrder>, xs: seq<OrderSnapshot>, target: Option<string>, routes: Routes,
                                         instrument: string)
    requires |xs| == |orders| && forall i :: 0 <= i < |xs| ==> xs[i] == orders[i].snapshot
    requires OneToOne(routes) && OnRoutes(orders, routes) && instrument in routes
    ensures var v := SeeOrders(xs, Some(routes[instrument]), target, routes);
            !v.reconciliation ==>
              && v.tokenSell == WorkingSell(orders, instrument)
              && (v.target.Some? ==>
                    exists i :: 0 <= i < |orders| && IsTargetOf(v, orders[i].snapshot, target))
  {
    if xs != [] {
      var n := |xs| - 1;
      OrdersAreSeen(orders[..n], xs[..n], target, routes, instrument);
      var before := SeeOrders(xs[..n], Some(routes[instrument]), target, routes);
      SeeOrderIs(before, orders[n], target, routes, instrument);
      hide SeeOrder, UnusableOrder;
      var v := SeeOrders(xs, Some(routes[instrument]), target, routes);
      assert v == SeeOrder(before, orders[n].snapshot, Some(routes[instrument]), target, routes);
      if !v.reconciliation && v.target.Some? {
        if target == Some(orders[n].snapshot.orderId) {
          assert IsTargetOf(v, orders[n].snapshot, target);
        } else {
          var i :| 0 <= i < n && IsTargetOf(before, orders[..n][i].snapshot, target);
          assert IsTargetOf(v, orders[i].snapshot, target);
        }
      }
    }
  }

  predicate IsTargetOf(v: OrderView, x: OrderSnapshot, target: Option<string>) {
    && target == Some(x.orderId) && x.filled <= x.quantity
    && v.target == Some(AsWorking(x)) && v.targetTerminal == !Live(x.status)
  }

  lemma SeeOrderIs(v: OrderView, x: PaperOrder, target: Option<string>, routes: Routes, instrument: string)
    requires OneToOne(routes) && instrument in routes && OnRoutes([x], routes)
    ensures var w := SeeOrder(v, x.snapshot, Some(routes[instrument]), target, routes);
            !w.reconciliation ==>
              && !v.reconciliation && w.tokenSell == v.tokenSell + SellOf(x, instrument)
              && (if target == Some(x.snapshot.orderId) then IsTargetOf(w, x.snapshot, target)
                  else w.target == v.target && w.targetTerminal == v.targetTerminal)
  {
    assert [x][0] == x;
  }

  // ---------------------------------------------------------------- approved intents

  /** The snapshot is taken for the intent, on its route. */
  ghost predicate For(c: Context, intent: Intent, routes: Routes) {
    && c.routes == routes && c.instrument == intent.instrument
    && c.route == if intent.instrument in routes then Some(routes[intent.instrument]) else None
  }

  /** Positions a signed 64-bit integer can still grow past. */
  ghost predicate Growable(p: Paper) {
    forall instrument :: Quantity(p.positions, instrument) < INT64_MAX
  }

  /** What an approved order or modification knows of the inventory. */
  lemma {:induction false} ApprovedIsCovered(p: Paper, config: Config, intent: Intent, standing: Capture.Standing, c: Context, routes: Routes)
    requires NeverShort(p, routes) && OneToOne(routes) && For(c, intent, routes) && Growable(p)
    requires !intent.action.Cancel? && Approved(Evaluate(config, intent, Snap(p, intent, standing, c)))
    ensures intent.instrument in routes && c.route == Some(routes[intent.instrument])
    ensures ShapeOk(intent) && intent.quantity.value <= INT64_MAX
    ensures var s := Snap(p, intent, standing, c);
            && s.tokenWorkingSell == WorkingSell(p.orders, intent.instrument)
            && (intent.side == Some(OrderStateMachine.Sell) ==>
                  ReservedSell(intent, s) + ProjectedQuantity(intent, s) <= Quantity(p.positions, intent.instrument))
            && (intent.action.Modify? ==>
                  && ModifyTargetOk(intent, s)
                  && exists i :: 0 <= i < |p.orders| && Some(p.orders[i].snapshot.orderId) == intent.target
                       && p.orders[i].snapshot.filled <= p.orders[i].snapshot.quantity
                       && s.target == Some(AsWorking(p.orders[i].snapshot)) && Live(p.orders[i].snapshot.status))
  {
    hide Evaluate, Approved, OneToOne, OnRoutes, AllReported, Covered, Sound, PositionOk, GrossOk, EvidenceOk, TimeOk, ObservationOk,
         Recent, SeePositions, SeeOrders, Quantity, WorkingSell, Outstanding;
    var s := Snap(p, intent, standing, c);
    ApprovedIff(config, intent, s);
    InventoryIsSeen(p, intent, standing, c, routes);
    if intent.side == Some(OrderStateMachine.Sell) {
      SellRuleIsExact(intent, s);
    }
  }

  /** Without doubt, the snapshot's inventory is the broker's. */
  lemma {:induction false} InventoryIsSeen(p: Paper, intent: Intent, standing: Capture.Standing, c: Context, routes: Routes)
    requires NeverShort(p, routes) && OneToOne(routes) && For(c, intent, routes) && intent.instrument in routes
    requires var s := Snap(p, intent, standing, c);
             p.health.Ready? && s.positionsAuthoritative && !s.reconciliationRequired
    ensures var s := Snap(p, intent, standing, c);
            && s.tokenPosition == Quantity(p.positions, intent.instrument)
            && s.tokenWorkingSell == WorkingSell(p.orders, intent.instrument)
            && (s.target.Some? ==>
                  exists i :: 0 <= i < |p.orders| && Some(p.orders[i].snapshot.orderId) == intent.target
                    && p.orders[i].snapshot.filled <= p.orders[i].snapshot.quantity
                    && s.target == Some(AsWorking(p.orders[i].snapshot))
                    && s.targetTerminal == !Live(p.orders[i].snapshot.status))
  {
    hide SeePosition, SeeOrder, WorkingSell, Quantity, Covered, AllReported, TokenOf;
    PositionsAreSeen(QueryPositions(p), c);
    HeldIsQuantity(p.positions, QueryPositions(p), routes, intent.instrument);
    OrdersAreSeen(p.orders, QueryOrders(p), intent.target, routes, intent.instrument);
    var w := SeeOrders(QueryOrders(p), c.route, intent.target, c.routes);
    if w.target.Some? {
      var i :| 0 <= i < |p.orders| && IsTargetOf(w, p.orders[i].snapshot, intent.target);
      assert Some(p.orders[i].snapshot.orderId) == intent.target;
    }
  }

  /** Once a position is closed, the snapshot never counts as the broker's word again, and no order or
      modification of any instrument is approved. */
  lemma {:induction false} ClosedPositionStopsTrading(p: Paper, config: Config, intent: Intent, standing: Capture.Standing, c: Context, k: nat)
    requires k < |p.positions| && p.positions[k].quantity == 0 && !intent.action.Cancel?
    ensures !Approved(Evaluate(config, intent, Snap(p, intent, standing, c)))
  {
    hide Evaluate, Approved, PositionOk, GrossOk, EvidenceOk, TimeOk, ObservationOk, Recent, SeeOrders, SeePositions, Outstanding, SellOk;
    var s := Snap(p, intent, standing, c);
    ApprovedIff(config, intent, s);
    if c.route.Some? {
      PositionsAreSeen(QueryPositions(p), c);
      assert QueryPositions(p)[k].quantity == 0;
    }
  }

  // ---------------------------------------------------------------- accepting an intent

  /** What accepting an intent at once does to the broker: nothing, unless the risk rules approve it. */
  function Accept(p: Paper, config: Config, intent: Intent, standing: Capture.Standing, c: Context, orderId: string, time: int64,
                  baseline: uint64): Paper {
    if !Approved(Evaluate(config, intent, Snap(p, intent, standing, c))) then p
    else
      match intent.action
      case Place =>
        if c.route.None? || intent.side.None? || intent.quantity.None? || intent.limitPrice.None? then p
        else PlaceOrder(p, Request(orderId, intent.intentId, c.route.value, intent.side.value, intent.quantity.value,
                                   intent.limitPrice.value, time, baseline)).0
      case Modify =>
        if intent.target.None? || intent.quantity.None? || intent.limitPrice.None? then p
        else ModifyOrder(p, intent.target.value, intent.quantity.value, intent.limitPrice.value).0
      case Cancel => if intent.target.None? then p else CancelOrder(p, intent.target.value).0
  }

  lemma {:induction false} PlacedIsSafe(p: Paper, r: Request, routes: Routes)
    requires NeverShort(p, routes) && OneToOne(routes) && r.route.instrument in routes && r.route == routes[r.route.instrument]
    requires r.quantity <= INT64_MAX
    requires r.side.Sell? ==> WorkingSell(p.orders, r.route.instrument) + r.quantity <= Quantity(p.positions, r.route.instrument)
    ensures NeverShort(PlaceOrder(p, r).0, routes)
  {
    hide Quantity, FindOrder, InsertOrder, WorkingSell, Sound, FindPosition;
    var q := PlaceOrder(p, r).0;
    PlaceIsSound(p, r);
    if q.orders != p.orders {
      var snapshot := OrderSnapshot(r.orderId, r.route.instrument, r.route.token, r.side, r.quantity, r.limitPrice, 0, Working);
      var x := PaperOrder(r, snapshot, r.baseline, false, false);
      var k := InsertOrderPlaces(p.orders, x);
      forall instrument ensures Quantity(q.positions, instrument) >= WorkingSell(q.orders, instrument) {
        SellInsert(p.orders, x, instrument);
        assert Quantity(p.positions, instrument) >= WorkingSell(p.orders, instrument);
      }
    }
  }

  lemma {:induction false} ModifiedIsSafe(p: Paper, i: nat, quantity: uint64, limitPrice: uint64, routes: Routes)
    requires NeverShort(p, routes) && i < |p.orders| && Live(p.orders[i].snapshot.status)
    requires var x := p.orders[i].snapshot;
             x.side.Sell? ==>
               WorkingSell(p.orders, x.instrument) - (x.quantity - x.filled) + (quantity - x.filled) <= Quantity(p.positions, x.instrument)
    ensures NeverShort(ModifyOrder(p, p.orders[i].snapshot.orderId, quantity, limitPrice).0, routes)
  {
    hide Quantity, FindOrder, WorkingSell, FindPosition, UniquePositions;
    var id := p.orders[i].snapshot.orderId;
    var q := ModifyOrder(p, id, quantity, limitPrice).0;
    FindOrderIs(p.orders, i);
    ModifyIsSound(p, id, quantity, limitPrice);
    if q.orders != p.orders {
      forall instrument ensures Quantity(q.positions, instrument) >= WorkingSell(q.orders, instrument) {
        SellUpdate(p.orders, i, q.orders[i], instrument);
        assert Quantity(p.positions, instrument) >= WorkingSell(p.orders, instrument);
      }
    }
  }

  /** Main step: whatever the rules approve leaves no position short. */
  lemma {:induction false} AcceptIsSafe(p: Paper, config: Config, intent: Intent, standing: Capture.Standing, c: Context, orderId: string,
                                        time: int64, baseline: uint64, routes: Routes)
    requires NeverShort(p, routes) && OneToOne(routes) && For(c, intent, routes) && Growable(p)
    ensures NeverShort(Accept(p, config, intent, standing, c, orderId, time, baseline), routes)
  {
    hide Evaluate, Approved, OneToOne, NeverShort, WorkingSell, Quantity, Snap;
    var s := Snap(p, intent, standing, c);
    if Approved(Evaluate(config, intent, s)) {
      if intent.action.Cancel? {
        SafeIsSound(p, routes);
        if intent.target.Some? {
          CancelIsSafe(p, intent.target.value, routes);
        }
      } else {
        ApprovedIsCovered(p, config, intent, standing, c, routes);
        RouteIsItsOwn(routes, intent.instrument);
        if intent.action.Place? {
          PlacedIsSafe(p, Request(orderId, intent.intentId, c.route.value, intent.side.value, intent.quantity.value,
                                  intent.limitPrice.value, time, baseline), routes);
        } else {
          var i :| 0 <= i < |p.orders| && Some(p.orders[i].snapshot.orderId) == intent.target
                   && p.orders[i].snapshot.filled <= p.orders[i].snapshot.quantity
                   && s.target == Some(AsWorking(p.orders[i].snapshot)) && Live(p.orders[i].snapshot.status);
          TargetIsReserved(p, i, intent.instrument, routes);
          ModifiedIsSafe(p, i, intent.quantity.value, intent.limitPrice.value, routes);
        }
      }
    }
  }

  lemma RouteIsItsOwn(routes: Routes, instrument: string)
    requires OneToOne(routes) && instrument in routes
    ensures routes[instrument].instrument == instrument
  {
  }

  /** A live sell order is part of what its instrument has promised. */
  lemma TargetIsReserved(p: Paper, i: nat, instrument: string, routes: Routes)
    requires NeverShort(p, routes) && i < |p.orders| && Live(p.orders[i].snapshot.status)
    ensures p.orders[i].snapshot.side.Sell? && p.orders[i].snapshot.instrument == instrument ==>
              p.orders[i].snapshot.quantity - p.orders[i].snapshot.filled <= WorkingSell(p.orders, instrument)
  {
    hide WorkingSell, Covered;
    OneSellIsPart(p.orders, i, instrument);
  }

  /** The request of an approved placement. */
  function RequestOf(intent: Intent, orderId: string, route: Route, time: int64, baseline: uint64): Request
    requires ShapeOk(intent)
  {
    Request(orderId, intent.intentId, route, intent.side.value, intent.quantity.value, intent.limitPrice.value, time, baseline)
  }

  /** Accepting at once matters. Two sells of an instrument, each approved on the one state `p` and so each covered
      on its own, promise more than is held exactly when together they ask for more than was left. */
  lemma {:induction false} DecidedTogetherOversell(p: Paper, config: Config, a: Intent, b: Intent, standing: Capture.Standing,
                                                   c: Context, routes: Routes, x: string, y: string, time: int64, baseline: uint64)
    requires NeverShort(p, routes) && OneToOne(routes) && For(c, a, routes) && For(c, b, routes) && Growable(p)
    requires a.action.Place? && b.action.Place? && a.side == b.side == Some(OrderStateMachine.Sell) && a.instrument == b.instrument
    requires Approved(Evaluate(config, a, Snap(p, a, standing, c))) && Approved(Evaluate(config, b, Snap(p, b, standing, c)))
    ensures ShapeOk(a) && ShapeOk(b) && c.route.Some?
    ensures var left := Quantity(p.positions, a.instrument) - WorkingSell(p.orders, a.instrument);
            var ra, rb := RequestOf(a, x, c.route.value, time, baseline), RequestOf(b, y, c.route.value, time, baseline);
            var one, both := PlaceOrder(p, ra), PlaceOrder(PlaceOrder(p, ra).0, rb);
            && a.quantity.value <= left && b.quantity.value <= left
            && (one.1.verdict.Acknowledged? && both.1.verdict.Acknowledged? ==>
                  (WorkingSell(both.0.orders, a.instrument) > Quantity(both.0.positions, a.instrument)
                   <==> a.quantity.value + b.quantity.value > left))
  {
    hide Quantity, FindOrder, InsertOrder, WorkingSell, NeverShort, Snap, Evaluate, Approved, OneToOne, Growable, ModifyTargetOk;
    ApprovedIsCovered(p, config, a, standing, c, routes);
    ApprovedIsCovered(p, config, b, standing, c, routes);
    RouteIsItsOwn(routes, a.instrument);
    var ra, rb := RequestOf(a, x, c.route.value, time, baseline), RequestOf(b, y, c.route.value, time, baseline);
    SellInsert(p.orders, Placed(ra), a.instrument);
    SellInsert(InsertOrder(p.orders, Placed(ra)), Placed(rb), a.instrument);
  }

  function Placed(r: Request): PaperOrder {
    PaperOrder(r, OrderSnapshot(r.orderId, r.route.instrument, r.route.token, r.side, r.quantity, r.limitPrice, 0, Working),
               r.baseline, false, false)
  }

  // ---------------------------------------------------------------- whole runs

  datatype Deed =
    | Accepting(config: Config, intent: Intent, standing: Capture.Standing, context: Context, orderId: string, time: int64,
                baseline: uint64)
    | Observed(observation: Observation)
    | Scripted(event: ScriptEvent)

  ghost function After(p: Paper, d: Deed): Paper
    requires Sound(p)
  {
    match d
    case Accepting(config, intent, standing, c, orderId, time, baseline) => Accept(p, config, intent, standing, c, orderId, time, baseline)
    case Observed(o) => Observe(p, o).0
    case Scripted(event) => ApplyScript(p, event).paper
  }

  lemma {:induction false} AfterIsSafe(p: Paper, d: Deed, routes: Routes)
    requires Sound(p) && NeverShort(p, routes) && OneToOne(routes)
    requires d.Accepting? ==> For(d.context, d.intent, routes) && Growable(p)
    ensures NeverShort(After(p, d), routes)
  {
    hide Sound, NeverShort, Accept, OneToOne, For, Growable, Observe, ApplyScript;
    match d
    case Accepting(config, intent, standing, c, orderId, time, baseline) =>
      AcceptIsSafe(p, config, intent, standing, c, orderId, time, baseline, routes);
    case Observed(o) => ObserveIsSafe(p, o, routes);
    case Scripted(event) => ScriptIsSafe(p, event, routes);
  }

  /** The states of a run: each follows from the one before, and intents are accepted on their routes while
      every position can still grow. */
  ghost predicate Trace(states: seq<Paper>, deeds: seq<Deed>, routes: Routes) {
    && |states| == |deeds| + 1
    && forall i :: 0 <= i < |deeds| ==>
         Sound(states[i])
         && (deeds[i].Accepting? ==> For(deeds[i].context, deeds[i].intent, routes) && Growable(states[i]))
         && states[i + 1] == After(states[i], deeds[i])
  }

  /** Main result: from an empty paper broker, over any interleaving of accepted intents, observations and
      scripted events, every instrument's position is at least what its working sell orders can still sell,
      and so never negative. */
  lemma {:induction false} NeverShortOverRuns(scripted: bool, states: seq<Paper>, deeds: seq<Deed>, routes: Routes)
    requires OneToOne(routes) && Trace(states, deeds, routes) && states[0] == EmptyPaper(scripted)
    ensures forall i, instrument :: 0 <= i < |states| ==>
              Quantity(states[i].positions, instrument) >= WorkingSell(states[i].orders, instrument) >= 0
  {
    hide Quantity, WorkingSell, OneToOne, Sound, After;
    forall i, instrument | 0 <= i < |states|
      ensures Quantity(states[i].positions, instrument) >= WorkingSell(states[i].orders, instrument) >= 0
    {
      StateIsSafe(scripted, states, deeds, routes, i);
      SafeIsNatural(states[i], routes, instrument);
    }
  }

  lemma {:induction false} StateIsSafe(scripted: bool, states: seq<Paper>, deeds: seq<Deed>, routes: Routes, i: nat)
    requires OneToOne(routes) && Trace(states, deeds, routes) && states[0] == EmptyPaper(scripted) && i < |states|
    ensures NeverShort(states[i], routes)
  {
    hide OneToOne, Sound, After, NeverShort, For, Growable;
    if i == 0 {
      EmptyIsSafe(scripted, routes);
    } else {
      StateIsSafe(scripted, states, deeds, routes, i - 1);
      AfterIsSafe(states[i - 1], deeds[i - 1], routes);
      assert states[i - 1 + 1] == After(states[i - 1], deeds[i - 1]);
    }
  }

  lemma EmptyIsSafe(scripted: bool, routes: Routes)
    ensures NeverShort(EmptyPaper(scripted), routes)
  {
  }

  lemma SafeIsNatural(p: Paper, routes: Routes, instrument: string)
    requires NeverShort(p, routes)
    ensures Quantity(p.positions, instrument) >= WorkingSell(p.orders, instrument) >= 0
  {
    hide Quantity, WorkingSell;
    SellIsNatural(p.orders, instrument);
  }
}
