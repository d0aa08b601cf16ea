/**
 Whole runs over the paper broker: after every request and every observation the mirror is exactly what the
 broker reports, so the reconciler finds no incident, as long as the broker's session is up.
*/
module DeskRuns {
  import opened Base
  import OSM = OrderStateMachine
  import opened PaperBroker
  import opened Mirror
  import opened Capture
  import Reconciliation
  import Inventory
  import opened Desk
  import Risk

  datatype Act =
    | Placing(request: Request, eventId: string, placeAnswer: string)
    | Changing(changed: string, quantity: uint64, limitPrice: uint64, changeId: string, changeAnswer: string)
    | Cancelling(cancelled: string, cancelId: string, cancelAnswer: string)
    | Watching(observation: Risk.Observation)

  /** An act of a session: a new order goes out on its instrument's route, and a request and its answer have ids of
      the session's that were not used before. */
  ghost predicate Fit(d: Desk, act: Act, routes: Routes) {
    match act
    case Placing(r, eventId, _) =>
      SessionId(eventId) && r.orderId !in d.live && r.route.instrument in routes && routes[r.route.instrument].token == r.route.token
    case Changing(id, _, _, requestId, answerId) =>
      && SessionId(requestId) && SessionId(answerId) && requestId != answerId
      && (id in d.live ==>
            OSM.FindEvidence(d.live[id].evidence, requestId).None? && OSM.FindEvidence(d.live[id].evidence, answerId).None?)
    case Cancelling(id, requestId, _) =>
      SessionId(requestId) && (id in d.live ==> OSM.FindEvidence(d.live[id].evidence, requestId).None?)
    case Watching(_) => true
  }

  ghost function Step(d: Desk, act: Act): Desk
    requires Sound(d.paper)
  {
    match act
    case Placing(r, eventId, answerId) => DoPlace(d, r, eventId, answerId)
    case Changing(id, quantity, limitPrice, requestId, answerId) => DoModify(d, id, quantity, limitPrice, requestId, answerId)
    case Cancelling(id, requestId, answerId) => DoCancel(d, id, requestId, answerId)
    case Watching(o) => DoObserve(d, o)
  }

  /** The broker sees an observation; the session then takes the update of each fill. */
  ghost function DoObserve(d: Desk, o: Risk.Observation): Desk
    requires Sound(d.paper)
  {
    var (p, fills) := Observe(d.paper, o);
    var (m, live) := TakeFills(d.mirror, d.live, fills);
    Desk(p, m, live)
  }

  /** The mirror holds what the broker has; and while the broker's session is up, so do the live orders. */
  ghost predicate InStep(d: Desk, routes: Routes) {
    && Mirrors(d.paper, d.mirror) && Tidy(d.paper, routes) && !d.paper.health.Unknown?
    && (d.paper.health.Ready? ==> LiveAgrees(d.paper, d.live))
  }

  lemma {:induction false} ObserveIsInStep(d: Desk, o: Risk.Observation, routes: Routes)
    requires InStep(d, routes) && Inventory.OneToOne(routes) && Sound(d.paper)
    ensures InStep(DoObserve(d, o), routes)
  {
    hide Mirrors, LiveAgrees, Tidy, ObserveOrders, Sound, TakeFill, UpdatePeak, Inventory.OneToOne;
    var p := d.paper;
    if p.health.Ready? && Usable(o) {
      AgreesIsSound(p, d.mirror, d.live);
      var marked := Marked(p, o);
      MarkedReads(p, o, d, routes);
      ObserveOrdersAgrees(marked, 0, o, [], d.mirror, d.live);
      ObservationLosesOrKeeps(marked, 0, o, []);
      ObserveOrdersIsTidy(marked, 0, o, [], routes);
      var fills := ObserveOrders(marked, 0, o, []).1;
      assert fills[0..] == fills;
    }
  }

  /** A fill that overflows a position loses the broker's session; nothing else in an observation changes its health. */
  lemma {:induction false} ObservationLosesOrKeeps(p: Paper, i: nat, o: Risk.Observation, generated: seq<Fill>)
    requires Sound(p) && i <= |p.orders|
    ensures var q := ObserveOrders(p, i, o, generated).0; q.health == p.health || q.health.Lost?
    decreases |p.orders| - i
  {
    hide Sound, ObserveOrder, Equity;
    if i < |p.orders| {
      ObserveOrderIsSound(p, i, o);
      OrderLosesOrKeeps(p, i, o);
      var (next, fill) := ObserveOrder(p, i, o);
      ObservationLosesOrKeeps(next, i + 1, o, if fill.Some? then generated + [fill.value] else generated);
    }
  }

  lemma {:induction false} OrderLosesOrKeeps(p: Paper, i: nat, o: Risk.Observation)
    requires Sound(p) && i < |p.orders|
    ensures var q := ObserveOrder(p, i, o).0; q.health == p.health || q.health.Lost?
  {
    hide Equity, PaperId, Notional, SetQuantity, Quantity, UniqueOrders, UniquePositions;
  }

  lemma MarkedReads(p: Paper, o: Risk.Observation, d: Desk, routes: Routes)
    requires Agrees(p, d.mirror, d.live) && Tidy(p, routes)
    ensures Sound(Marked(p, o)) && Agrees(Marked(p, o), d.mirror, d.live) && Tidy(Marked(p, o), routes)
  {
    var marked := Marked(p, o);
    SoundReads(p, marked) by { AgreesIsSound(p, d.mirror, d.live); }
    AgreesIsSound(p, d.mirror, d.live);
    hide Agrees, Tidy, Sound;
    AgreesReads(p, marked, d.mirror, d.live);
    TidyReads(p, marked, routes);
  }

  lemma RouteOfTidy(p: Paper, route: Risk.Route, routes: Routes)
    requires Tidy(p, routes) && route.instrument in routes && routes[route.instrument].token == route.token
    ensures OnRoute(p, route)
  {
  }

  lemma {:induction false} StepIsInStep(d: Desk, act: Act, routes: Routes)
    requires InStep(d, routes) && Inventory.OneToOne(routes) && Sound(d.paper) && Fit(d, act, routes)
    ensures InStep(Step(d, act), routes)
  {
    hide Mirrors, LiveAgrees, Tidy, Sound, Inventory.OneToOne, PlaceOrder, ModifyOrder, CancelOrder, StartedOrder, OSM.ApplyOrderUpdate,
         OnRoute, Answered, DoPlace, DoModify, DoCancel;
    if !d.paper.health.Ready? && !act.Watching? {
      LostIsInStep(d, act, routes);
    } else {
      match act
      case Placing(r, eventId, answerId) =>
        RouteOfTidy(d.paper, r.route, routes);
        PlaceAgrees(d, r, eventId, answerId);
        PlaceIsTidy(d.paper, r, routes);
        PaperOfRequests(d, act);
      case Changing(id, quantity, limitPrice, requestId, answerId) =>
        ModifyAgrees(d, id, quantity, limitPrice, requestId, answerId);
        RequestIsTidy(d.paper, id, quantity, limitPrice, routes);
        PaperOfRequests(d, act);
      case Cancelling(id, requestId, answerId) =>
        CancelAgrees(d, id, requestId, answerId);
        RequestIsTidy(d.paper, id, 0, 0, routes);
        PaperOfRequests(d, act);
      case Watching(o) => ObserveIsInStep(d, o, routes);
    }
  }

  lemma RequestsKeepHealth(p: Paper, act: Act)
    ensures act.Placing? ==> PlaceOrder(p, act.request).0.health == p.health
    ensures act.Changing? ==> ModifyOrder(p, act.changed, act.quantity, act.limitPrice).0.health == p.health
    ensures act.Cancelling? ==> CancelOrder(p, act.cancelled).0.health == p.health
  {
    hide FindOrder, InsertOrder, PaperId;
  }

  /** What a request makes of the broker, if it gets there. */
  lemma PaperOfRequests(d: Desk, act: Act)
    requires Sound(d.paper) && !act.Watching?
    ensures match act
            case Placing(r, _, _) => Step(d, act).paper == PlaceOrder(d.paper, r).0
            case Changing(id, quantity, limitPrice, _, _) =>
              Step(d, act).paper == d.paper || Step(d, act).paper == ModifyOrder(d.paper, id, quantity, limitPrice).0
            case Cancelling(id, _, _) => Step(d, act).paper == d.paper || Step(d, act).paper == CancelOrder(d.paper, id).0
            case _ => true
    ensures Step(d, act).paper.health == d.paper.health
  {
    RequestsKeepHealth(d.paper, act);
    hide PlaceOrder, ModifyOrder, CancelOrder, StartedOrder, OSM.ApplyOrderUpdate, Answered, AfterModify, AfterCancel;
  }

  /** A broker whose session is not up leaves every request unclear, and changes nothing but its counter. */
  lemma {:induction false} LostIsInStep(d: Desk, act: Act, routes: Routes)
    requires InStep(d, routes) && Sound(d.paper) && !d.paper.health.Ready? && !act.Watching?
    ensures InStep(Step(d, act), routes)
  {
    hide Tidy, Sound, StartedOrder, OSM.ApplyOrderUpdate, LiveAgrees, FindOrder, InsertOrder;
    var e := Step(d, act);
    assert e.mirror == d.mirror && (e.paper == d.paper || e.paper == d.paper.(sequence := d.paper.sequence + 1));
    CounterIsTidy(d.paper, e.paper, routes);
    SoundReads(d.paper, e.paper);
    MirrorsReads(d.paper, e.paper, d.mirror);
  }

  lemma MirrorsReads(p: Paper, q: Paper, m: Mirrored)
    requires Mirrors(p, m) && (q == p || q == p.(sequence := p.sequence + 1))
    ensures Mirrors(q, m)
  {
    hide TokenOf;
    SoundReads(p, q);
  }

  /** The states of a run. */
  ghost predicate Trace(states: seq<Desk>, acts: seq<Act>, routes: Routes) {
    && |states| == |acts| + 1 && states[0] == NewDesk()
    && forall i :: 0 <= i < |acts| ==>
         Sound(states[i].paper) && Fit(states[i], acts[i], routes) && states[i + 1] == Step(states[i], acts[i])
  }

  lemma {:induction false} StatesAreInStep(states: seq<Desk>, acts: seq<Act>, routes: Routes, i: nat)
    requires Inventory.OneToOne(routes) && Trace(states, acts, routes) && i < |states|
    ensures InStep(states[i], routes)
  {
    hide InStep, Inventory.OneToOne, Sound, Fit, Step;
    if i == 0 {
      NewDeskIsInStep(routes);
    } else {
      StatesAreInStep(states, acts, routes, i - 1);
      StepIsInStep(states[i - 1], acts[i - 1], routes);
      assert states[i - 1 + 1] == Step(states[i - 1], acts[i - 1]);
    }
  }

  lemma NewDeskIsInStep(routes: Routes)
    ensures InStep(NewDesk(), routes)
  {
  }

  // ---------------------------------------------------------------- exact agreement

  /** What the broker reports: with authority, unless its session is lost. */
  function Reported<T>(p: Paper, items: seq<T>): Reconciliation.Report<T> {
    Reconciliation.Report(!p.health.Lost?, true, items)
  }

  lemma {:induction false} OrdersAreSame(p: Paper, m: Mirrored, live: map<string, OSM.Order>, routes: Routes)
    requires Mirrors(p, m) && LiveAgrees(p, live) && Tidy(p, routes) && Inventory.OneToOne(routes)
    ensures Reconciliation.SameItems(m.orders, QueryOrders(p), Reconciliation.OrderKey, Reconciliation.ValidOrder)
  {
    hide SameOrder, TokenOf, PositionsAgree, UniquePositions, ValidFills;
    var xs := QueryOrders(p);
    forall x ensures x in m.orders <==> x in xs {
      if x in m.orders {
        var i :| 0 <= i < |p.orders| && p.orders[i].snapshot == x;
        assert xs[i] == x;
      }
      if x in xs {
        var i :| 0 <= i < |xs| && xs[i] == x;
        assert p.orders[i].snapshot in m.orders;
      }
    }
    forall i | 0 <= i < |xs| ensures Reconciliation.ValidOrder(xs[i]) {
      assert xs[i] == p.orders[i].snapshot;
      OrderIsReported(p, live, i);
    }
    forall i | 0 <= i < |m.orders| ensures Reconciliation.ValidOrder(m.orders[i]) {
      assert m.orders[i] in xs;
    }
  }

  lemma OrderIsReported(p: Paper, live: map<string, OSM.Order>, i: nat)
    requires LiveAgrees(p, live) && i < |p.orders|
    ensures Capture.Reported(p.orders[i].snapshot.status)
  {
    assert SameOrder(p.orders[i].snapshot, live[p.orders[i].snapshot.orderId], p.sequence);
  }

  lemma {:induction false} PositionsAreSame(p: Paper, m: Mirrored, live: map<string, OSM.Order>, routes: Routes)
    requires Mirrors(p, m) && Tidy(p, routes) && Inventory.OneToOne(routes)
    ensures Reconciliation.SameItems(m.positions, QueryPositions(p), Reconciliation.PositionKey, Reconciliation.ValidHeld)
    ensures Reconciliation.DistinctTokens(QueryPositions(p))
  {
    hide SameOrder, TokenOf, OrdersAgree, UniqueOrders, ValidFills, LiveAgrees, Inventory.OneToOne;
    var xs := QueryPositions(p);
    forall x ensures x in m.positions <==> x in xs {
      if x in m.positions {
        assert Position(x.instrument, x.quantity) in p.positions;
        var i :| 0 <= i < |p.positions| && p.positions[i] == Position(x.instrument, x.quantity);
        assert xs[i] == x;
      }
      if x in xs {
        var i :| 0 <= i < |xs| && xs[i] == x;
        assert p.positions[i] in p.positions;
      }
    }
    forall i | 0 <= i < |xs| ensures xs[i].instrument in routes && routes[xs[i].instrument].token == xs[i].token && xs[i].token != "" {
      PositionIsRouted(p, i, routes);
    }
    forall i, j | 0 <= i < j < |xs| ensures xs[i].token != xs[j].token {
      TokensDiffer(routes, xs[i].instrument, xs[j].instrument);
      assert p.positions[i].instrument != p.positions[j].instrument;
    }
    forall i | 0 <= i < |m.positions| ensures Reconciliation.ValidHeld(m.positions[i]) {
      assert m.positions[i] in xs;
    }
  }

  lemma TokensDiffer(routes: Routes, a: string, b: string)
    requires Inventory.OneToOne(routes) && a in routes && b in routes
    ensures a != b ==> routes[a].token != routes[b].token
  {
  }

  lemma {:induction false} PositionIsRouted(p: Paper, i: nat, routes: Routes)
    requires Orderly(p) && Tidy(p, routes) && Inventory.OneToOne(routes) && i < |p.positions|
    ensures var x := p.positions[i];
            x.instrument in routes && routes[x.instrument].token == TokenOf(p.orders, x.instrument) && routes[x.instrument].token != ""
  {
    hide TokenOf, ValidFills, SoundOrder;
    assert p.positions[i] in p.positions;
    var j :| 0 <= j < |p.orders| && p.orders[j].snapshot.instrument == p.positions[i].instrument;
    TokenIs(p.orders, j);
  }

  lemma FillsAreSame(p: Paper, routes: Routes)
    requires Tidy(p, routes)
    ensures Reconciliation.SameItems(p.fills, p.fills, Reconciliation.FillKey, Reconciliation.ValidFill)
  {
    hide Issued, Reconciliation.ValidFill;
  }

  ghost predicate ExactlyAgrees(d: Desk) {
    Reconciliation.Agreement(d.mirror, Reported(d.paper, QueryOrders(d.paper)), Reported(d.paper, d.paper.fills),
                             Reported(d.paper, QueryPositions(d.paper)))
  }

  /** Main result: in every state of every run, the mirror and the broker's reports are in exact agreement, which is
      when the reconciler reports no incident, exactly when the broker's session is not lost. */
  lemma {:induction false} MirrorIsExact(states: seq<Desk>, acts: seq<Act>, routes: Routes)
    requires Inventory.OneToOne(routes) && Trace(states, acts, routes)
    ensures forall i :: 0 <= i < |states| ==> (ExactlyAgrees(states[i]) <==> !states[i].paper.health.Lost?)
  {
    hide Inventory.OneToOne, Trace, Reconciliation.SameItems, Reconciliation.DistinctTokens, Tidy, Orderly, LiveAgrees, OrdersAgree,
         PositionsAgree;
    forall i | 0 <= i < |states| ensures ExactlyAgrees(states[i]) <==> !states[i].paper.health.Lost? {
      var d := states[i];
      StatesAreInStep(states, acts, routes, i);
      if d.paper.health.Ready? {
        OrdersAreSame(d.paper, d.mirror, d.live, routes);
        FillsAreSame(d.paper, routes);
        PositionsAreSame(d.paper, d.mirror, d.live, routes);
      }
    }
  }

  /** The session is lost only by a fill that takes a position out of the machine's range. */
  lemma {:induction false} FillLosesSessionIff(p: Paper, i: nat, requested: uint64, timestamp: int64)
    requires Sound(p) && i < |p.orders| && p.orders[i].snapshot.filled <= requested && p.health.Ready?
    ensures var x := p.orders[i].snapshot;
            var position := Quantity(p.positions, x.instrument) + SignedFill(x.side, Min(requested, x.quantity) - x.filled);
            FillAt(p, i, requested, timestamp).0.health.Lost? <==> !(INT64_MIN <= position <= INT64_MAX)
  {
    hide Equity, PaperId, Notional, SetQuantity, Quantity, UniqueOrders, UniquePositions;
  }
}
