/**
 What the paper broker answers to a request, and what the request or a scripted event changes, in terms of the fields of
 the order that it names.
*/
module PaperAnswers {
  import opened Base
  import opened Risk
  import opened PaperBroker
  import OrderStateMachine

  /** The order at `i` is the one that is named. */
  predicate At(p: Paper, i: nat, id: string) {
    i < |p.orders| && p.orders[i].snapshot.orderId == id
  }

  predicate Over(status: Status) {
    status == Filled || status == Cancelled || status == Rejected
  }

  /** Nothing but orders and the counter changed. */
  predicate OnlyOrders(p: Paper, q: Paper) {
    q == p.(orders := q.orders, sequence := p.sequence + 1)
  }

  /** The order at `i` became `n`; the others are as they were. */
  predicate OnlyThis(p: Paper, q: Paper, i: nat, n: PaperOrder) {
    i < |p.orders| && q.orders == p.orders[i := n]
  }

  /** The broker takes a placement: it is up, the request is complete, and its id is new. */
  predicate Placeable(p: Paper, r: Request) {
    && r.orderId != "" && 0 < r.quantity <= INT64_MAX && 0 < r.limitPrice && r.route.instrument != ""
    && forall i :: 0 <= i < |p.orders| ==> p.orders[i].snapshot.orderId != r.orderId
  }

  /** The broker takes a modification of an order that is not over, to a quantity that is not filled already. */
  predicate Modifiable(p: Paper, i: nat, quantity: uint64, limitPrice: uint64)
    requires i < |p.orders|
  {
    && !Over(p.orders[i].snapshot.status) && p.orders[i].snapshot.filled <= quantity && 0 < quantity <= INT64_MAX
    && 0 < limitPrice
  }

  /** Main result: a placement is acknowledged exactly when the broker is up, the request is complete and its id is new;
      the order is then added with the terms of the request, unfilled. It is unclear exactly when the broker is not up. */
  lemma {:induction false} PlacementIsAnswered(p: Paper, r: Request) returns (k: nat)
    ensures k <= |p.orders|
    ensures var (q, m) := PlaceOrder(p, r);
            && OnlyOrders(p, q) && m.orderId == r.orderId
            && (m.verdict == Unclear <==> p.health != Ready)
            && (m.verdict == Acknowledged <==> p.health == Ready && Placeable(p, r))
            && (m.verdict != Acknowledged ==> q.orders == p.orders && m.correlation == None && m.error.Some?)
            && (m.verdict == Acknowledged ==>
                  && m.correlation == Some(PaperId(p.sequence + 1)) && m.error == None && !m.terminal
                  && var x := OrderSnapshot(r.orderId, r.route.instrument, r.route.token, r.side, r.quantity, r.limitPrice, 0, Working);
                     q.orders == p.orders[..k] + [PaperOrder(r, x, r.baseline, false, false)] + p.orders[k..])
  {
    FindOrderFinds(p.orders, r.orderId);
    hide FindOrder, InsertOrder, PaperId;
    var x := OrderSnapshot(r.orderId, r.route.instrument, r.route.token, r.side, r.quantity, r.limitPrice, 0, Working);
    k := InsertOrderPlaces(p.orders, PaperOrder(r, x, r.baseline, false, false));
  }

  /** Main result: a modification is acknowledged exactly when the broker is up and the order it names can be modified;
      quantity and price are then the ones asked for, and nothing else changed. */
  lemma {:induction false} ModificationIsAnswered(p: Paper, i: nat, id: string, quantity: uint64, limitPrice: uint64)
    requires Sound(p)
    ensures var (q, m) := ModifyOrder(p, id, quantity, limitPrice);
            && OnlyOrders(p, q) && m.orderId == id
            && (m.verdict == Unclear <==> p.health != Ready)
            && (At(p, i, id) ==> (m.verdict == Acknowledged <==> p.health == Ready && Modifiable(p, i, quantity, limitPrice)))
            && ((forall j :: 0 <= j < |p.orders| ==> p.orders[j].snapshot.orderId != id) ==> m.verdict != Acknowledged)
            && (m.verdict != Acknowledged ==> q.orders == p.orders && m.error.Some?)
            && (m.verdict == Acknowledged ==>
                  && m.acceptedQuantity == Some(quantity) && m.acceptedPrice == Some(limitPrice)
                  && m.correlation == Some(PaperId(p.sequence + 1))
                  && (At(p, i, id) ==>
                        var x := p.orders[i];
                        OnlyThis(p, q, i, x.(request := x.request.(quantity := quantity, limitPrice := limitPrice),
                                             snapshot := x.snapshot.(quantity := quantity, limitPrice := limitPrice)))))
  {
    FindOrderFinds(p.orders, id);
    if At(p, i, id) {
      FindOrderIs(p.orders, i);
    }
    hide FindOrder, PaperId, Sound;
  }

  /** Main result: a cancellation is acknowledged exactly when the broker is up and the order it names is open or was
      cancelled before; the order is then cancelled, with what it had filled. */
  lemma {:induction false} CancellationIsAnswered(p: Paper, i: nat, id: string)
    requires Sound(p)
    ensures var (q, m) := CancelOrder(p, id);
            && OnlyOrders(p, q) && m.orderId == id
            && (m.verdict == Unclear <==> p.health != Ready)
            && (At(p, i, id) ==>
                  (m.verdict == Acknowledged <==>
                   p.health == Ready && p.orders[i].snapshot.status != Filled && p.orders[i].snapshot.status != Rejected))
            && ((forall j :: 0 <= j < |p.orders| ==> p.orders[j].snapshot.orderId != id) ==> m.verdict != Acknowledged)
            && (m.verdict != Acknowledged ==> q.orders == p.orders && m.error.Some? && !m.terminal)
            && (m.verdict == Acknowledged ==>
                  && m.terminal && m.correlation == Some(PaperId(p.sequence + 1))
                  && (At(p, i, id) ==> OnlyThis(p, q, i, p.orders[i].(snapshot := p.orders[i].snapshot.(status := Cancelled)))))
  {
    FindOrderFinds(p.orders, id);
    if At(p, i, id) {
      FindOrderIs(p.orders, i);
      CancelledAgain(p, i);
    }
    hide FindOrder, PaperId, Sound;
  }

  lemma CancelledAgain(p: Paper, i: nat)
    requires i < |p.orders|
    ensures p.orders[i].snapshot.status == Cancelled ==>
              p.orders[i := p.orders[i].(snapshot := p.orders[i].snapshot.(status := Cancelled))] == p.orders
  {
  }

  // ---------------------------------------------------------------- scripted events

  /** A scripted event the broker can read. */
  predicate Readable(e: ScriptEvent) {
    e.updateId != "" && |e.updateId| <= 64 && e.orderId != "" && 0 <= e.timestamp
  }

  predicate ScriptsFill(e: ScriptEvent) {
    e.kind == PartialFill || e.kind == CompleteFill
  }

  /** A scripted event that cannot be read throws; one that came before changes nothing; the loss of the session is
      noted, and so is an event for an order that there is not. */
  lemma {:induction false} ScriptIsRead(p: Paper, e: ScriptEvent)
    requires Sound(p)
    ensures var s := ApplyScript(p, e);
            var noted := p.(scriptUpdates := p.scriptUpdates + [e.updateId]);
            && (!Readable(e) ==> s == ScriptStep(p, None, true))
            && (Readable(e) && e.updateId in p.scriptUpdates ==> s == ScriptStep(p, None, false))
            && (Readable(e) && e.updateId !in p.scriptUpdates ==>
                  && (e.kind == SessionLoss ==> s == ScriptStep(noted.(health := Lost), None, false))
                  && (e.kind != SessionLoss && (forall j :: 0 <= j < |p.orders| ==> p.orders[j].snapshot.orderId != e.orderId) ==>
                        s == ScriptStep(noted, None, false)))
  {
    FindOrderFinds(p.orders, e.orderId);
    hide FindOrder, ApplyScriptTo, Sound;
  }

  /** Main result: what a new scripted event does to the order that it names: it rejects it, leaves it undecided, or fills
      it up to the quantity it says, at its limit price; it throws exactly when that is more than the order's; and what is
      over stays as it is. */
  lemma {:induction false} ScriptMovesOrder(p: Paper, i: nat, e: ScriptEvent)
    requires Sound(p) && Readable(e) && e.updateId !in p.scriptUpdates && e.kind != SessionLoss && At(p, i, e.orderId)
    ensures var s := ApplyScript(p, e);
            var x := p.orders[i].snapshot;
            && s.paper.scriptUpdates == p.scriptUpdates + [e.updateId]
            && |s.paper.orders| == |p.orders| && (forall j :: 0 <= j < |p.orders| && j != i ==> s.paper.orders[j] == p.orders[j])
            && (s.failed <==> !Over(x.status) && ScriptsFill(e) && x.quantity < e.cumulative)
            && (s.fill.Some? <==> !Over(x.status) && ScriptsFill(e) && x.filled < e.cumulative <= x.quantity)
            && s.paper.orders[i].snapshot
               == (if Over(x.status) then x
                   else if e.kind == Reject then x.(status := Rejected)
                   else if e.kind == Ambiguity then x.(status := Undecided)
                   else if s.fill.Some? then
                     x.(filled := e.cumulative, status := if e.cumulative == x.quantity then Filled else PartiallyFilled)
                   else x)
            && (s.fill.Some? ==>
                  && s.fill.value.orderId == x.orderId && s.fill.value.cumulative == e.cumulative
                  && s.fill.value.last == e.cumulative - x.filled && s.fill.value.price == x.limitPrice)
            && (!Over(x.status) && e.kind == Ambiguity ==> s.paper.health == Unknown)
  {
    FindOrderFinds(p.orders, e.orderId);
    FindOrderIs(p.orders, i);
    hide FindOrder, ApplyScriptTo;
    var noted := p.(scriptUpdates := p.scriptUpdates + [e.updateId]);
    if !Ended(p.orders[i].snapshot.status) {
      ScriptApplies(noted, i, e);
    }
    hide Sound;
  }

  lemma {:induction false} ScriptApplies(p: Paper, i: nat, e: ScriptEvent)
    requires Sound(p) && i < |p.orders| && !Ended(p.orders[i].snapshot.status) && e.kind != SessionLoss
    ensures var s := ApplyScriptTo(p, i, e);
            var x := p.orders[i].snapshot;
            && s.paper.scriptUpdates == p.scriptUpdates
            && |s.paper.orders| == |p.orders| && (forall j :: 0 <= j < |p.orders| && j != i ==> s.paper.orders[j] == p.orders[j])
            && (s.failed <==> ScriptsFill(e) && x.quantity < e.cumulative)
            && (s.fill.Some? <==> ScriptsFill(e) && x.filled < e.cumulative <= x.quantity)
            && s.paper.orders[i].snapshot
               == (if e.kind == Reject then x.(status := Rejected)
                   else if e.kind == Ambiguity then x.(status := Undecided)
                   else if s.fill.Some? then
                     x.(filled := e.cumulative, status := if e.cumulative == x.quantity then Filled else PartiallyFilled)
                   else x)
            && (s.fill.Some? ==>
                  && s.fill.value.orderId == x.orderId && s.fill.value.cumulative == e.cumulative
                  && s.fill.value.last == e.cumulative - x.filled && s.fill.value.price == x.limitPrice)
            && (e.kind == Ambiguity ==> s.paper.health == Unknown)
  {
    if p.orders[i].snapshot.filled < e.cumulative <= p.orders[i].snapshot.quantity {
      ScriptedFill(p, i, e);
    }
    hide FillAt, UniqueOrders, UniquePositions;
  }

  lemma {:induction false} ScriptedFill(p: Paper, i: nat, e: ScriptEvent)
    requires Sound(p) && i < |p.orders| && p.orders[i].snapshot.filled < e.cumulative <= p.orders[i].snapshot.quantity
    ensures var (q, fill) := FillAt(p, i, e.cumulative, e.timestamp);
            var x := p.orders[i].snapshot;
            && |q.orders| == |p.orders| && q.scriptUpdates == p.scriptUpdates
            && (forall j :: 0 <= j < |p.orders| && j != i ==> q.orders[j] == p.orders[j])
            && q.orders[i].snapshot
               == x.(filled := e.cumulative, status := if e.cumulative == x.quantity then Filled else PartiallyFilled)
            && fill.orderId == x.orderId && fill.cumulative == e.cumulative && fill.last == e.cumulative - x.filled
            && fill.price == x.limitPrice
  {
    hide PaperId, Notional, SetQuantity, Quantity, AddValues, UniqueOrders, UniquePositions;
  }
}
