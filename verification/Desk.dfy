/**
 A faultless session over the paper broker: every request the rules let through is acknowledged, and every
 fill comes back as an update. After each of them the mirror is what the broker reports.
*/
module Desk {
  import opened Base
  import OSM = OrderStateMachine
  import opened PaperBroker
  import opened Mirror
  import opened Capture
  import Reconciliation
  import Inventory
  import Risk

  /** The broker, the session's mirror, and the live orders. */
  datatype Desk = Desk(paper: Paper, mirror: Mirrored, live: map<string, OSM.Order>)

  function NewDesk(): Desk {
    Desk(EmptyPaper(false), Mirrored([], [], []), map[])
  }

  // ---------------------------------------------------------------- updates for fills

  function FillEvidence(fill: Fill): OSM.Evidence {
    OSM.Evidence(OSM.FillUpdate, fill.fillId, None, Some(fill.cumulative), None, None)
  }

  /** The mirror and the live orders after the update for one fill. */
  function TakeFill(m: Mirrored, live: map<string, OSM.Order>, fill: Fill): (Mirrored, map<string, OSM.Order>) {
    if fill.orderId !in live then (m, live)
    else
      var step := OSM.ApplyOrderUpdate(live[fill.orderId], FillEvidence(fill));
      match Find(m.orders, fill.orderId)
      case None => (m, live)
      case Some(i) =>
        if step.error.Some? || i >= |m.orders| then (m, live)
        else (AfterUpdate(m, i, step.order, step.positionDelta, fill.fillId, fill.price, fill.timestamp),
              live[fill.orderId := step.order])
  }

  function TakeFills(m: Mirrored, live: map<string, OSM.Order>, fills: seq<Fill>): (Mirrored, map<string, OSM.Order>)
    decreases |fills|
  {
    if fills == [] then (m, live)
    else
      var next := TakeFill(m, live, fills[0]);
      TakeFills(next.0, next.1, fills[1..])
  }

  // ---------------------------------------------------------------- agreement

  /** One order on the three sides. */
  ghost predicate SameOrder(x: OrderSnapshot, o: OSM.Order, sequence: nat) {
    && OSM.Valid(o) && o.pending == OSM.NoMutation
    && o.instrument == x.instrument && o.side == x.side && o.effectiveQuantity == x.quantity && o.limitPrice == x.limitPrice
    && o.filled == x.filled && StatusOf(o.state) == x.status && Reported(x.status)
    && forall n :: n > sequence ==> OSM.FindEvidence(o.evidence, PaperId(n)).None?
  }

  ghost predicate LiveAgrees(p: Paper, live: map<string, OSM.Order>) {
    forall i :: 0 <= i < |p.orders| ==>
      p.orders[i].snapshot.orderId in live
      && SameOrder(p.orders[i].snapshot, live[p.orders[i].snapshot.orderId], p.sequence)
  }

  /** The mirrored orders are the broker's, in whatever order. */
  ghost predicate OrdersAgree(p: Paper, orders: seq<OrderSnapshot>) {
    && |orders| == |p.orders|
    && (forall i, j :: 0 <= i < j < |orders| ==> orders[i].orderId != orders[j].orderId)
    && (forall i :: 0 <= i < |p.orders| ==> p.orders[i].snapshot in orders)
    && (forall x :: x in orders ==> exists i :: 0 <= i < |p.orders| && p.orders[i].snapshot == x)
  }

  ghost predicate PositionsAgree(p: Paper, positions: seq<HeldPosition>) {
    && (forall i, j :: 0 <= i < j < |positions| ==> positions[i].instrument != positions[j].instrument)
    && (forall x :: x in positions ==>
          Position(x.instrument, x.quantity) in p.positions && x.token == TokenOf(p.orders, x.instrument))
    && (forall x :: x in p.positions ==> HeldPosition(x.instrument, TokenOf(p.orders, x.instrument), x.quantity) in positions)
  }

  /** Every order of an instrument has one token; fills carry the ids the broker has given out. */
  ghost predicate Orderly(p: Paper) {
    && Sound(p) && !p.scripted
    && (forall i, j :: 0 <= i < |p.orders| && 0 <= j < |p.orders| && p.orders[i].snapshot.instrument == p.orders[j].snapshot.instrument ==>
          p.orders[i].snapshot.token == p.orders[j].snapshot.token)
    && (forall x :: x in p.positions ==> exists i :: 0 <= i < |p.orders| && p.orders[i].snapshot.instrument == x.instrument)
  }

  /** The mirror holds what the broker has. */
  ghost predicate Mirrors(p: Paper, m: Mirrored) {
    Orderly(p) && OrdersAgree(p, m.orders) && PositionsAgree(p, m.positions) && m.fills == p.fills
  }

  ghost predicate Agrees(p: Paper, m: Mirrored, live: map<string, OSM.Order>) {
    Mirrors(p, m) && LiveAgrees(p, live)
  }

  // ---------------------------------------------------------------- lookups

  lemma {:induction false} FindIs(orders: seq<OrderSnapshot>, id: string)
    ensures var r := Find(orders, id);
            && (r.Some? ==> r.value < |orders| && orders[r.value].orderId == id)
            && (r.None? ==> forall i :: 0 <= i < |orders| ==> orders[i].orderId != id)
  {
    if orders != [] {
      FindIs(orders[1..], id);
      assert forall i :: 0 < i < |orders| ==> orders[i] == orders[1..][i - 1];
    }
  }

  lemma {:induction false} FindHeldIs(positions: seq<HeldPosition>, instrument: string)
    ensures var r := FindHeld(positions, instrument);
            && (r.Some? ==> r.value < |positions| && positions[r.value].instrument == instrument)
            && (r.None? ==> forall i :: 0 <= i < |positions| ==> positions[i].instrument != instrument)
  {
    if positions != [] {
      FindHeldIs(positions[1..], instrument);
      assert forall i :: 0 < i < |positions| ==> positions[i] == positions[1..][i - 1];
    }
  }

  lemma {:induction false} TokenIs(orders: seq<PaperOrder>, i: nat)
    requires i < |orders|
    requires forall j :: 0 <= j < |orders| && orders[j].snapshot.instrument == orders[i].snapshot.instrument ==>
               orders[j].snapshot.token == orders[i].snapshot.token
    ensures TokenOf(orders, orders[i].snapshot.instrument) == orders[i].snapshot.token
  {
    if orders[0].snapshot.instrument != orders[i].snapshot.instrument {
      assert orders[1..][i - 1] == orders[i];
      assert forall j :: 0 <= j < |orders[1..]| ==> orders[1..][j] == orders[j + 1];
      TokenIs(orders[1..], i - 1);
    }
  }

  // ---------------------------------------------------------------- one fill

  /** The order machine takes the update for a fill of a working order. */
  lemma {:induction false} FillIsTaken(x: OrderSnapshot, o: OSM.Order, fill: Fill, sequence: nat)
    requires SameOrder(x, o, sequence) && Live(x.status) && fill.fillId == PaperId(sequence + 1)
    requires x.filled < fill.cumulative <= x.quantity <= INT64_MAX && fill.last == fill.cumulative - x.filled
    ensures var step := OSM.ApplyOrderUpdate(o, FillEvidence(fill));
            && step.error.None? && step.positionDelta == SignedFill(x.side, fill.last)
            && step.order.filled == fill.cumulative
            && SameOrder(x.(filled := fill.cumulative, status := if fill.cumulative == x.quantity then Filled else PartiallyFilled),
                         step.order, sequence + 1)
  {
    hide PaperId, OSM.FindEvidence;
    var step := OSM.ApplyOrderUpdate(o, FillEvidence(fill));
    forall n | n > sequence + 1 ensures OSM.FindEvidence(step.order.evidence, PaperId(n)).None? {
      OSM.FindEvidenceAfterAppend(o.evidence, OSM.AppliedEvidence(fill.fillId, FillEvidence(fill).Fingerprint()), PaperId(n));
      if PaperId(n) == PaperId(sequence + 1) {
        PaperIdIsInjective(n, sequence + 1);
        assert false;
      }
    }
    OSM.StepKeepsInvariant(o, FillEvidence(fill));
  }

  /** Replacing one order, on both sides. */
  lemma {:induction false} OrdersAfterUpdate(p: Paper, q: Paper, orders: seq<OrderSnapshot>, i: nat, j: nat, next: OrderSnapshot)
    requires Sound(p) && OrdersAgree(p, orders) && i < |p.orders| == |q.orders| && j < |orders|
    requires orders[j].orderId == p.orders[i].snapshot.orderId == next.orderId
    requires q.orders == p.orders[i := q.orders[i]] && q.orders[i].snapshot == next
    ensures orders[j] == p.orders[i].snapshot && OrdersAgree(q, orders[j := next])
  {
    hide SoundOrder, UniquePositions;
    SameIdSameSnapshot(p, orders, i, j);
    var r := orders[j := next];
    forall k | 0 <= k < |q.orders| ensures q.orders[k].snapshot in r {
      if k == i {
        assert r[j] == next;
      } else {
        assert q.orders[k] == p.orders[k] && p.orders[k].snapshot in orders;
        var l :| 0 <= l < |orders| && orders[l] == p.orders[k].snapshot;
        assert r[l] == orders[l];
      }
    }
    forall x | x in r ensures exists k :: 0 <= k < |q.orders| && q.orders[k].snapshot == x {
      var l :| 0 <= l < |r| && r[l] == x;
      if l == j {
        assert q.orders[i].snapshot == x;
      } else {
        assert orders[l] in orders;
        var k :| 0 <= k < |p.orders| && p.orders[k].snapshot == orders[l];
        assert k != i;
        assert q.orders[k] == p.orders[k];
      }
    }
  }

  lemma {:induction false} SameIdSameSnapshot(p: Paper, orders: seq<OrderSnapshot>, i: nat, j: nat)
    requires UniqueOrders(p.orders) && OrdersAgree(p, orders) && i < |p.orders| && j < |orders|
    requires orders[j].orderId == p.orders[i].snapshot.orderId
    ensures orders[j] == p.orders[i].snapshot
  {
    assert orders[j] in orders;
    var k :| 0 <= k < |p.orders| && p.orders[k].snapshot == orders[j];
    FindOrderIs(p.orders, k);
    FindOrderIs(p.orders, i);
  }

  lemma {:induction false} MirroredOrderIsFound(p: Paper, orders: seq<OrderSnapshot>, i: nat)
    requires OrdersAgree(p, orders) && i < |p.orders|
    ensures Find(orders, p.orders[i].snapshot.orderId).Some?
  {
    FindIs(orders, p.orders[i].snapshot.orderId);
    assert p.orders[i].snapshot in orders;
  }

  lemma {:induction false} LiveAfterUpdate(p: Paper, q: Paper, live: map<string, OSM.Order>, i: nat, o: OSM.Order)
    requires Sound(p) && LiveAgrees(p, live) && i < |p.orders| == |q.orders| && q.orders == p.orders[i := q.orders[i]]
    requires q.orders[i].snapshot.orderId == p.orders[i].snapshot.orderId && q.sequence >= p.sequence
    requires SameOrder(q.orders[i].snapshot, o, q.sequence)
    ensures LiveAgrees(q, live[p.orders[i].snapshot.orderId := o])
  {
    hide SoundOrder, UniquePositions;
    forall k | 0 <= k < |q.orders|
      ensures var id := q.orders[k].snapshot.orderId;
              var next := live[p.orders[i].snapshot.orderId := o];
              id in next && SameOrder(q.orders[k].snapshot, next[id], q.sequence)
    {
      if k != i {
        assert q.orders[k] == p.orders[k];
        LaterIsSame(p.orders[k].snapshot, live[p.orders[k].snapshot.orderId], p.sequence, q.sequence);
        assert k < i ==> p.orders[k].snapshot.orderId != p.orders[i].snapshot.orderId;
        assert i < k ==> p.orders[i].snapshot.orderId != p.orders[k].snapshot.orderId;
      }
    }
  }

  lemma LaterIsSame(x: OrderSnapshot, o: OSM.Order, sequence: nat, later: nat)
    requires SameOrder(x, o, sequence) && sequence <= later
    ensures SameOrder(x, o, later)
  {
    hide OSM.FindEvidence, PaperId, OSM.Valid;
  }

  lemma {:induction false} SetQuantityHolds(positions: seq<Position>, instrument: string, quantity: int64)
    requires UniquePositions(positions)
    ensures var r := SetQuantity(positions, instrument, quantity);
            && UniquePositions(r) && Position(instrument, quantity) in r
            && (forall x :: x in r ==> x == Position(instrument, quantity) || (x in positions && x.instrument != instrument))
            && (forall x :: x in positions && x.instrument != instrument ==> x in r)
  {
    var r := SetQuantity(positions, instrument, quantity);
    SetQuantitySets(positions, instrument, quantity);
    FindPositionFinds(positions, instrument);
    hide FindPosition;
    match FindPosition(positions, instrument)
    case None => InsertPositionIsNew(positions, Position(instrument, quantity));
    case Some(k) =>
      assert r[k] == Position(instrument, quantity);
      forall x | x in positions && x.instrument != instrument ensures x in r {
        var l :| 0 <= l < |positions| && positions[l] == x;
        assert r[l] == x;
      }
  }

  /** The mirrored positions after a fill. */
  lemma {:induction false} PositionsAfterFill(p: Paper, q: Paper, positions: seq<HeldPosition>, instrument: string, token: string, delta: int)
    requires UniquePositions(p.positions) && PositionsAgree(p, positions)
    requires forall other :: TokenOf(q.orders, other) == TokenOf(p.orders, other)
    requires TokenOf(p.orders, instrument) == token
    requires q.positions == SetQuantity(p.positions, instrument, Plus(Quantity(p.positions, instrument), delta))
    ensures PositionsAgree(q, AfterFill(positions, instrument, token, delta))
  {
    hide Quantity, SetQuantity, TokenOf;
    var r := AfterFill(positions, instrument, token, delta);
    var quantity := Plus(Quantity(p.positions, instrument), delta);
    SetQuantityHolds(p.positions, instrument, quantity);
    FindHeldIs(positions, instrument);
    QuantityOf(p.positions, instrument);
    match FindHeld(positions, instrument)
    case Some(k) =>
      assert positions[k] in positions;
      assert Position(instrument, positions[k].quantity) in p.positions;
      assert r == positions[k := HeldPosition(instrument, token, quantity)];
      HeldReplaced(p, q, positions, k, quantity);
    case None =>
      assert forall x :: x in p.positions ==> x.instrument != instrument by {
        forall x | x in p.positions ensures x.instrument != instrument {
          assert HeldPosition(x.instrument, TokenOf(p.orders, x.instrument), x.quantity) in positions;
        }
      }
      assert r == positions + [HeldPosition(instrument, token, quantity)];
      HeldAdded(p, q, positions, HeldPosition(instrument, token, quantity));
  }

  lemma {:induction false} HeldReplaced(p: Paper, q: Paper, positions: seq<HeldPosition>, k: nat, quantity: int64)
    requires PositionsAgree(p, positions) && k < |positions|
    requires forall other :: TokenOf(q.orders, other) == TokenOf(p.orders, other)
    requires Position(positions[k].instrument, quantity) in q.positions
    requires forall x :: x in q.positions ==>
               x == Position(positions[k].instrument, quantity) || (x in p.positions && x.instrument != positions[k].instrument)
    requires forall x :: x in p.positions && x.instrument != positions[k].instrument ==> x in q.positions
    ensures PositionsAgree(q, positions[k := positions[k].(quantity := quantity)])
  {
    hide TokenOf;
    var r := positions[k := positions[k].(quantity := quantity)];
    assert positions[k] in positions;
    forall x | x in r ensures Position(x.instrument, x.quantity) in q.positions && x.token == TokenOf(q.orders, x.instrument) {
      var l :| 0 <= l < |r| && r[l] == x;
      if l != k {
        assert positions[l] in positions && positions[l] == x;
      }
    }
    forall x | x in q.positions ensures HeldPosition(x.instrument, TokenOf(q.orders, x.instrument), x.quantity) in r {
      if x == Position(positions[k].instrument, quantity) {
        assert r[k] == HeldPosition(x.instrument, TokenOf(q.orders, x.instrument), x.quantity);
      } else {
        var h := HeldPosition(x.instrument, TokenOf(q.orders, x.instrument), x.quantity);
        assert h in positions;
        var l :| 0 <= l < |positions| && positions[l] == h;
        assert r[l] == h;
      }
    }
  }

  lemma {:induction false} HeldAdded(p: Paper, q: Paper, positions: seq<HeldPosition>, h: HeldPosition)
    requires PositionsAgree(p, positions) && h.token == TokenOf(p.orders, h.instrument)
    requires forall other :: TokenOf(q.orders, other) == TokenOf(p.orders, other)
    requires forall i :: 0 <= i < |positions| ==> positions[i].instrument != h.instrument
    requires Position(h.instrument, h.quantity) in q.positions
    requires forall x :: x in q.positions ==> x == Position(h.instrument, h.quantity) || x in p.positions
    requires forall x :: x in p.positions && x.instrument != h.instrument ==> x in q.positions
    requires forall x :: x in p.positions ==> x.instrument != h.instrument
    ensures PositionsAgree(q, positions + [h])
  {
    hide TokenOf;
    var r := positions + [h];
    assert r[|positions|] == h;
    forall x | x in q.positions ensures HeldPosition(x.instrument, TokenOf(q.orders, x.instrument), x.quantity) in r {
      if x != Position(h.instrument, h.quantity) {
        assert HeldPosition(x.instrument, TokenOf(p.orders, x.instrument), x.quantity) in positions;
      }
    }
  }

  /** Tokens do not change with the rest of an order. */
  lemma {:induction false} TokensRemain(a: seq<PaperOrder>, i: nat, next: PaperOrder, instrument: string)
    requires i < |a| && next.snapshot.instrument == a[i].snapshot.instrument && next.snapshot.token == a[i].snapshot.token
    ensures TokenOf(a[i := next], instrument) == TokenOf(a, instrument)
  {
    if a[0].snapshot.instrument != instrument && i > 0 {
      assert a[i := next][1..] == a[1..][i - 1 := next];
      TokensRemain(a[1..], i - 1, next, instrument);
    } else if a[0].snapshot.instrument != instrument {
      assert a[i := next][1..] == a[1..];
    }
  }

  // ---------------------------------------------------------------- a fill and its update

  /** What the broker's fill leaves behind, part by part. */
  lemma {:induction false} FillLeaves(p: Paper, i: nat, requested: uint64, timestamp: int64)
    requires Sound(p) && i < |p.orders| && p.orders[i].snapshot.filled <= requested
    ensures var (q, fill) := FillAt(p, i, requested, timestamp);
            var x := p.orders[i].snapshot;
            && q.sequence == p.sequence + 1 && q.scripted == p.scripted && q.fills == p.fills + [fill]
            && q.positions == SetQuantity(p.positions, x.instrument, Plus(Quantity(p.positions, x.instrument), SignedFill(x.side, fill.last)))
            && fill == Fill(PaperId(p.sequence + 1), x.orderId, x.instrument, x.token, fill.cumulative, fill.last, x.limitPrice, timestamp)
            && fill.cumulative == Min(requested, x.quantity) && fill.last == fill.cumulative - x.filled
            && |q.orders| == |p.orders| && q.orders == p.orders[i := q.orders[i]]
            && q.orders[i].snapshot
               == x.(filled := fill.cumulative, status := if fill.cumulative == x.quantity then Filled else PartiallyFilled)
  {
    hide Quantity, SetQuantity, AddValues, Notional, PaperId;
  }

  lemma {:induction false} FillStaysOrderly(p: Paper, q: Paper, i: nat, quantity: int64)
    requires Orderly(p) && Sound(q) && !q.scripted && i < |p.orders| == |q.orders| && q.orders == p.orders[i := q.orders[i]]
    requires q.orders[i].snapshot.instrument == p.orders[i].snapshot.instrument
    requires q.orders[i].snapshot.token == p.orders[i].snapshot.token
    requires q.positions == p.positions || q.positions == SetQuantity(p.positions, p.orders[i].snapshot.instrument, quantity)
    ensures Orderly(q)
  {
    hide SoundOrder, UniqueOrders, SetQuantity;
    SetQuantityHolds(p.positions, p.orders[i].snapshot.instrument, quantity);
    forall x | x in q.positions ensures exists j :: 0 <= j < |q.orders| && q.orders[j].snapshot.instrument == x.instrument {
      if x in p.positions {
        var j :| 0 <= j < |p.orders| && p.orders[j].snapshot.instrument == x.instrument;
        assert q.orders[j].snapshot.instrument == x.instrument;
      } else {
        assert q.orders[i].snapshot.instrument == x.instrument;
      }
    }
  }

  /** Main step: a fill and the update for it. */
  lemma {:induction false} FillAgrees(p: Paper, i: nat, requested: uint64, timestamp: int64, m: Mirrored, live: map<string, OSM.Order>)
    requires Agrees(p, m, live) && Sound(p) && i < |p.orders| && Live(p.orders[i].snapshot.status)
    requires p.orders[i].snapshot.filled < requested && Remaining(p.orders[i]) > 0
    ensures var (q, fill) := FillAt(p, i, requested, timestamp);
            var (n, next) := TakeFill(m, live, fill);
            Agrees(q, n, next)
  {
    hide FillAt, PaperId, SetQuantity, Quantity, OSM.ApplyOrderUpdate, UniqueOrders, UniquePositions, TokenOf, StatusOf, SameOrder,
         PositionsAgree, AfterFill;
    var (q, fill) := FillAt(p, i, requested, timestamp);
    var x := p.orders[i].snapshot;
    var o := live[x.orderId];
    FillLeaves(p, i, requested, timestamp);
    FillIsSound(p, i, requested, timestamp);
    FillIsTaken(x, o, fill, p.sequence);
    var step := OSM.ApplyOrderUpdate(o, FillEvidence(fill));
    MirroredOrderIsFound(p, m.orders, i);
    FindIs(m.orders, x.orderId);
    var j := Find(m.orders, x.orderId).value;
    SameIdSameSnapshot(p, m.orders, i, j);
    FillStaysOrderly(p, q, i, Plus(Quantity(p.positions, x.instrument), SignedFill(x.side, fill.last)));
    LiveAfterUpdate(p, q, live, i, step.order);
    UpdateMirrors(m, j, step.order, step.positionDelta, fill, q.orders[i].snapshot, q.sequence);
    OrdersAfterUpdate(p, q, m.orders, i, j, q.orders[i].snapshot);
    TokenIs(p.orders, i);
    forall other ensures TokenOf(q.orders, other) == TokenOf(p.orders, other) {
      TokensRemain(p.orders, i, q.orders[i], other);
    }
    PositionsAfterFill(p, q, m.positions, x.instrument, x.token, step.positionDelta);
  }

  /** The update writes into the mirror what the broker's order became, and the broker's fill. */
  lemma {:induction false} UpdateMirrors(m: Mirrored, j: nat, o: OSM.Order, delta: int, fill: Fill, next: OrderSnapshot, sequence: nat)
    requires j < |m.orders| && SameOrder(next, o, sequence) && 0 < fill.last <= INT64_MAX && delta == SignedFill(next.side, fill.last)
    requires next == m.orders[j].(filled := next.filled, status := next.status) && next.filled == fill.cumulative
    requires fill == Fill(fill.fillId, next.orderId, next.instrument, next.token, fill.cumulative, fill.last, fill.price, fill.timestamp)
    ensures AfterUpdate(m, j, o, delta, fill.fillId, fill.price, fill.timestamp)
            == Mirrored(m.orders[j := next], m.fills + [fill], AfterFill(m.positions, next.instrument, next.token, delta))
  {
    hide AfterFill, OSM.Valid, OSM.FindEvidence, PaperId;
  }

  // ---------------------------------------------------------------- observations

  lemma AgreesReads(p: Paper, q: Paper, m: Mirrored, live: map<string, OSM.Order>)
    requires Agrees(p, m, live) && Sound(q)
    requires q.orders == p.orders && q.positions == p.positions && q.fills == p.fills && q.sequence == p.sequence && q.scripted == p.scripted
    ensures Agrees(q, m, live)
  {
    hide SameOrder, TokenOf, Sound;
  }

  /** Only what an observation notes of an order changes. */
  lemma {:induction false} NotedAgrees(p: Paper, i: nat, next: PaperOrder, m: Mirrored, live: map<string, OSM.Order>)
    requires Agrees(p, m, live) && i < |p.orders| && next.snapshot == p.orders[i].snapshot && next.request == p.orders[i].request
    ensures Agrees(p.(orders := p.orders[i := next]), m, live)
  {
    var q := p.(orders := p.orders[i := next]);
    var id := next.snapshot.orderId;
    NotedIsSound(p, i, next) by { AgreesIsSound(p, m, live); }
    hide SameOrder, TokenOf, Sound, OrdersAgree, Orderly, LiveAgrees, PositionsAgree;
    forall other ensures TokenOf(q.orders, other) == TokenOf(p.orders, other) {
      TokensRemain(p.orders, i, next, other);
    }
    NotedOrders(p, q, m.orders);
    FillStaysOrderly(p, q, i, 0);
    SameLive(p, live, i);
    LiveAfterUpdate(p, q, live, i, live[id]);
    assert live[id := live[id]] == live;
    PositionsRead(p, q, m.positions);
  }

  lemma NotedIsSound(p: Paper, i: nat, next: PaperOrder)
    requires Sound(p) && i < |p.orders| && next.snapshot == p.orders[i].snapshot && next.request == p.orders[i].request
    ensures Sound(p.(orders := p.orders[i := next]))
  {
  }

  lemma SameLive(p: Paper, live: map<string, OSM.Order>, i: nat)
    requires LiveAgrees(p, live) && i < |p.orders|
    ensures p.orders[i].snapshot.orderId in live
    ensures SameOrder(p.orders[i].snapshot, live[p.orders[i].snapshot.orderId], p.sequence)
  {
    hide SameOrder;
  }

  lemma PositionsRead(p: Paper, q: Paper, positions: seq<HeldPosition>)
    requires PositionsAgree(p, positions) && q.positions == p.positions
    requires forall other :: TokenOf(q.orders, other) == TokenOf(p.orders, other)
    ensures PositionsAgree(q, positions)
  {
    hide TokenOf;
  }

  lemma NotedOrders(p: Paper, q: Paper, orders: seq<OrderSnapshot>)
    requires OrdersAgree(p, orders) && |q.orders| == |p.orders|
    requires forall k :: 0 <= k < |p.orders| ==> q.orders[k].snapshot == p.orders[k].snapshot
    ensures OrdersAgree(q, orders)
  {
    forall x | x in orders ensures exists i :: 0 <= i < |q.orders| && q.orders[i].snapshot == x {
      var i :| 0 <= i < |p.orders| && p.orders[i].snapshot == x;
      assert q.orders[i].snapshot == x;
    }
  }

  lemma {:induction false} ObserveOrderAgrees(p: Paper, i: nat, o: Risk.Observation, m: Mirrored, live: map<string, OSM.Order>)
    requires Agrees(p, m, live) && Sound(p) && i < |p.orders|
    ensures var (q, fill) := ObserveOrder(p, i, o);
            if fill.None? then Agrees(q, m, live)
            else Agrees(q, TakeFill(m, live, fill.value).0, TakeFill(m, live, fill.value).1)
  {
    hide Agrees, FillAt, Sound;
    var order := p.orders[i];
    var next := order.(observedVolume := o.volume, volumeReset := false);
    NotedAgrees(p, i, next, m, live);
    NotedAgrees(p, i, next.(awaitingBaseline := false), m, live);
    NotedAgrees(p, i, next.(volumeReset := true), m, live);
    if Trades(order, o) && Remaining(order) > 0 && Concerns(order, o) {
      var seen := p.(orders := p.orders[i := next]);
      OpenIsLive(p, i, m, live);
      RemainsBelow(p, i);
      FillAgrees(seen, i, order.snapshot.quantity, o.receiveTime, m, live) by { AgreesIsSound(seen, m, live); }
    }
  }

  lemma RemainsBelow(p: Paper, i: nat)
    requires Sound(p) && i < |p.orders|
    ensures Remaining(p.orders[i]) > 0 ==> p.orders[i].snapshot.filled < p.orders[i].snapshot.quantity
  {
  }

  lemma AgreesIsSound(p: Paper, m: Mirrored, live: map<string, OSM.Order>)
    requires Agrees(p, m, live)
    ensures Sound(p) && !p.scripted
  {
  }

  lemma OpenIsLive(p: Paper, i: nat, m: Mirrored, live: map<string, OSM.Order>)
    requires Agrees(p, m, live) && i < |p.orders| && !Ended(p.orders[i].snapshot.status)
    ensures Live(p.orders[i].snapshot.status)
  {
    assert SameOrder(p.orders[i].snapshot, live[p.orders[i].snapshot.orderId], p.sequence);
  }

  lemma {:induction false} ObserveOrdersAgrees(p: Paper, i: nat, o: Risk.Observation, generated: seq<Fill>, m: Mirrored,
                                               live: map<string, OSM.Order>)
    requires Agrees(p, m, live) && Sound(p) && i <= |p.orders|
    ensures var (q, fills) := ObserveOrders(p, i, o, generated);
            && generated <= fills
            && var (n, next) := TakeFills(m, live, fills[|generated|..]);
               Agrees(q, n, next)
    decreases |p.orders| - i
  {
    hide Agrees, Sound, ObserveOrder, TakeFill, UpdatePeak;
    if i == |p.orders| {
      PeakIsSound(p);
      PeakKeeps(p);
      AgreesReads(p, UpdatePeak(p), m, live);
      assert generated[|generated|..] == [];
    } else {
      ObserveOrderIsSound(p, i, o);
      ObserveOrderAgrees(p, i, o, m, live);
      var step := ObserveOrder(p, i, o);
      var grown := if step.1.Some? then generated + [step.1.value] else generated;
      var taken := if step.1.Some? then TakeFill(m, live, step.1.value) else (m, live);
      ObserveOrdersAgrees(step.0, i + 1, o, grown, taken.0, taken.1);
      var fills := ObserveOrders(step.0, i + 1, o, grown).1;
      assert ObserveOrders(p, i, o, generated) == ObserveOrders(step.0, i + 1, o, grown);
      if step.1.Some? {
        assert fills[|generated|..][0] == step.1.value;
        assert fills[|generated|..][1..] == fills[|grown|..];
      }
    }
  }

  lemma PeakIsSound(p: Paper)
    requires Sound(p)
    ensures Sound(UpdatePeak(p))
  {
  }

  // ---------------------------------------------------------------- requests

  /** Ids the session gives out are not the broker's. */
  predicate SessionId(id: string) {
    id != "" && id[0] == '#'
  }

  lemma SessionIdIsForeign(id: string, n: nat)
    requires SessionId(id)
    ensures id != PaperId(n)
  {
    assert PaperId(n)[0] == 'p';
  }

  /** The order of a placement on its way. */
  function StartedOrder(r: Request, eventId: string): OSM.Order {
    var o := OSM.Order(r.orderId, r.route.instrument, r.side, r.quantity, r.quantity, r.limitPrice, 0, OSM.Prepared,
                       OSM.NoMutation, None, None, false, None, []);
    OSM.ApplyOrderUpdate(o, OSM.Plain(OSM.SubmissionStartedEvent, eventId)).order
  }

  /** The order of an acknowledged placement. */
  function PlacedOrder(r: Request, eventId: string, correlation: string): OSM.Order {
    OSM.ApplyOrderUpdate(StartedOrder(r, eventId),
                         OSM.Evidence(OSM.BrokerAcknowledged, correlation, Some(correlation), None, None, None)).order
  }

  /** The order takes the broker's answer: its acceptance under the broker's id, its refusal under the session's own.
      An unclear answer leaves the order as its request left it. */
  function Answered(asked: OSM.Order, answer: Mutation, accepted: OSM.Evidence, refused: OSM.Evidence): OSM.Order {
    match answer.verdict
    case Acknowledged => OSM.ApplyOrderUpdate(asked, accepted).order
    case Refused => OSM.ApplyOrderUpdate(asked, refused).order
    case Unclear => asked
  }

  function DoPlace(d: Desk, r: Request, eventId: string, answerId: string): Desk {
    var (p, answer) := PlaceOrder(d.paper, r);
    var id := PaperId(d.paper.sequence + 1);
    var order := Answered(StartedOrder(r, eventId), answer, OSM.Evidence(OSM.BrokerAcknowledged, id, Some(id), None, None, None),
                          OSM.Plain(OSM.BrokerRejected, answerId));
    Desk(p, if answer.verdict.Acknowledged? then AfterPlace(d.mirror, r.orderId, r.route, r.side, r.quantity, r.limitPrice)
            else d.mirror,
         d.live[r.orderId := order])
  }

  /** A modification the rules let through asks for more than its order has filled. */
  function DoModify(d: Desk, id: string, quantity: uint64, limitPrice: uint64, requestId: string, answerId: string): Desk {
    if id !in d.live || quantity <= d.live[id].filled then d
    else
      var asked := OSM.ApplyOrderUpdate(d.live[id], OSM.Terms(OSM.ModifyRequested, requestId, quantity, limitPrice));
      if asked.error.Some? then d
      else
        var (p, answer) := ModifyOrder(d.paper, id, quantity, limitPrice);
        var order := Answered(asked.order, answer, OSM.Terms(OSM.ModifyAccepted, PaperId(d.paper.sequence + 1), quantity, limitPrice),
                              OSM.Plain(OSM.ModifyRejected, answerId));
        Desk(p, if answer.verdict.Acknowledged? then AfterModify(d.mirror, id, quantity, limitPrice) else d.mirror, d.live[id := order])
  }

  function DoCancel(d: Desk, id: string, requestId: string, answerId: string): Desk {
    if id !in d.live then d
    else
      var asked := OSM.ApplyOrderUpdate(d.live[id], OSM.Plain(OSM.CancelRequested, requestId));
      if asked.error.Some? then d
      else
        var (p, answer) := CancelOrder(d.paper, id);
        var order := Answered(asked.order, answer, OSM.Plain(OSM.CancelAccepted, PaperId(d.paper.sequence + 1)),
                              OSM.Plain(OSM.CancelRejected, answerId));
        Desk(p, if answer.verdict.Acknowledged? then AfterCancel(d.mirror, id) else d.mirror, d.live[id := order])
  }

  /** A new id in the evidence leaves the broker's later ids unseen. */
  lemma {:induction false} LaterIdsStayFresh(o: OSM.Order, u: OSM.Evidence, sequence: nat, later: nat)
    requires OSM.ValidTerms(o) && sequence <= later
    requires forall n :: n > sequence ==> OSM.FindEvidence(o.evidence, PaperId(n)).None?
    requires forall n :: n > later ==> u.updateId != PaperId(n)
    ensures forall n :: n > later ==> OSM.FindEvidence(OSM.ApplyOrderUpdate(o, u).order.evidence, PaperId(n)).None?
  {
    hide PaperId, OSM.ApplyNew, OSM.FindEvidence;
    OSM.NewStepIsGood(o, u);
    forall n | n > later ensures OSM.FindEvidence(OSM.ApplyOrderUpdate(o, u).order.evidence, PaperId(n)).None? {
      OSM.FindEvidenceAfterAppend(o.evidence, OSM.AppliedEvidence(u.updateId, u.Fingerprint()), PaperId(n));
    }
  }

  lemma OwnIdIsNotLater(sequence: nat)
    ensures forall n :: n > sequence ==> PaperId(sequence) != PaperId(n)
  {
    hide PaperId;
    forall n | n > sequence ensures PaperId(sequence) != PaperId(n) {
      if PaperId(sequence) == PaperId(n) {
        PaperIdIsInjective(sequence, n);
        assert false;
      }
    }
  }

  /** A modification on both sides. */
  lemma {:induction false} ModifyIsTaken(x: OrderSnapshot, o: OSM.Order, quantity: uint64, limitPrice: uint64, requestId: string, sequence: nat)
    requires SameOrder(x, o, sequence) && SessionId(requestId) && quantity > x.filled
    requires OSM.FindEvidence(o.evidence, requestId).None?
    ensures var asked := OSM.ApplyOrderUpdate(o, OSM.Terms(OSM.ModifyRequested, requestId, quantity, limitPrice));
            asked.error.None? ==>
              && Live(x.status)
              && var taken := OSM.ApplyOrderUpdate(asked.order, OSM.Terms(OSM.ModifyAccepted, PaperId(sequence + 1), quantity, limitPrice));
                 && taken.error.None? && SameOrder(x.(quantity := quantity, limitPrice := limitPrice), taken.order, sequence + 1)
  {
    hide PaperId, OSM.FindEvidence;
    var request := OSM.Terms(OSM.ModifyRequested, requestId, quantity, limitPrice);
    var answer := OSM.Terms(OSM.ModifyAccepted, PaperId(sequence + 1), quantity, limitPrice);
    var asked := OSM.ApplyOrderUpdate(o, request);
    if asked.error.None? {
      OSM.StepKeepsInvariant(o, request);
      forall n ensures requestId != PaperId(n) {
        SessionIdIsForeign(requestId, n);
      }
      LaterIdsStayFresh(o, request, sequence, sequence);
      OSM.ModifyIsTakenOrUndone(o, request, answer);
      OwnIdIsNotLater(sequence + 1);
      LaterIdsStayFresh(asked.order, answer, sequence, sequence + 1);
      OSM.StepKeepsInvariant(asked.order, answer);
    }
  }

  /** A refused modification leaves both sides as they were. */
  lemma {:induction false} ModifyIsUndone(x: OrderSnapshot, o: OSM.Order, quantity: uint64, limitPrice: uint64, requestId: string,
                                          answerId: string, sequence: nat, later: nat)
    requires SameOrder(x, o, sequence) && SessionId(requestId) && SessionId(answerId) && requestId != answerId && sequence <= later
    requires OSM.FindEvidence(o.evidence, requestId).None? && OSM.FindEvidence(o.evidence, answerId).None?
    ensures var asked := OSM.ApplyOrderUpdate(o, OSM.Terms(OSM.ModifyRequested, requestId, quantity, limitPrice));
            asked.error.None? ==>
              SameOrder(x, OSM.ApplyOrderUpdate(asked.order, OSM.Plain(OSM.ModifyRejected, answerId)).order, later)
  {
    hide PaperId, OSM.FindEvidence;
    var request := OSM.Terms(OSM.ModifyRequested, requestId, quantity, limitPrice);
    var answer := OSM.Plain(OSM.ModifyRejected, answerId);
    var asked := OSM.ApplyOrderUpdate(o, request);
    if asked.error.None? {
      OSM.StepKeepsInvariant(o, request);
      forall n ensures requestId != PaperId(n) && answerId != PaperId(n) {
        SessionIdIsForeign(requestId, n);
        SessionIdIsForeign(answerId, n);
      }
      LaterIdsStayFresh(o, request, sequence, sequence);
      OSM.FindEvidenceAfterAppend(o.evidence, OSM.AppliedEvidence(requestId, request.Fingerprint()), answerId);
      OSM.ModifyIsTakenOrUndone(o, request, answer);
      LaterIdsStayFresh(asked.order, answer, sequence, later);
      OSM.StepKeepsInvariant(asked.order, answer);
    }
  }

  /** A cancellation on both sides. */
  lemma {:induction false} CancelIsTaken(x: OrderSnapshot, o: OSM.Order, requestId: string, sequence: nat)
    requires SameOrder(x, o, sequence) && SessionId(requestId)
    requires OSM.FindEvidence(o.evidence, requestId).None?
    ensures var asked := OSM.ApplyOrderUpdate(o, OSM.Plain(OSM.CancelRequested, requestId));
            asked.error.None? ==>
              && Live(x.status)
              && var taken := OSM.ApplyOrderUpdate(asked.order, OSM.Plain(OSM.CancelAccepted, PaperId(sequence + 1)));
                 && taken.error.None? && SameOrder(x.(status := Cancelled), taken.order, sequence + 1)
  {
    hide PaperId, OSM.FindEvidence;
    var request, answer := OSM.Plain(OSM.CancelRequested, requestId), OSM.Plain(OSM.CancelAccepted, PaperId(sequence + 1));
    var asked := OSM.ApplyOrderUpdate(o, request);
    if asked.error.None? {
      OSM.StepKeepsInvariant(o, request);
      forall n ensures requestId != PaperId(n) {
        SessionIdIsForeign(requestId, n);
      }
      LaterIdsStayFresh(o, request, sequence, sequence);
      OSM.CancelIsConfirmed(o, request, answer);
      OwnIdIsNotLater(sequence + 1);
      LaterIdsStayFresh(asked.order, answer, sequence, sequence + 1);
      OSM.StepKeepsInvariant(asked.order, answer);
    }
  }

  /** The broker takes a change of an open order, and so does the mirror. */
  lemma {:induction false} ChangeAgrees(d: Desk, q: Paper, i: nat, next: OrderSnapshot, o: OSM.Order, mirror: Mirrored)
    requires Agrees(d.paper, d.mirror, d.live) && Sound(d.paper) && i < |d.paper.orders| == |q.orders| && Sound(q)
    requires q.orders == d.paper.orders[i := q.orders[i]] && q.orders[i].snapshot == next
    requires next.orderId == d.paper.orders[i].snapshot.orderId && next.instrument == d.paper.orders[i].snapshot.instrument
    requires next.token == d.paper.orders[i].snapshot.token
    requires q.positions == d.paper.positions && q.fills == d.paper.fills && !q.scripted
    requires q.sequence >= d.paper.sequence && SameOrder(next, o, q.sequence)
    requires var at := Find(d.mirror.orders, next.orderId);
             at.Some? ==> at.value < |d.mirror.orders| && mirror == d.mirror.(orders := d.mirror.orders[at.value := next])
    ensures Agrees(q, mirror, d.live[next.orderId := o])
  {
    hide SameOrder, TokenOf, Sound, OrdersAgree, Orderly, LiveAgrees, PositionsAgree;
    var p := d.paper;
    MirroredOrderIsFound(p, d.mirror.orders, i);
    FindIs(d.mirror.orders, next.orderId);
    FillStaysOrderly(p, q, i, 0);
    LiveAfterUpdate(p, q, d.live, i, o);
    OrdersAfterUpdate(p, q, d.mirror.orders, i, Find(d.mirror.orders, next.orderId).value, next);
    forall other ensures TokenOf(q.orders, other) == TokenOf(p.orders, other) {
      TokensRemain(p.orders, i, q.orders[i], other);
    }
    PositionsRead(p, q, d.mirror.positions);
  }

  /** Only the correlation counter moves. */
  lemma CounterAgrees(d: Desk, q: Paper)
    requires Agrees(d.paper, d.mirror, d.live) && q == d.paper.(sequence := q.sequence) && q.sequence >= d.paper.sequence
    ensures Agrees(q, d.mirror, d.live)
  {
    hide TokenOf, Sound, SameOrder;
    forall i | 0 <= i < |q.orders|
      ensures SameOrder(q.orders[i].snapshot, d.live[q.orders[i].snapshot.orderId], q.sequence)
    {
      LaterIsSame(q.orders[i].snapshot, d.live[q.orders[i].snapshot.orderId], d.paper.sequence, q.sequence);
    }
    SoundReads(d.paper, q);
  }

  lemma SoundReads(p: Paper, q: Paper)
    requires q.orders == p.orders && q.positions == p.positions
    ensures Sound(p) ==> Sound(q)
  {
  }

  /** A live order may change as long as it stays what the broker's order of its id is, if there is one. */
  lemma LiveReplaced(p: Paper, m: Mirrored, live: map<string, OSM.Order>, id: string, o: OSM.Order)
    requires Agrees(p, m, live)
    requires forall i :: 0 <= i < |p.orders| && p.orders[i].snapshot.orderId == id ==> SameOrder(p.orders[i].snapshot, o, p.sequence)
    ensures Agrees(p, m, live[id := o])
  {
    hide TokenOf, Sound, SameOrder, OrdersAgree, PositionsAgree, Orderly;
  }

  lemma {:induction false} ModifyAgrees(d: Desk, id: string, quantity: uint64, limitPrice: uint64, requestId: string, answerId: string)
    requires Agrees(d.paper, d.mirror, d.live) && d.paper.health.Ready?
    requires SessionId(requestId) && SessionId(answerId) && requestId != answerId
    requires id in d.live ==>
               OSM.FindEvidence(d.live[id].evidence, requestId).None? && OSM.FindEvidence(d.live[id].evidence, answerId).None?
    ensures var e := DoModify(d, id, quantity, limitPrice, requestId, answerId); Agrees(e.paper, e.mirror, e.live)
  {
    hide Agrees, SameOrder, OSM.ApplyOrderUpdate, PaperId, FindOrder, Sound, Find, UniqueOrders;
    AgreesIsSound(d.paper, d.mirror, d.live);
    FindOrderFinds(d.paper.orders, id);
    ModifyIsSound(d.paper, id, quantity, limitPrice);
    var (q, answer) := ModifyOrder(d.paper, id, quantity, limitPrice);
    var e := DoModify(d, id, quantity, limitPrice, requestId, answerId);
    var found := FindOrder(d.paper.orders, id);
    if found.Some? {
      LiveOf(d, found.value);
    }
    if e == d {
    } else if !answer.verdict.Acknowledged? {
      CounterAgrees(d, q);
      if found.Some? {
        ModifyIsUndone(d.paper.orders[found.value].snapshot, d.live[id], quantity, limitPrice, requestId, answerId,
                       d.paper.sequence, q.sequence);
        OnlyOneOrder(d.paper, found.value);
      }
      LiveReplaced(q, d.mirror, d.live, id, e.live[id]);
    } else {
      var i := found.value;
      ModifyIsTaken(d.paper.orders[i].snapshot, d.live[id], quantity, limitPrice, requestId, d.paper.sequence);
      FoundInMirror(d, i);
      ChangeAgrees(d, q, i, q.orders[i].snapshot, e.live[id], e.mirror);
    }
  }

  lemma OnlyOneOrder(p: Paper, i: nat)
    requires Sound(p) && i < |p.orders|
    ensures forall k :: 0 <= k < |p.orders| && p.orders[k].snapshot.orderId == p.orders[i].snapshot.orderId ==> k == i
  {
  }

  lemma LiveOf(d: Desk, i: nat)
    requires Agrees(d.paper, d.mirror, d.live) && i < |d.paper.orders|
    ensures var x := d.paper.orders[i].snapshot;
            && x.orderId in d.live && SameOrder(x, d.live[x.orderId], d.paper.sequence)
            && d.live[x.orderId].filled == x.filled
  {
    hide Sound;
  }

  lemma FoundInMirror(d: Desk, i: nat)
    requires Agrees(d.paper, d.mirror, d.live) && i < |d.paper.orders|
    ensures var x := d.paper.orders[i].snapshot;
            var at := Find(d.mirror.orders, x.orderId);
            at.Some? && at.value < |d.mirror.orders| && d.mirror.orders[at.value] == x
  {
    hide SameOrder, TokenOf, PositionsAgree;
    MirroredOrderIsFound(d.paper, d.mirror.orders, i);
    FindIs(d.mirror.orders, d.paper.orders[i].snapshot.orderId);
    SameIdSameSnapshot(d.paper, d.mirror.orders, i, Find(d.mirror.orders, d.paper.orders[i].snapshot.orderId).value);
  }

  /** The broker never refuses to cancel an order whose live order takes the request. */
  lemma {:induction false} CancelAgrees(d: Desk, id: string, requestId: string, answerId: string)
    requires Agrees(d.paper, d.mirror, d.live) && d.paper.health.Ready? && SessionId(requestId)
    requires id in d.live ==> OSM.FindEvidence(d.live[id].evidence, requestId).None?
    ensures var e := DoCancel(d, id, requestId, answerId); Agrees(e.paper, e.mirror, e.live)
  {
    hide Agrees, SameOrder, OSM.ApplyOrderUpdate, PaperId, FindOrder, Sound, Find, UniqueOrders;
    AgreesIsSound(d.paper, d.mirror, d.live);
    FindOrderFinds(d.paper.orders, id);
    CancelIsSound(d.paper, id);
    var (q, answer) := CancelOrder(d.paper, id);
    var e := DoCancel(d, id, requestId, answerId);
    var found := FindOrder(d.paper.orders, id);
    if found.Some? {
      LiveOf(d, found.value);
      CancelIsTaken(d.paper.orders[found.value].snapshot, d.live[id], requestId, d.paper.sequence);
    }
    if e == d {
    } else if !answer.verdict.Acknowledged? {
      CounterAgrees(d, q);
      LiveReplaced(q, d.mirror, d.live, id, e.live[id]);
    } else {
      var i := found.value;
      FoundInMirror(d, i);
      SameOrderAgain(d, q, i);
      ChangeAgrees(d, q, i, q.orders[i].snapshot, e.live[id], e.mirror);
    }
  }

  /** Replacing an order by itself. */
  lemma SameOrderAgain(d: Desk, q: Paper, i: nat)
    requires i < |d.paper.orders| == |q.orders| && (q.orders == d.paper.orders || q.orders == d.paper.orders[i := q.orders[i]])
    ensures q.orders == d.paper.orders[i := q.orders[i]]
  {
  }

  // ---------------------------------------------------------------- placements

  /** A placement on both sides. */
  lemma {:induction false} PlacedIsSame(r: Request, eventId: string, sequence: nat)
    requires SessionId(eventId) && 0 < r.quantity <= INT64_MAX
    ensures SameOrder(OrderSnapshot(r.orderId, r.route.instrument, r.route.token, r.side, r.quantity, r.limitPrice, 0, Working),
                      PlacedOrder(r, eventId, PaperId(sequence + 1)), sequence + 1)
  {
    hide PaperId, OSM.FindEvidence;
    var o := OSM.Order(r.orderId, r.route.instrument, r.side, r.quantity, r.quantity, r.limitPrice, 0, OSM.Prepared,
                       OSM.NoMutation, None, None, false, None, []);
    var begun := OSM.Plain(OSM.SubmissionStartedEvent, eventId);
    var answer := OSM.Evidence(OSM.BrokerAcknowledged, PaperId(sequence + 1), Some(PaperId(sequence + 1)), None, None, None);
    NoEvidence();
    OSM.StepKeepsInvariant(o, begun);
    forall n ensures eventId != PaperId(n) {
      SessionIdIsForeign(eventId, n);
    }
    LaterIdsStayFresh(o, begun, sequence, sequence);
    var s := OSM.ApplyOrderUpdate(o, begun).order;
    PaperIdIsText(sequence + 1);
    OSM.StepKeepsInvariant(s, answer);
    OwnIdIsNotLater(sequence + 1);
    LaterIdsStayFresh(s, answer, sequence, sequence + 1);
  }

  lemma NoEvidence()
    ensures forall id :: OSM.FindEvidence([], id).None?
  {
  }

  lemma PaperIdIsText(n: nat)
    ensures PaperId(n) != ""
  {
  }

  /** A new order joins both sides. */
  lemma {:induction false} OrdersAfterPlace(p: Paper, orders: seq<OrderSnapshot>, x: PaperOrder)
    requires Sound(p) && OrdersAgree(p, orders) && FindOrder(p.orders, x.snapshot.orderId).None?
    ensures OrdersAgree(p.(orders := InsertOrder(p.orders, x)), orders + [x.snapshot])
  {
    hide FindOrder, InsertOrder, SoundOrder, UniquePositions;
    var longer, more := InsertOrder(p.orders, x), orders + [x.snapshot];
    InsertKeepsUnique(p.orders, x);
    FindOrderFinds(p.orders, x.snapshot.orderId);
    var k := InsertOrderPlaces(p.orders, x);
    forall i, j | 0 <= i < j < |more| ensures more[i].orderId != more[j].orderId {
      if j == |orders| {
        assert orders[i] in orders;
        var l :| 0 <= l < |p.orders| && p.orders[l].snapshot == orders[i];
      }
    }
    forall i | 0 <= i < |longer| ensures longer[i].snapshot in more {
      assert longer[i] in longer;
      if longer[i] == x {
        assert more[|orders|] == x.snapshot;
      } else {
        var l :| 0 <= l < |p.orders| && p.orders[l] == longer[i];
        assert p.orders[l].snapshot in orders;
      }
    }
    forall y | y in more ensures exists i :: 0 <= i < |longer| && longer[i].snapshot == y {
      if y == x.snapshot {
        assert longer[k] == x;
      } else {
        assert y in orders;
        var l :| 0 <= l < |p.orders| && p.orders[l].snapshot == y;
        assert p.orders[l] in longer;
        var i :| 0 <= i < |longer| && longer[i] == p.orders[l];
      }
    }
  }

  /** A new order has its instrument's token, if the instrument has one. */
  ghost predicate OnRoute(p: Paper, route: Risk.Route) {
    forall i :: 0 <= i < |p.orders| && p.orders[i].snapshot.instrument == route.instrument ==>
      p.orders[i].snapshot.token == route.token
  }

  lemma {:induction false} TokensAfterPlace(p: Paper, x: PaperOrder, instrument: string)
    requires Orderly(p) && OnRoute(p, x.request.route) && x.snapshot.instrument == x.request.route.instrument
    requires x.snapshot.token == x.request.route.token
    requires exists i :: 0 <= i < |p.orders| && p.orders[i].snapshot.instrument == instrument
    ensures TokenOf(InsertOrder(p.orders, x), instrument) == TokenOf(p.orders, instrument)
  {
    hide InsertOrder, TokenOf, Sound;
    var i :| 0 <= i < |p.orders| && p.orders[i].snapshot.instrument == instrument;
    TokenIs(p.orders, i);
    var k := InsertOrderPlaces(p.orders, x);
    var longer := InsertOrder(p.orders, x);
    var j := if i < k then i else i + 1;
    assert longer[j] == p.orders[i];
    forall l | 0 <= l < |longer| && longer[l].snapshot.instrument == instrument ensures longer[l].snapshot.token == p.orders[i].snapshot.token {
      if l < k {
        assert longer[l] == p.orders[l];
      } else if l > k {
        assert longer[l] == p.orders[l - 1];
      }
    }
    TokenIs(longer, j);
  }

  lemma {:induction false} PlaceStaysOrderly(p: Paper, q: Paper, x: PaperOrder)
    requires Orderly(p) && Sound(q) && !q.scripted && q.orders == InsertOrder(p.orders, x) && q.positions == p.positions
    requires OnRoute(p, x.request.route) && x.snapshot.instrument == x.request.route.instrument
    requires x.snapshot.token == x.request.route.token
    ensures Orderly(q)
  {
    hide InsertOrder, Sound;
    var k := InsertOrderPlaces(p.orders, x);
    forall y | y in q.positions ensures exists i :: 0 <= i < |q.orders| && q.orders[i].snapshot.instrument == y.instrument {
      var i :| 0 <= i < |p.orders| && p.orders[i].snapshot.instrument == y.instrument;
      assert q.orders[if i < k then i else i + 1] == p.orders[i];
    }
    forall i | 0 <= i < |q.orders| ensures q.orders[i] == x || exists j :: 0 <= j < |p.orders| && q.orders[i] == p.orders[j] {
      InsertedAt(p.orders, x, k, i);
    }
  }

  lemma {:induction false} LiveAfterPlace(p: Paper, q: Paper, live: map<string, OSM.Order>, x: PaperOrder, o: OSM.Order)
    requires LiveAgrees(p, live) && q.orders == InsertOrder(p.orders, x) && q.sequence >= p.sequence
    requires FindOrder(p.orders, x.snapshot.orderId).None? && SameOrder(x.snapshot, o, q.sequence)
    ensures LiveAgrees(q, live[x.snapshot.orderId := o])
  {
    hide InsertOrder, FindOrder, SameOrder;
    FindOrderFinds(p.orders, x.snapshot.orderId);
    var k := InsertOrderPlaces(p.orders, x);
    forall i | 0 <= i < |q.orders|
      ensures var id, next := q.orders[i].snapshot.orderId, live[x.snapshot.orderId := o];
              id in next && SameOrder(q.orders[i].snapshot, next[id], q.sequence)
    {
      if i != k {
        var j := if i < k then i else i - 1;
        assert q.orders[i] == p.orders[j];
        LaterIsSame(p.orders[j].snapshot, live[p.orders[j].snapshot.orderId], p.sequence, q.sequence);
      }
    }
  }

  lemma {:induction false} PlaceAgrees(d: Desk, r: Request, eventId: string, answerId: string)
    requires Agrees(d.paper, d.mirror, d.live) && d.paper.health.Ready? && SessionId(eventId) && OnRoute(d.paper, r.route)
    requires r.orderId !in d.live
    ensures var e := DoPlace(d, r, eventId, answerId); Agrees(e.paper, e.mirror, e.live)
  {
    hide SameOrder, PaperId, FindOrder, InsertOrder, Sound, TokenOf, StartedOrder, OSM.ApplyOrderUpdate, Orderly, OrdersAgree,
         PositionsAgree;
    AgreesIsSound(d.paper, d.mirror, d.live);
    PlaceIsSound(d.paper, r);
    var (q, answer) := PlaceOrder(d.paper, r);
    var e := DoPlace(d, r, eventId, answerId);
    if !answer.verdict.Acknowledged? {
      CounterAgrees(d, q);
      LiveReplaced(q, d.mirror, d.live, r.orderId, e.live[r.orderId]);
    } else {
      hide LiveAgrees;
      var x := PaperOrder(r, OrderSnapshot(r.orderId, r.route.instrument, r.route.token, r.side, r.quantity, r.limitPrice, 0, Working),
                          r.baseline, false, false);
      PlacedIsSame(r, eventId, d.paper.sequence);
      OrdersAfterPlace(d.paper, d.mirror.orders, x);
      OrdersAgreeReads(d.paper.(orders := q.orders), q, d.mirror.orders + [x.snapshot]);
      PlaceStaysOrderly(d.paper, q, x);
      LiveAfterPlace(d.paper, q, d.live, x, PlacedOrder(r, eventId, PaperId(d.paper.sequence + 1)));
      PositionsAfterPlace(d.paper, q, x, d.mirror.positions);
    }
  }

  lemma OrdersAgreeReads(p: Paper, q: Paper, orders: seq<OrderSnapshot>)
    requires p.orders == q.orders && OrdersAgree(p, orders)
    ensures OrdersAgree(q, orders)
  {
  }

  lemma {:induction false} PositionsAfterPlace(p: Paper, q: Paper, x: PaperOrder, positions: seq<HeldPosition>)
    requires Orderly(p) && PositionsAgree(p, positions) && q.positions == p.positions && q.orders == InsertOrder(p.orders, x)
    requires OnRoute(p, x.request.route) && x.snapshot.instrument == x.request.route.instrument
    requires x.snapshot.token == x.request.route.token
    ensures PositionsAgree(q, positions)
  {
    hide TokenOf, InsertOrder, Sound;
    forall h | h in p.positions ensures TokenOf(q.orders, h.instrument) == TokenOf(p.orders, h.instrument) {
      TokensAfterPlace(p, x, h.instrument);
    }
    forall h | h in positions ensures h.token == TokenOf(q.orders, h.instrument) {
      assert Position(h.instrument, h.quantity) in p.positions;
    }
  }

  // ---------------------------------------------------------------- what the broker reports is valid

  /** The broker gave this fill its id. */
  ghost predicate Issued(fill: Fill, sequence: nat) {
    exists n: nat :: n <= sequence && fill.fillId == PaperId(n)
  }

  ghost predicate ValidFills(fills: seq<Fill>, sequence: nat) {
    && (forall i :: 0 <= i < |fills| ==> Reconciliation.ValidFill(fills[i]) && Issued(fills[i], sequence))
    && (forall i, j :: 0 <= i < j < |fills| ==> fills[i].fillId != fills[j].fillId)
  }

  ghost predicate Priced(orders: seq<PaperOrder>) {
    forall i :: 0 <= i < |orders| ==> orders[i].snapshot.limitPrice != 0
  }

  ghost predicate Tidy(p: Paper, routes: Routes) {
    Sound(p) && Inventory.OnRoutes(p.orders, routes) && Priced(p.orders) && ValidFills(p.fills, p.sequence)
  }

  lemma {:induction false} FillsGrow(fills: seq<Fill>, fill: Fill, sequence: nat)
    requires ValidFills(fills, sequence) && Reconciliation.ValidFill(fill) && fill.fillId == PaperId(sequence + 1)
    ensures ValidFills(fills + [fill], sequence + 1)
  {
    hide PaperId, Reconciliation.ValidFill;
    var longer := fills + [fill];
    forall i | 0 <= i < |fills| ensures Issued(longer[i], sequence + 1) && longer[i].fillId != fill.fillId {
      var n: nat :| n <= sequence && fills[i].fillId == PaperId(n);
      assert n <= sequence + 1 && longer[i].fillId == PaperId(n);
      if PaperId(n) == PaperId(sequence + 1) {
        PaperIdIsInjective(n, sequence + 1);
        assert false;
      }
    }
    assert Issued(longer[|fills|], sequence + 1);
  }

  lemma {:induction false} FillIsTidy(p: Paper, i: nat, requested: uint64, timestamp: int64, routes: Routes)
    requires Tidy(p, routes) && Inventory.OneToOne(routes) && i < |p.orders| && p.orders[i].snapshot.filled < requested
    requires Remaining(p.orders[i]) > 0
    ensures Tidy(FillAt(p, i, requested, timestamp).0, routes)
  {
    FillIsSound(p, i, requested, timestamp);
    FillLeaves(p, i, requested, timestamp);
    hide FillAt, PaperId, SetQuantity, Quantity, ValidFills, UniqueOrders, UniquePositions;
    var (q, fill) := FillAt(p, i, requested, timestamp);
    PaperIdIsText(p.sequence + 1);
    assert Reconciliation.ValidFill(fill);
    FillsGrow(p.fills, fill, p.sequence);
  }

  lemma {:induction false} ObserveOrderIsTidy(p: Paper, i: nat, o: Risk.Observation, routes: Routes)
    requires Sound(p) && Tidy(p, routes) && Inventory.OneToOne(routes) && i < |p.orders|
    ensures Tidy(ObserveOrder(p, i, o).0, routes)
  {
    var order := p.orders[i];
    var next := order.(observedVolume := o.volume, volumeReset := false);
    NotedIsTidy(p, i, next, routes);
    NotedIsTidy(p, i, next.(awaitingBaseline := false), routes);
    NotedIsTidy(p, i, next.(volumeReset := true), routes);
    RemainsBelow(p, i);
    hide FillAt, Tidy, Inventory.OneToOne, Sound;
    if Trades(order, o) && Remaining(order) > 0 && Concerns(order, o) {
      FillIsTidy(p.(orders := p.orders[i := next]), i, order.snapshot.quantity, o.receiveTime, routes);
    }
  }

  lemma NotedIsTidy(p: Paper, i: nat, next: PaperOrder, routes: Routes)
    requires Tidy(p, routes) && i < |p.orders| && next.snapshot == p.orders[i].snapshot && next.request == p.orders[i].request
    ensures Tidy(p.(orders := p.orders[i := next]), routes)
  {
    hide ValidFills;
  }

  lemma TidyReads(p: Paper, q: Paper, routes: Routes)
    requires Tidy(p, routes) && q.orders == p.orders && q.positions == p.positions && q.fills == p.fills && q.sequence >= p.sequence
    ensures Tidy(q, routes)
  {
    hide PaperId, SoundOrder, UniqueOrders, UniquePositions;
    forall i | 0 <= i < |q.fills| ensures Issued(q.fills[i], q.sequence) {
      var n: nat :| n <= p.sequence && p.fills[i].fillId == PaperId(n);
    }
  }

  lemma {:induction false} ObserveOrdersIsTidy(p: Paper, i: nat, o: Risk.Observation, generated: seq<Fill>, routes: Routes)
    requires Sound(p) && Tidy(p, routes) && Inventory.OneToOne(routes) && i <= |p.orders|
    ensures Tidy(ObserveOrders(p, i, o, generated).0, routes)
    decreases |p.orders| - i
  {
    hide Tidy, Sound, ObserveOrder, UpdatePeak, Inventory.OneToOne;
    if i == |p.orders| {
      PeakKeeps(p);
      TidyReads(p, UpdatePeak(p), routes);
    } else {
      ObserveOrderIsSound(p, i, o);
      ObserveOrderIsTidy(p, i, o, routes);
      var step := ObserveOrder(p, i, o);
      var grown := if step.1.Some? then generated + [step.1.value] else generated;
      ObserveOrdersIsTidy(step.0, i + 1, o, grown, routes);
      assert ObserveOrders(p, i, o, generated) == ObserveOrders(step.0, i + 1, o, grown);
    }
  }

  lemma {:induction false} PlaceIsTidy(p: Paper, r: Request, routes: Routes)
    requires Tidy(p, routes) && r.route.instrument in routes && routes[r.route.instrument].token == r.route.token
    ensures Tidy(PlaceOrder(p, r).0, routes)
  {
    PlaceIsSound(p, r);
    hide Sound, FindOrder, InsertOrder, PaperId;
    var q := PlaceOrder(p, r).0;
    if q.orders == p.orders {
      CounterIsTidy(p, q, routes);
    } else {
      var x := PaperOrder(r, OrderSnapshot(r.orderId, r.route.instrument, r.route.token, r.side, r.quantity, r.limitPrice, 0, Working),
                          r.baseline, false, false);
      var k := InsertOrderPlaces(p.orders, x);
      CounterIsTidy(p, p.(sequence := q.sequence), routes);
    }
  }

  lemma CounterIsTidy(p: Paper, q: Paper, routes: Routes)
    requires Tidy(p, routes) && q == p.(sequence := q.sequence) && q.sequence >= p.sequence
    ensures Tidy(q, routes)
  {
    TidyReads(p, q, routes);
  }

  lemma {:induction false} ChangeIsTidy(p: Paper, q: Paper, i: nat, routes: Routes)
    requires Tidy(p, routes) && Sound(q) && i < |p.orders| == |q.orders| && q.orders == p.orders[i := q.orders[i]]
    requires q.orders[i].snapshot.instrument == p.orders[i].snapshot.instrument && q.orders[i].snapshot.limitPrice != 0
    requires q.orders[i].snapshot.token == p.orders[i].snapshot.token
    requires q.fills == p.fills && q.sequence >= p.sequence
    ensures Tidy(q, routes)
  {
    hide Sound, PaperId;
    forall k | 0 <= k < |q.fills| ensures Issued(q.fills[k], q.sequence) {
      var n: nat :| n <= p.sequence && p.fills[k].fillId == PaperId(n);
    }
  }

  lemma {:induction false} RequestIsTidy(p: Paper, id: string, quantity: uint64, limitPrice: uint64, routes: Routes)
    requires Tidy(p, routes)
    ensures Tidy(ModifyOrder(p, id, quantity, limitPrice).0, routes) && Tidy(CancelOrder(p, id).0, routes)
  {
    FindOrderFinds(p.orders, id);
    ModifyIsSound(p, id, quantity, limitPrice);
    CancelIsSound(p, id);
    var m, c := ModifyOrder(p, id, quantity, limitPrice).0, CancelOrder(p, id).0;
    CounterIsTidy(p, p.(sequence := p.sequence + 1), routes);
    hide FindOrder, Sound, ValidFills, PaperId, Inventory.OnRoutes;
    if FindOrder(p.orders, id).Some? {
      var i := FindOrder(p.orders, id).value;
      if m.orders != p.orders {
        ChangeIsTidy(p, m, i, routes);
      }
      if c.orders != p.orders {
        ChangeIsTidy(p, c, i, routes);
      }
    }
  }
}
