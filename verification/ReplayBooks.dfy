/**
 What holds of every state a ledger reconstructs: each order is one the state machine can reach, and
 positions are the signed sums of what the orders have filled.
*/
module ReplayBooks {
  import opened Base
  import OSM = OrderStateMachine
  import opened Replay

  /** The orders a ledger submitted, in order. */
  function OrderIds(events: seq<Event>): seq<string> {
    if events == [] then []
    else
      var last := events[|events| - 1];
      OrderIds(events[..|events| - 1])
      + if last.body.SubmissionStarted? && last.orderId.Some? then [last.orderId.value] else []
  }

  /** The signed quantity the orders of one instrument have filled. */
  function Exposure(orders: map<string, OSM.Order>, ids: seq<string>, instrument: string): int {
    if ids == [] then 0
    else
      var id := ids[|ids| - 1];
      Exposure(orders, ids[..|ids| - 1], instrument)
      + if id in orders && orders[id].instrument == instrument then OSM.SignedDelta(orders[id].side, orders[id].filled) else 0
  }

  /** The signed quantity the orders of one route have filled. */
  function RouteExposure(s: Books, ids: seq<string>, token: string): int {
    if ids == [] then 0
    else
      var id := ids[|ids| - 1];
      RouteExposure(s, ids[..|ids| - 1], token)
      + if id in s.orders && id in s.tokens && s.tokens[id] == token
        then OSM.SignedDelta(s.orders[id].side, s.orders[id].filled) else 0
  }

  ghost predicate Distinct(ids: seq<string>) {
    forall i, j :: 0 <= i < j < |ids| ==> ids[i] != ids[j]
  }

  ghost predicate Reachable(s: Books, ids: seq<string>) {
    && Distinct(ids) && (forall id :: id in s.orders <==> id in ids)
    && forall id :: id in s.orders ==> OSM.Valid(s.orders[id]) && s.orders[id].orderId == id
  }

  ghost predicate PositionsAdd(s: Books, ids: seq<string>) {
    forall instrument :: At(s.positions, instrument) == Exposure(s.orders, ids, instrument)
  }

  ghost predicate RoutesAdd(s: Books, ids: seq<string>) {
    && (forall id :: id in s.orders ==> id in s.tokens)
    && forall token :: At(s.routePositions, token) == RouteExposure(s, ids, token)
  }

  /** Every order had its route validated before it was submitted. */
  ghost predicate RoutedBeforeSubmission(events: seq<Event>)
    decreases |events|
  {
    events == []
    || (var before, last := events[..|events| - 1], events[|events| - 1];
        && RoutedBeforeSubmission(before)
        && (ReplayLedger(before).Ok? && last.body.SubmissionStarted? && last.orderId.Some? ==>
              last.orderId.value in ReplayLedger(before).value.books.tokens))
  }

  // ---------------------------------------------------------------- sums under a change of one order

  lemma {:induction false} ExposureChanges(orders: map<string, OSM.Order>, ids: seq<string>, id: string, next: OSM.Order,
                                           instrument: string)
    requires id in orders && Distinct(ids)
    requires next.instrument == orders[id].instrument && next.side == orders[id].side
    ensures Exposure(orders[id := next], ids, instrument)
            == Exposure(orders, ids, instrument)
               + if id in ids && next.instrument == instrument
                 then OSM.SignedDelta(next.side, next.filled - orders[id].filled) else 0
  {
    if ids != [] {
      var n := |ids| - 1;
      ExposureChanges(orders, ids[..n], id, next, instrument);
      assert ids == ids[..n] + [ids[n]];
      assert ids[n] == id ==> id !in ids[..n];
    }
  }

  lemma {:induction false} RouteExposureChanges(s: Books, ids: seq<string>, id: string, next: OSM.Order, token: string)
    requires id in s.orders && Distinct(ids)
    requires next.side == s.orders[id].side
    ensures RouteExposure(s.(orders := s.orders[id := next]), ids, token)
            == RouteExposure(s, ids, token)
               + if id in ids && id in s.tokens && s.tokens[id] == token
                 then OSM.SignedDelta(next.side, next.filled - s.orders[id].filled) else 0
  {
    if ids != [] {
      var n := |ids| - 1;
      RouteExposureChanges(s, ids[..n], id, next, token);
      assert ids == ids[..n] + [ids[n]];
      assert ids[n] == id ==> id !in ids[..n];
    }
  }

  lemma {:induction false} ExposureOfNew(orders: map<string, OSM.Order>, ids: seq<string>, id: string, order: OSM.Order,
                                         instrument: string)
    requires id !in ids && order.filled == 0
    ensures Exposure(orders[id := order], ids + [id], instrument) == Exposure(orders, ids, instrument)
  {
    assert (ids + [id])[..|ids|] == ids;
    ExposureIgnores(orders, ids, id, order, instrument);
  }

  lemma {:induction false} ExposureIgnores(orders: map<string, OSM.Order>, ids: seq<string>, id: string, order: OSM.Order,
                                           instrument: string)
    requires id !in ids
    ensures Exposure(orders[id := order], ids, instrument) == Exposure(orders, ids, instrument)
  {
    if ids != [] {
      ExposureIgnores(orders, ids[..|ids| - 1], id, order, instrument);
    }
  }

  /** Route sums read only the orders and tokens of their ids. */
  lemma {:induction false} RouteExposureReads(s: Books, t: Books, ids: seq<string>, token: string)
    requires forall id :: id in ids ==>
               && (id in s.orders <==> id in t.orders) && (id in s.orders ==> s.orders[id] == t.orders[id])
               && (id in s.tokens <==> id in t.tokens) && (id in s.tokens ==> s.tokens[id] == t.tokens[id])
    ensures RouteExposure(s, ids, token) == RouteExposure(t, ids, token)
  {
    if ids != [] {
      RouteExposureReads(s, t, ids[..|ids| - 1], token);
    }
  }

  // ---------------------------------------------------------------- one step

  /** Only fills and reconciled fills move a position. */
  lemma {:induction false} OtherEvidenceMovesNothing(o: OSM.Order, u: OSM.Evidence)
    requires !u.kind.FillUpdate? && !u.kind.ReconcileWorking?
    ensures OSM.ApplyOrderUpdate(o, u).positionDelta == 0
  {
    hide OSM.FindEvidence;
  }

  lemma {:induction false} ApplyMovesOrder(s: Books, e: Event, ids: seq<string>)
    requires EvidenceOf(e).Some? && Apply(s, e, EvidenceOf(e).value).Ok? && Reachable(s, ids)
    ensures var a := Apply(s, e, EvidenceOf(e).value).value;
            && e.orderId.Some? && e.orderId.value in s.orders
            && a.books == s.(orders := s.orders[e.orderId.value := a.order])
            && a.order.instrument == s.orders[e.orderId.value].instrument && a.order.side == s.orders[e.orderId.value].side
            && a.delta == OSM.SignedDelta(a.order.side, a.order.filled - s.orders[e.orderId.value].filled)
            && Reachable(a.books, ids)
            && (!MovesPosition(e) ==> a.delta == 0)
  {
    hide OSM.Valid, OSM.ApplyOrderUpdate, OSM.FindEvidence;
    var order, evidence := s.orders[e.orderId.value], EvidenceOf(e).value;
    OSM.StepKeepsInvariant(order, evidence);
    if !MovesPosition(e) {
      OtherEvidenceMovesNothing(order, evidence);
    }
  }

  /** `t` is `s` after the order `id` became `next`, with the positions moved by the same fill. */
  ghost predicate Moved(s: Books, t: Books, id: string, next: OSM.Order) {
    && id in s.orders && t.orders == s.orders[id := next] && t.tokens == s.tokens
    && var delta := OSM.SignedDelta(next.side, next.filled - s.orders[id].filled);
       && (forall instrument :: At(t.positions, instrument)
                                == At(s.positions, instrument) + if instrument == next.instrument then delta else 0)
       && (id in s.tokens ==>
             forall token :: At(t.routePositions, token)
                             == At(s.routePositions, token) + if token == s.tokens[id] then delta else 0)
  }

  lemma {:induction false} MovedBooks(s: Books, t: Books, id: string, next: OSM.Order, ids: seq<string>)
    requires Reachable(s, ids) && PositionsAdd(s, ids) && Moved(s, t, id, next)
    requires next.instrument == s.orders[id].instrument && next.side == s.orders[id].side
    ensures PositionsAdd(t, ids)
    ensures RoutesAdd(s, ids) ==> RoutesAdd(t, ids)
  {
    hide Exposure, RouteExposure, OSM.Valid, At, OSM.SignedDelta;
    forall instrument ensures At(t.positions, instrument) == Exposure(t.orders, ids, instrument) {
      ExposureChanges(s.orders, ids, id, next, instrument);
    }
    if RoutesAdd(s, ids) {
      var moved := s.(orders := s.orders[id := next]);
      forall token ensures At(t.routePositions, token) == RouteExposure(t, ids, token) {
        RouteExposureChanges(s, ids, id, next, token);
        RouteExposureReads(moved, t, ids, token);
      }
    }
  }

  lemma AddCheckedAdds(positions: map<string, int64>, key: string, delta: int)
    requires AddChecked(positions, key, delta).Ok?
    ensures forall other :: At(AddChecked(positions, key, delta).value, other)
                            == At(positions, other) + if other == key then delta else 0
  {
  }

  /** Moving the positions by the fill of an order. */
  lemma {:induction false} PositionMoves(s: Books, e: Event, applied: Applied)
    requires e.orderId.Some? && e.orderId.value in s.orders
    requires applied.books == s.(orders := s.orders[e.orderId.value := applied.order])
    requires applied.delta == OSM.SignedDelta(applied.order.side, applied.order.filled - s.orders[e.orderId.value].filled)
    requires AddPosition(applied.books, e, applied.order.instrument, applied.delta).Ok?
    ensures Moved(s, AddPosition(applied.books, e, applied.order.instrument, applied.delta).value, e.orderId.value, applied.order)
  {
    hide OSM.SignedDelta, AddChecked, At;
    AddCheckedAdds(s.positions, applied.order.instrument, applied.delta);
    if e.orderId.value in s.tokens {
      AddCheckedAdds(s.routePositions, s.tokens[e.orderId.value], applied.delta);
    }
  }

  lemma NothingMoves(s: Books, id: string, order: OSM.Order)
    requires id in s.orders && 0 == OSM.SignedDelta(order.side, order.filled - s.orders[id].filled)
    ensures Moved(s, s.(orders := s.orders[id := order]), id, order)
  {
    hide OSM.SignedDelta, At;
  }

  lemma {:induction false} EvidenceMoves(s: Books, e: Event, ids: seq<string>)
    requires EvidenceOf(e).Some? && Booked(s, e).Ok? && Reachable(s, ids)
    ensures Apply(s, e, EvidenceOf(e).value).Ok? && e.orderId.Some?
    ensures Moved(s, Booked(s, e).value.books, e.orderId.value, Booked(s, e).value.order)
  {
    hide Reachable, Apply, EvidenceOf, Moved, AddPosition, OSM.SignedDelta;
    ApplyMovesOrder(s, e, ids);
    var a := Apply(s, e, EvidenceOf(e).value).value;
    if MovesPosition(e) {
      PositionMoves(s, e, a);
    } else {
      NothingMoves(s, e.orderId.value, a.order);
    }
  }

  lemma ReachableReads(s: Books, t: Books, ids: seq<string>)
    requires s.orders == t.orders
    ensures Reachable(s, ids) ==> Reachable(t, ids)
  {
  }

  lemma {:induction false} EvidenceKeepsBooks(s: Books, e: Event, ids: seq<string>)
    requires EvidenceOf(e).Some? && Booked(s, e).Ok? && Reachable(s, ids) && PositionsAdd(s, ids)
    ensures var t := Booked(s, e).value.books;
            Reachable(t, ids) && PositionsAdd(t, ids) && (RoutesAdd(s, ids) ==> RoutesAdd(t, ids))
  {
    EvidenceMoves(s, e, ids);
    ApplyMovesOrder(s, e, ids);
    hide Reachable, PositionsAdd, RoutesAdd, Apply, EvidenceOf, AddPosition;
    var booked := Booked(s, e).value;
    MovedBooks(s, booked.books, e.orderId.value, booked.order, ids);
    ReachableReads(Apply(s, e, EvidenceOf(e).value).value.books, booked.books, ids);
  }

  lemma {:induction false} SubmissionKeepsBooks(s: Books, e: Event, ids: seq<string>)
    requires e.body.SubmissionStarted? && Submit(s, e).Ok? && Reachable(s, ids) && PositionsAdd(s, ids)
    ensures e.orderId.Some?
    ensures var t, longer := Submit(s, e).value, ids + [e.orderId.value];
            && Reachable(t, longer) && PositionsAdd(t, longer)
            && (RoutesAdd(s, ids) && e.orderId.value in s.tokens ==> RoutesAdd(t, longer))
  {
    hide Exposure, RouteExposure, At, OSM.FindEvidence, OSM.UniqueEvidence;
    var id := e.orderId.value;
    var t, longer := Submit(s, e).value, ids + [id];
    var order := t.orders[id];
    SubmittedOrderIsValid(id, e);
    assert t.orders == s.orders[id := order];
    forall instrument ensures At(t.positions, instrument) == Exposure(t.orders, longer, instrument) {
      ExposureOfNew(s.orders, ids, id, order, instrument);
    }
    if RoutesAdd(s, ids) && id in s.tokens {
      forall token ensures At(t.routePositions, token) == RouteExposure(t, longer, token) {
        RouteExposureReads(s, t, ids, token);
        RouteExposureOfNew(t, ids, id, token);
      }
    }
  }

  lemma {:induction false} SubmittedOrderIsValid(id: string, e: Event)
    requires e.body.SubmissionStarted?
    ensures var r := OSM.ApplyOrderUpdate(Prepared(id, e), OSM.Plain(OSM.SubmissionStartedEvent, e.eventId));
            r.error.None? ==> OSM.Valid(r.order) && r.order.filled == 0 && r.order.orderId == id
  {
    var o := Prepared(id, e);
    if o.originalQuantity > 0 {
      OSM.StepKeepsInvariant(o, OSM.Plain(OSM.SubmissionStartedEvent, e.eventId));
    }
  }

  lemma {:induction false} RouteExposureOfNew(s: Books, ids: seq<string>, id: string, token: string)
    requires id in s.orders && s.orders[id].filled == 0
    ensures RouteExposure(s, ids + [id], token) == RouteExposure(s, ids, token)
  {
    assert (ids + [id])[..|ids|] == ids;
  }

  lemma {:induction false} MappingKeepsBooks(s: Books, e: Event, ids: seq<string>)
    requires e.body.MappingValidated? && Routed(s, e).Ok? && Reachable(s, ids) && PositionsAdd(s, ids)
    ensures var t := Routed(s, e).value;
            Reachable(t, ids) && PositionsAdd(t, ids) && (RoutesAdd(s, ids) ==> RoutesAdd(t, ids))
  {
    hide Exposure, RouteExposure, At, OSM.Valid;
    var t := Routed(s, e).value;
    if RoutesAdd(s, ids) {
      forall token ensures At(t.routePositions, token) == RouteExposure(t, ids, token) {
        RouteExposureReads(s, t, ids, token);
      }
    }
  }

  lemma {:induction false} BooksAfterEvidence(s: State, e: Event)
    requires EvidenceOf(e).Some? && ReplayEvidence(s, e).Ok?
    ensures Booked(s.books, e).Ok? && ReplayEvidence(s, e).value.books == Booked(s.books, e).value.books
  {
    hide Booked, Informed, EvidenceOf;
  }

  lemma {:induction false} BooksAfterNotice(s: State, sequence: nat, e: Event)
    requires ReplayNotice(s, sequence, e).Ok?
    ensures var t := ReplayNotice(s, sequence, e).value.books;
            && (e.body.SubmissionStarted? ==> Submit(s.books, e).Ok? && t == Submit(s.books, e).value)
            && (e.body.MappingValidated? ==> Routed(s.books, e).Ok? && t == Routed(s.books, e).value)
            && (!e.body.SubmissionStarted? && !e.body.MappingValidated? ==> t == s.books)
  {
    hide Submit, Routed, Told, Decided, ReceivedIntents;
  }

  /** The books after an event, by its kind. */
  lemma {:induction false} BooksAfter(s: State, sequence: nat, e: Event)
    requires ReplayRecord(s, sequence, e).Ok?
    ensures var t := ReplayRecord(s, sequence, e).value.books;
            && (HoldsEvidence(e) ==> Booked(s.books, e).Ok? && t == Booked(s.books, e).value.books)
            && (e.body.SubmissionStarted? ==> Submit(s.books, e).Ok? && t == Submit(s.books, e).value)
            && (e.body.MappingValidated? ==> Routed(s.books, e).Ok? && t == Routed(s.books, e).value)
            && (!HoldsEvidence(e) && !e.body.SubmissionStarted? && !e.body.MappingValidated? ==> t == s.books)
  {
    NoticesHoldNone(e);
    hide Booked, Submit, Routed, ReplayEvidence, ReplayNotice, EvidenceOf;
    var sourced := RecordSource(s, e).value;
    if HoldsEvidence(e) {
      BooksAfterEvidence(sourced, e);
    } else {
      BooksAfterNotice(sourced, sequence, e);
    }
  }

  lemma NoticesHoldNone(e: Event)
    ensures e.body.SubmissionStarted? || e.body.MappingValidated? ==> !HoldsEvidence(e)
  {
  }

  lemma {:induction false} RecordKeepsBooks(s: State, sequence: nat, e: Event, ids: seq<string>)
    requires Reachable(s.books, ids) && PositionsAdd(s.books, ids) && ReplayRecord(s, sequence, e).Ok?
    ensures var t := ReplayRecord(s, sequence, e).value.books;
            var longer := ids + if e.body.SubmissionStarted? && e.orderId.Some? then [e.orderId.value] else [];
            && Reachable(t, longer) && PositionsAdd(t, longer)
            && (RoutesAdd(s.books, ids)
                && (e.body.SubmissionStarted? && e.orderId.Some? ==> e.orderId.value in s.books.tokens) ==>
                  RoutesAdd(t, longer))
  {
    BooksAfter(s, sequence, e);
    assert HoldsEvidence(e) ==> !e.body.SubmissionStarted? && EvidenceOf(e).Some?;
    hide Reachable, PositionsAdd, RoutesAdd, HoldsEvidence, ReplayRecord, EvidenceOf, Booked, Submit, Routed;
    assert ids + [] == ids;
    if HoldsEvidence(e) {
      EvidenceKeepsBooks(s.books, e, ids);
    } else if e.body.SubmissionStarted? {
      SubmissionKeepsBooks(s.books, e, ids);
    } else if e.body.MappingValidated? {
      MappingKeepsBooks(s.books, e, ids);
    }
  }

  /** Main result: whatever ledger is replayed, every order is one its state machine can reach and every
      position is the signed sum of what the instrument's orders have filled; so is every route's position
      when orders were routed before they were submitted. */
  lemma {:induction false} ReplayConserves(events: seq<Event>)
    requires ReplayLedger(events).Ok?
    ensures var s, ids := ReplayLedger(events).value.books, OrderIds(events);
            && Reachable(s, ids) && PositionsAdd(s, ids) && (RoutedBeforeSubmission(events) ==> RoutesAdd(s, ids))
    decreases |events|
  {
    hide ReplayRecord, Reachable, PositionsAdd, RoutesAdd;
    if events == [] {
      EmptyBooks();
    } else {
      var n := |events| - 1;
      ReplayConserves(events[..n]);
      var s, ids := ReplayLedger(events[..n]).value, OrderIds(events[..n]);
      RecordKeepsBooks(s, n + 1, events[n], ids);
    }
  }

  lemma EmptyBooks()
    ensures Reachable(EMPTY.books, []) && PositionsAdd(EMPTY.books, []) && RoutesAdd(EMPTY.books, [])
  {
  }
}
