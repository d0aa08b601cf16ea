/**
 What an event of the ledger does to its order, when replay takes it, and to no other.
*/
module ReplayOrders {
  import opened Base
  import OSM = OrderStateMachine
  import OrderTransitions
  import opened Replay

  /** The order is as an event leaves the order that it was. */
  predicate Moved(o: OSM.Order, n: OSM.Order, body: Body) {
    && n.orderId == o.orderId && n.instrument == o.instrument && n.side == o.side && n.originalQuantity == o.originalQuantity
    && match body
       case BrokerAcknowledged(_, brokerOrderId) =>
         && n.brokerOrderId == Some(brokerOrderId) && n.filled == o.filled && n.effectiveQuantity == o.effectiveQuantity
         && n.state == (if o.filled == 0 then OSM.Acknowledged else OSM.PartiallyFilled)
       case Filled(_, _, cumulative) =>
         && n.filled == cumulative && o.filled <= cumulative <= o.effectiveQuantity && n.effectiveQuantity == o.effectiveQuantity
         && (cumulative == o.effectiveQuantity && o.filled < cumulative ==> n.state == OSM.Filled)
       case CancelRequested(_) => n.pending == OSM.CancelPending && n.cancelWasRequested && n.filled == o.filled && n.state == o.state
       case ModifyRequested(_, quantity, limitPrice) =>
         && n.pending == OSM.ModifyPending && n.pendingQuantity == Some(quantity) && n.pendingLimitPrice == Some(limitPrice)
         && n.filled == o.filled && n.effectiveQuantity == o.effectiveQuantity && n.limitPrice == o.limitPrice
       case Modified(_, quantity, limitPrice) =>
         n.effectiveQuantity == quantity && n.limitPrice == limitPrice && n.pending == OSM.NoMutation && n.filled == o.filled
       case ModifyRejected(_) =>
         && n.effectiveQuantity == o.effectiveQuantity && n.limitPrice == o.limitPrice && n.pending == OSM.NoMutation
         && n.filled == o.filled
       case CancelRejected(_) => n.state == OSM.ReconciliationRequired && n.filled == o.filled
       case Cancelled(_) => n.state == (if o.state == OSM.Filled then OSM.Filled else OSM.Cancelled) && n.filled == o.filled
       case BrokerRejected(_) => n.state == OSM.Rejected && n.filled == o.filled
       case AmbiguousSubmission(_) =>
         && (n.state == OSM.AmbiguousSubmission || n.state == OSM.ReconciliationRequired) && n.filled == o.filled
       case ReconciliationCompleted(_, Working(brokerOrderId, cumulative)) =>
         && n.brokerOrderId == Some(brokerOrderId) && n.filled == cumulative && o.filled <= cumulative <= o.effectiveQuantity
         && n.pending == OSM.NoMutation
         && n.state == (if cumulative == o.effectiveQuantity then OSM.Filled
                        else if cumulative > 0 then OSM.PartiallyFilled else OSM.Acknowledged)
       case ReconciliationCompleted(_, CancelledThere) => n.state == OSM.Cancelled && n.filled == o.filled
       case ReconciliationCompleted(_, RejectedThere) => n.state == OSM.Rejected && n.filled == o.filled
       case _ => n == o
  }

  /** The id under which an event tells its order something; an empty one is always new. */
  function UpdateIdOf(body: Body): string {
    match body
    case BrokerAcknowledged(id, _) => id
    case Filled(_, id, _) => id
    case CancelRequested(id) => id
    case ModifyRequested(id, _, _) => id
    case Modified(id, _, _) => id
    case ModifyRejected(id) => id
    case CancelRejected(id) => id
    case Cancelled(id) => id
    case BrokerRejected(id) => id
    case AmbiguousSubmission(id) => id
    case ReconciliationCompleted(id, _) => id
    case _ => ""
  }

  /** The order has taken no update under the event's id. */
  ghost predicate Unheard(o: OSM.Order, body: Body) {
    UpdateIdOf(body) == "" || forall i :: 0 <= i < |o.evidence| ==> o.evidence[i].updateId != UpdateIdOf(body)
  }

  lemma {:induction false} EvidenceMoves(o: OSM.Order, e: Event)
    requires EvidenceOf(e).Some? && Unheard(o, e.body)
    requires OSM.ApplyOrderUpdate(o, EvidenceOf(e).value).error.None?
    ensures Moved(o, OSM.ApplyOrderUpdate(o, EvidenceOf(e).value).order, e.body)
  {
    OrderTransitions.MachineIsTheTable(o, EvidenceOf(e).value);
    hide OSM.ApplyOrderUpdate;
  }

  /** Main result: an event that replay takes moves its order as its kind says, and no other; a submission starts a new
      order of its terms. */
  lemma {:induction false} RecordMovesOrder(s: State, sequence: nat, e: Event)
    requires ReplayRecord(s, sequence, e).Ok?
    ensures var before, after := s.books.orders, ReplayRecord(s, sequence, e).value.books.orders;
            && (forall id :: e.orderId != Some(id) ==> (id in after <==> id in before) && (id in before ==> after[id] == before[id]))
            && (e.body.SubmissionStarted? ==>
                  && e.orderId.Some? && e.orderId.value !in before && e.orderId.value in after
                  && var n := after[e.orderId.value];
                     && n.instrument == e.body.instrument && n.side == e.body.side && n.effectiveQuantity == e.body.quantity
                     && n.limitPrice == e.body.limitPrice && n.filled == 0 && n.state == OSM.SubmissionStarted)
            && (!e.body.SubmissionStarted? && e.orderId.Some? && e.orderId.value in before ==>
                  && e.orderId.value in after
                  && (Unheard(before[e.orderId.value], e.body) ==>
                        Moved(before[e.orderId.value], after[e.orderId.value], e.body)))
  {
    var sourced := RecordSource(s, e).value;
    if HoldsEvidence(e) {
      EvidenceMovesOrder(sourced, e);
      hide ReplayEvidence, HoldsEvidence, Moved, Unheard;
    } else {
      if e.body.SubmissionStarted? {
        SubmissionStartsOrder(sourced, e);
        hide HoldsEvidence, Moved, Unheard, ReplaySubmission;
      } else {
        NoticeKeepsOrders(sourced, sequence, e);
        if e.orderId.Some? {
          NoticeMovesNothing(e);
        }
        hide ReplayNotice, HoldsEvidence, Moved, Unheard;
      }
    }
  }

  lemma {:induction false} EvidenceMovesOrder(s: State, e: Event)
    requires HoldsEvidence(e) && ReplayEvidence(s, e).Ok?
    ensures var before, after := s.books.orders, ReplayEvidence(s, e).value.books.orders;
            && !e.body.SubmissionStarted? && e.orderId.Some? && e.orderId.value in before
            && after.Keys == before.Keys
            && (forall id :: id in before && e.orderId != Some(id) ==> after[id] == before[id])
            && (Unheard(before[e.orderId.value], e.body) ==> Moved(before[e.orderId.value], after[e.orderId.value], e.body))
  {
    SubmissionHoldsNothing(e);
    BookedMovesOrder(s.books, e);
    hide Informed, Booked, Moved, Unheard, EvidenceOf, HoldsEvidence;
  }

  lemma SubmissionHoldsNothing(e: Event)
    ensures HoldsEvidence(e) ==> !e.body.SubmissionStarted?
  {
  }

  lemma {:induction false} BookedMovesOrder(books: Books, e: Event)
    requires EvidenceOf(e).Some? && Booked(books, e).Ok?
    ensures var before, after := books.orders, Booked(books, e).value.books.orders;
            && e.orderId.Some? && e.orderId.value in before && after.Keys == before.Keys
            && (forall id :: id in before && e.orderId != Some(id) ==> after[id] == before[id])
            && (Unheard(before[e.orderId.value], e.body) ==> Moved(before[e.orderId.value], after[e.orderId.value], e.body))
  {
    var id := e.orderId.value;
    if id in books.orders && OSM.ApplyOrderUpdate(books.orders[id], EvidenceOf(e).value).error.None?
       && Unheard(books.orders[id], e.body) {
      EvidenceMoves(books.orders[id], e);
    }
    hide AddChecked, OSM.ApplyOrderUpdate, Moved, Unheard, EvidenceOf;
  }

  lemma NoticeMovesNothing(e: Event)
    requires !HoldsEvidence(e) && !e.body.SubmissionStarted? && e.orderId.Some?
    ensures forall o :: Moved(o, o, e.body)
  {
  }

  lemma {:induction false} SubmissionStartsOrder(s: State, e: Event)
    requires e.body.SubmissionStarted? && ReplaySubmission(s, e).Ok?
    ensures var before, after := s.books.orders, ReplaySubmission(s, e).value.books.orders;
            && e.orderId.Some? && e.orderId.value !in before && after.Keys == before.Keys + {e.orderId.value}
            && (forall id :: id in before ==> after[id] == before[id])
            && var n := after[e.orderId.value];
               && n.instrument == e.body.instrument && n.side == e.body.side && n.effectiveQuantity == e.body.quantity
               && n.limitPrice == e.body.limitPrice && n.filled == 0 && n.state == OSM.SubmissionStarted
  {
    hide Told;
  }

  lemma {:induction false} WordKeepsOrders(s: State, e: Event, d: Disposition, ambiguous: bool)
    ensures UpdateIntent(s, e, d, ambiguous).Ok? ==> UpdateIntent(s, e, d, ambiguous).value.books == s.books
  {
    hide Told;
  }

  lemma {:induction false} DecisionKeepsOrders(s: State, e: Event, decision: string, d: Disposition)
    requires ReplayDecision(s, e, decision, d).Ok?
    ensures ReplayDecision(s, e, decision, d).value.books == s.books
  {
    WordKeepsOrders(s.(intents := Decided(s.intents, e, decision).value), e, d, false);
    hide Decided, UpdateIntent;
  }

  lemma {:induction false} MappingKeepsOrders(s: State, e: Event)
    requires e.body.MappingValidated? && ReplayMapped(s, e).Ok?
    ensures ReplayMapped(s, e).value.books.orders == s.books.orders
  {
    hide Told;
  }

  lemma {:induction false} NoticeKeepsOrders(s: State, sequence: nat, e: Event)
    requires !HoldsEvidence(e) && ReplayNotice(s, sequence, e).Ok? && !e.body.SubmissionStarted?
    ensures ReplayNotice(s, sequence, e).value.books.orders == s.books.orders
  {
    match e.body {
      case MappingValidated(_) => MappingKeepsOrders(s, e);
      case RiskApproved(decision) => DecisionKeepsOrders(s, e, decision, Approved);
      case RiskRejected(decision) => DecisionKeepsOrders(s, e, decision, Declined);
      case MappingRefused => WordKeepsOrders(s, e, NotMapped, false);
      case ReconciliationRequired => WordKeepsOrders(s.(reconciliationRequired := true), e, NeedsReconciliation, true);
      case _ =>
    }
    hide ReceivedIntents, ReplayMapped, ReplaySubmission, ReplayDecision, UpdateIntent, EvidenceOf;
  }
}
