/**
 The order machine as a table: of an update whose id is new, when it is taken, and what the order is afterwards.
*/
module OrderTransitions {
  import opened Base
  import opened OrderStateMachine

  predicate IsWorking(o: Order) {
    o.state == Acknowledged || o.state == PartiallyFilled
  }

  predicate InDoubt(o: Order) {
    o.state == AmbiguousSubmission || o.state == ReconciliationRequired
  }

  /** A quantity and a price an order can have. */
  predicate Possible(o: Order, quantity: Option<uint64>, price: Option<uint64>) {
    quantity.Some? && price.Some? && 0 < quantity.value && o.filled <= quantity.value && 0 < price.value
  }

  /** A filled quantity an order can have, and one step can bring. */
  predicate Fillable(o: Order, cumulative: Option<uint64>) {
    cumulative.Some? && o.filled <= cumulative.value <= o.effectiveQuantity && cumulative.value - o.filled <= INT64_MAX
  }

  /** When an update is taken. */
  predicate Taken(o: Order, u: Evidence) {
    match u.kind
    case SubmissionStartedEvent => o.state == Prepared
    case BrokerAcknowledged => o.state == SubmissionStarted && u.brokerOrderId.Some? && u.brokerOrderId != Some("")
    case BrokerRejected => o.state == Prepared || o.state == SubmissionStarted || o.state == Rejected
    case FillUpdate =>
      || (IsWorking(o) && Fillable(o, u.cumulativeFilled))
      || (o.state == Filled && u.cumulativeFilled == Some(o.filled))
    case ModifyRequested => IsWorking(o) && o.pending == NoMutation && Possible(o, u.acceptedQuantity, u.acceptedLimitPrice)
    case ModifyAccepted =>
      && o.pending == ModifyPending && u.acceptedQuantity == o.pendingQuantity && u.acceptedLimitPrice == o.pendingLimitPrice
      && Possible(o, u.acceptedQuantity, u.acceptedLimitPrice)
    case ModifyRejected => o.pending == ModifyPending
    case CancelRequested => IsWorking(o) && o.pending == NoMutation
    case CancelAccepted =>
      || ((o.state == Filled || o.state == Cancelled) && o.cancelWasRequested)
      || (o.state != Filled && o.state != Cancelled && o.pending == CancelPending)
    case CancelRejected => o.pending == CancelPending
    case SubmissionAmbiguous => o.state == SubmissionStarted || o.pending != NoMutation
    case ReconcileWorking => InDoubt(o) && u.brokerOrderId.Some? && Fillable(o, u.cumulativeFilled)
    case ReconcileCancelled => InDoubt(o) || o.state == Cancelled
    case ReconcileRejected => InDoubt(o) || o.state == Rejected
  }

  /** An order at work: whole, in part or not at all filled. */
  predicate AtWork(n: Order) {
    n.state == (if n.filled == n.effectiveQuantity then Filled else if n.filled > 0 then PartiallyFilled else Acknowledged)
  }

  /** What is not part of the life of an order never changes. */
  predicate SameTerms(o: Order, n: Order) {
    && n.orderId == o.orderId && n.instrument == o.instrument && n.side == o.side && n.originalQuantity == o.originalQuantity
  }

  /** The quantity and price an order works at, and how much of it is filled. */
  predicate SameFill(o: Order, n: Order) {
    n.effectiveQuantity == o.effectiveQuantity && n.limitPrice == o.limitPrice && n.filled == o.filled
  }

  predicate NothingPending(n: Order) {
    n.pending == NoMutation && n.pendingQuantity == None && n.pendingLimitPrice == None
  }

  predicate SamePending(o: Order, n: Order) {
    n.pending == o.pending && n.pendingQuantity == o.pendingQuantity && n.pendingLimitPrice == o.pendingLimitPrice
  }

  /** What the order is after an update that it takes. */
  predicate Becomes(o: Order, u: Evidence, n: Order) {
    && SameTerms(o, n)
    && n.cancelWasRequested == (o.cancelWasRequested || u.kind == CancelRequested)
    && (u.kind != BrokerAcknowledged && u.kind != ReconcileWorking ==> n.brokerOrderId == o.brokerOrderId)
    && match u.kind
       case SubmissionStartedEvent => n.state == SubmissionStarted && SameFill(o, n) && SamePending(o, n)
       case BrokerAcknowledged =>
         && n.state == (if o.filled == 0 then Acknowledged else PartiallyFilled) && n.brokerOrderId == u.brokerOrderId
         && SameFill(o, n) && SamePending(o, n)
       case BrokerRejected => n.state == Rejected && SameFill(o, n) && SamePending(o, n)
       case FillUpdate =>
         && Some(n.filled) == u.cumulativeFilled && n.effectiveQuantity == o.effectiveQuantity && n.limitPrice == o.limitPrice
         && (if n.filled == o.filled then n.state == o.state && SamePending(o, n)
             else if n.filled == o.effectiveQuantity then n.state == Filled && NothingPending(n)
             else n.state == PartiallyFilled && SamePending(o, n))
       case ModifyRequested =>
         && n.state == o.state && SameFill(o, n) && n.pending == ModifyPending
         && n.pendingQuantity == u.acceptedQuantity && n.pendingLimitPrice == u.acceptedLimitPrice
       case ModifyAccepted =>
         && Some(n.effectiveQuantity) == u.acceptedQuantity && Some(n.limitPrice) == u.acceptedLimitPrice
         && n.filled == o.filled && NothingPending(n) && AtWork(n)
       case ModifyRejected =>
         SameFill(o, n) && NothingPending(n) && n.state == (if o.filled == 0 then Acknowledged else PartiallyFilled)
       case CancelRequested => n.state == o.state && SameFill(o, n) && n.pending == CancelPending
       case CancelAccepted => n.state == (if o.state == Filled then Filled else Cancelled) && SameFill(o, n)
       case CancelRejected => n.state == ReconciliationRequired && SameFill(o, n) && n.pending == NoMutation
       case SubmissionAmbiguous =>
         && n.state == (if o.state == SubmissionStarted then AmbiguousSubmission else ReconciliationRequired)
         && SameFill(o, n) && SamePending(o, n)
       case ReconcileWorking =>
         && Some(n.filled) == u.cumulativeFilled && n.effectiveQuantity == o.effectiveQuantity && n.limitPrice == o.limitPrice
         && n.brokerOrderId == u.brokerOrderId && NothingPending(n) && AtWork(n)
       case ReconcileCancelled => n.state == Cancelled && SameFill(o, n)
       case ReconcileRejected => n.state == Rejected && SameFill(o, n)
  }

  /** An update whose id the order has not taken before, or that has none. */
  ghost predicate New(o: Order, u: Evidence) {
    u.updateId == "" || forall i :: 0 <= i < |o.evidence| ==> o.evidence[i].updateId != u.updateId
  }

  lemma {:induction false} NewIsNotFound(evidence: seq<AppliedEvidence>, id: string)
    requires forall i :: 0 <= i < |evidence| ==> evidence[i].updateId != id
    ensures FindEvidence(evidence, id).None?
  {
    if evidence != [] {
      NewIsNotFound(evidence[1..], id);
    }
  }

  /** The step is the table's. */
  predicate Tabled(o: Order, u: Evidence, t: Transition) {
    && (t.error.None? <==> Taken(o, u))
    && (Taken(o, u) ==>
          && Becomes(o, u, t.order) && t.applied
          && t.positionDelta == (t.order.filled - o.filled) * (if o.side == Buy then 1 else -1))
    && (!Taken(o, u) ==> t.order == o && t.positionDelta == 0)
  }

  lemma {:induction false} SubmissionIsTabled(o: Order, u: Evidence)
    requires u.kind.SubmissionStartedEvent? || u.kind.BrokerAcknowledged? || u.kind.BrokerRejected?
    ensures Tabled(o, u, ApplyNew(o, u))
  {
  }

  lemma {:induction false} FillIsTabled(o: Order, u: Evidence)
    requires u.kind.FillUpdate? && o.filled <= o.effectiveQuantity
    ensures Tabled(o, u, ApplyFill(o, u))
  {
  }

  lemma {:induction false} ModificationIsTabled(o: Order, u: Evidence)
    requires u.kind.ModifyRequested? || u.kind.ModifyAccepted? || u.kind.ModifyRejected?
    ensures Tabled(o, u, ApplyNew(o, u))
  {
  }

  lemma {:induction false} CancellationIsTabled(o: Order, u: Evidence)
    requires u.kind.CancelRequested? || u.kind.CancelAccepted? || u.kind.CancelRejected? || u.kind.SubmissionAmbiguous?
    ensures Tabled(o, u, ApplyNew(o, u))
  {
  }

  lemma {:induction false} ReconciliationIsTabled(o: Order, u: Evidence)
    requires u.kind.ReconcileWorking? || u.kind.ReconcileCancelled? || u.kind.ReconcileRejected?
    requires o.filled <= o.effectiveQuantity
    ensures Tabled(o, u, ApplyNew(o, u))
  {
  }

  /** Main result: the machine takes a new update exactly when the table says so, and the order is then what the table
      says; its position moves by what was filled. What it refuses leaves the order. */
  lemma {:induction false} MachineIsTheTable(o: Order, u: Evidence)
    requires 0 < o.originalQuantity && 0 < o.effectiveQuantity && o.filled <= o.effectiveQuantity && New(o, u)
    ensures var t := ApplyOrderUpdate(o, u);
            && (t.error.None? <==> Taken(o, u))
            && (Taken(o, u) ==>
                  && Becomes(o, u, t.order) && t.applied
                  && t.positionDelta == (t.order.filled - o.filled) * (if o.side == Buy then 1 else -1))
            && (!Taken(o, u) ==> t.order == o && t.positionDelta == 0)
  {
    if u.updateId != "" {
      NewIsNotFound(o.evidence, u.updateId);
    }
    hide FindEvidence, ApplyNew, Taken, Becomes;
    match u.kind {
      case SubmissionStartedEvent => SubmissionIsTabled(o, u);
      case BrokerAcknowledged => SubmissionIsTabled(o, u);
      case BrokerRejected => SubmissionIsTabled(o, u);
      case FillUpdate => FillIsNew(o, u);
      case ModifyRequested => ModificationIsTabled(o, u);
      case ModifyAccepted => ModificationIsTabled(o, u);
      case ModifyRejected => ModificationIsTabled(o, u);
      case CancelRequested => CancellationIsTabled(o, u);
      case CancelAccepted => CancellationIsTabled(o, u);
      case CancelRejected => CancellationIsTabled(o, u);
      case SubmissionAmbiguous => CancellationIsTabled(o, u);
      case ReconcileWorking => ReconciliationIsTabled(o, u);
      case ReconcileCancelled => ReconciliationIsTabled(o, u);
      case ReconcileRejected => ReconciliationIsTabled(o, u);
    }
  }

  lemma FillIsNew(o: Order, u: Evidence)
    requires u.kind.FillUpdate? && o.filled <= o.effectiveQuantity
    ensures Tabled(o, u, ApplyNew(o, u))
  {
    FillIsTabled(o, u);
    hide ApplyFill, Tabled;
  }
}
