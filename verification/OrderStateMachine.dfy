/**
 The order state machine: one pure step, `ApplyOrderUpdate`, and what holds of every run of it.

 The evidence fingerprint is a digest of every field of an update except its id. It is modelled by
 those fields themselves, that is, by an injective digest.
*/
module OrderStateMachine {
  import opened Base

  datatype Side = Buy | Sell

  datatype OrderState =
    | Prepared | SubmissionStarted | Acknowledged | PartiallyFilled | AmbiguousSubmission
    | ReconciliationRequired | Filled | Cancelled | Rejected

  datatype PendingMutation = NoMutation | ModifyPending | CancelPending

  datatype EventKind =
    | SubmissionStartedEvent | BrokerAcknowledged | BrokerRejected | FillUpdate
    | ModifyRequested | ModifyAccepted | ModifyRejected
    | CancelRequested | CancelAccepted | CancelRejected
    | SubmissionAmbiguous | ReconcileWorking | ReconcileCancelled | ReconcileRejected

  datatype Evidence = Evidence(
    kind: EventKind,
    updateId: string,
    brokerOrderId: Option<string>,
    cumulativeFilled: Option<uint64>,
    acceptedQuantity: Option<uint64>,
    acceptedLimitPrice: Option<uint64>)
  {
    function Fingerprint(): Fingerprint {
      Digest(kind, brokerOrderId, cumulativeFilled, acceptedQuantity, acceptedLimitPrice)
    }
  }

  /** Evidence that carries its id alone. */
  function Plain(kind: EventKind, updateId: string): Evidence {
    Evidence(kind, updateId, None, None, None, None)
  }

  /** Evidence with the terms of a modification. */
  function Terms(kind: EventKind, updateId: string, quantity: uint64, limitPrice: uint64): Evidence {
    Evidence(kind, updateId, None, None, Some(quantity), Some(limitPrice))
  }

  datatype Fingerprint = Digest(
    kind: EventKind,
    brokerOrderId: Option<string>,
    cumulativeFilled: Option<uint64>,
    acceptedQuantity: Option<uint64>,
    acceptedLimitPrice: Option<uint64>)

  datatype AppliedEvidence = AppliedEvidence(updateId: string, fingerprint: Fingerprint)

  datatype Order = Order(
    orderId: string,
    instrument: string,
    side: Side,
    originalQuantity: uint64,
    effectiveQuantity: uint64,
    limitPrice: uint64,
    filled: uint64,
    state: OrderState,
    pending: PendingMutation,
    pendingQuantity: Option<uint64>,
    pendingLimitPrice: Option<uint64>,
    cancelWasRequested: bool,
    brokerOrderId: Option<string>,
    evidence: seq<AppliedEvidence>)
  {
    function WorkingQuantity(): uint64 {
      if filled >= effectiveQuantity then 0 else effectiveQuantity - filled
    }
  }

  /** The machine's refusal codes. */
  datatype Refusal =
    | CancelNotAvailable | ConflictingDuplicateUpdate | ContradictoryRejection | FillExceedsQuantity
    | FillRegression | FillRequiresWorkingOrder | IllegalTransition | InvalidAggregate
    | InvalidModifyAck | InvalidModifyTerms | InvalidReconciliation | MissingBrokerOrderId
    | ModifyNotAvailable | PositionOverflow | ReconciliationNotRequired | UnsolicitedCancelAck

  datatype Transition = Transition(
    order: Order, applied: bool, positionDelta: int, error: Option<Refusal>, incident: bool)

  predicate Terminal(state: OrderState) {
    state.Filled? || state.Cancelled? || state.Rejected?
  }

  predicate Working(state: OrderState) {
    state.Acknowledged? || state.PartiallyFilled?
  }

  function WorkingState(order: Order): OrderState {
    if order.filled == 0 then Acknowledged else PartiallyFilled
  }

  function Refuse(current: Order, code: Refusal, incident: bool): Transition {
    Transition(current, false, 0, Some(code), incident)
  }

  function ApplyEvidence(next: Order, update: Evidence, delta: int): Transition {
    var recorded := if update.updateId == "" then next
                    else next.(evidence := next.evidence + [AppliedEvidence(update.updateId, update.Fingerprint())]);
    Transition(recorded, true, delta, None, false)
  }

  function FindEvidence(evidence: seq<AppliedEvidence>, updateId: string): Option<Fingerprint> {
    if evidence == [] then None
    else if evidence[0].updateId == updateId then Some(evidence[0].fingerprint)
    else FindEvidence(evidence[1..], updateId)
  }

  function ClearPending(order: Order): Order {
    order.(pending := NoMutation, pendingQuantity := None, pendingLimitPrice := None)
  }

  function SignedDelta(side: Side, quantity: int): int {
    if side.Buy? then quantity else -quantity
  }

  function SettleWorking(order: Order): Order {
    order.(state := if order.filled == order.effectiveQuantity then Filled else WorkingState(order))
  }

  function ApplyOrderUpdate(current: Order, update: Evidence): Transition {
    if current.originalQuantity == 0 || current.effectiveQuantity == 0
       || current.filled > current.effectiveQuantity then
      Refuse(current, InvalidAggregate, true)
    else
      var existing := if update.updateId == "" then None else FindEvidence(current.evidence, update.updateId);
      match existing
      case Some(fingerprint) =>
        if fingerprint == update.Fingerprint() then Transition(current, false, 0, None, false)
        else Refuse(current, ConflictingDuplicateUpdate, true)
      case None => ApplyNew(current, update)
  }

  /** The step for an update whose id has not been applied before. */
  function ApplyNew(current: Order, update: Evidence): Transition {
    match update.kind
    case SubmissionStartedEvent => ApplySubmissionStarted(current, update)
    case BrokerAcknowledged => ApplyAcknowledged(current, update)
    case BrokerRejected => ApplyBrokerRejected(current, update)
    case FillUpdate => ApplyFill(current, update)
    case ModifyRequested => ApplyModifyRequested(current, update)
    case ModifyAccepted => ApplyModifyAccepted(current, update)
    case ModifyRejected => ApplyModifyRejected(current, update)
    case CancelRequested => ApplyCancelRequested(current, update)
    case CancelAccepted => ApplyCancelAccepted(current, update)
    case CancelRejected => ApplyCancelRejected(current, update)
    case SubmissionAmbiguous => ApplyAmbiguous(current, update)
    case ReconcileWorking => ApplyReconcileWorking(current, update)
    case ReconcileCancelled => ApplyReconcileTerminal(current, update, Cancelled)
    case ReconcileRejected => ApplyReconcileTerminal(current, update, Rejected)
  }

  function ApplySubmissionStarted(current: Order, update: Evidence): Transition {
    if current.state != Prepared then Refuse(current, IllegalTransition, false)
    else ApplyEvidence(current.(state := SubmissionStarted), update, 0)
  }

  function ApplyAcknowledged(current: Order, update: Evidence): Transition {
    if current.state != SubmissionStarted then
      Refuse(current, IllegalTransition, Terminal(current.state))
    else if update.brokerOrderId.None? || update.brokerOrderId.value == "" then
      Refuse(current, MissingBrokerOrderId, false)
    else
      ApplyEvidence(current.(brokerOrderId := update.brokerOrderId, state := WorkingState(current)), update, 0)
  }

  function ApplyBrokerRejected(current: Order, update: Evidence): Transition {
    if current.state == Rejected then ApplyEvidence(current, update, 0)
    else if current.state != Prepared && current.state != SubmissionStarted then
      Refuse(current, ContradictoryRejection, true)
    else ApplyEvidence(current.(state := Rejected), update, 0)
  }

  function ApplyModifyRequested(current: Order, update: Evidence): Transition {
    if !Working(current.state) || current.pending != NoMutation then
      Refuse(current, ModifyNotAvailable, false)
    else if !ValidModifyTerms(current, update) then Refuse(current, InvalidModifyTerms, false)
    else
      ApplyEvidence(current.(pending := ModifyPending, pendingQuantity := update.acceptedQuantity,
                             pendingLimitPrice := update.acceptedLimitPrice), update, 0)
  }

  function ApplyModifyAccepted(current: Order, update: Evidence): Transition {
    if current.pending != ModifyPending || update.acceptedQuantity != current.pendingQuantity
       || update.acceptedLimitPrice != current.pendingLimitPrice || !ValidModifyTerms(current, update) then
      Refuse(current, InvalidModifyAck, true)
    else
      var next := ClearPending(current.(effectiveQuantity := update.acceptedQuantity.value,
                                        limitPrice := update.acceptedLimitPrice.value));
      ApplyEvidence(SettleWorking(next), update, 0)
  }

  function ApplyModifyRejected(current: Order, update: Evidence): Transition {
    if current.pending != ModifyPending then Refuse(current, IllegalTransition, false)
    else ApplyEvidence(ClearPending(current).(state := WorkingState(current)), update, 0)
  }

  function ApplyCancelRequested(current: Order, update: Evidence): Transition {
    if !Working(current.state) || current.pending != NoMutation then
      Refuse(current, CancelNotAvailable, false)
    else ApplyEvidence(current.(pending := CancelPending, cancelWasRequested := true), update, 0)
  }

  function ApplyCancelAccepted(current: Order, update: Evidence): Transition {
    if current.state == Filled || current.state == Cancelled then
      if !current.cancelWasRequested then Refuse(current, UnsolicitedCancelAck, true)
      else ApplyEvidence(current, update, 0)
    else if current.pending != CancelPending then
      if Working(current.state) then Refuse(current, UnsolicitedCancelAck, true)
      else Refuse(current, IllegalTransition, Terminal(current.state))
    else ApplyEvidence(current.(pending := NoMutation, state := Cancelled), update, 0)
  }

  function ApplyCancelRejected(current: Order, update: Evidence): Transition {
    if current.pending != CancelPending then Refuse(current, IllegalTransition, false)
    else ApplyEvidence(current.(pending := NoMutation, state := ReconciliationRequired), update, 0)
  }

  function ApplyAmbiguous(current: Order, update: Evidence): Transition {
    if current.state != SubmissionStarted && current.pending == NoMutation then
      Refuse(current, IllegalTransition, false)
    else
      ApplyEvidence(current.(state := if current.state == SubmissionStarted then AmbiguousSubmission
                                      else ReconciliationRequired), update, 0)
  }

  predicate ValidModifyTerms(current: Order, update: Evidence) {
    && update.acceptedQuantity.Some? && update.acceptedLimitPrice.Some?
    && update.acceptedQuantity.value >= current.filled
    && update.acceptedQuantity.value != 0 && update.acceptedLimitPrice.value != 0
  }

  function ApplyFill(current: Order, update: Evidence): Transition {
    if !Working(current.state) then
      if current.state == Filled && update.cumulativeFilled == Some(current.filled) then
        ApplyEvidence(current, update, 0)
      else Refuse(current, FillRequiresWorkingOrder, true)
    else if update.cumulativeFilled.None? || update.cumulativeFilled.value < current.filled then
      Refuse(current, FillRegression, true)
    else if update.cumulativeFilled.value > current.effectiveQuantity then
      Refuse(current, FillExceedsQuantity, true)
    else
      var delta := update.cumulativeFilled.value - current.filled;
      if delta == 0 then ApplyEvidence(current, update, 0)
      else if delta > INT64_MAX then Refuse(current, PositionOverflow, true)
      else
        var next := current.(filled := update.cumulativeFilled.value);
        var settled := if next.filled == next.effectiveQuantity then ClearPending(next.(state := Filled))
                       else next.(state := PartiallyFilled);
        ApplyEvidence(settled, update, SignedDelta(current.side, delta))
  }

  function ApplyReconcileWorking(current: Order, update: Evidence): Transition {
    if current.state != AmbiguousSubmission && current.state != ReconciliationRequired then
      Refuse(current, ReconciliationNotRequired, false)
    else if update.brokerOrderId.None? || update.cumulativeFilled.None?
            || update.cumulativeFilled.value < current.filled
            || update.cumulativeFilled.value > current.effectiveQuantity then
      Refuse(current, InvalidReconciliation, true)
    else
      var delta := update.cumulativeFilled.value - current.filled;
      if delta > INT64_MAX then Refuse(current, PositionOverflow, true)
      else
        var next := ClearPending(current.(brokerOrderId := update.brokerOrderId,
                                          filled := update.cumulativeFilled.value));
        ApplyEvidence(SettleWorking(next), update, SignedDelta(current.side, delta))
  }

  function ApplyReconcileTerminal(current: Order, update: Evidence, target: OrderState): Transition {
    if current.state == target then ApplyEvidence(current, update, 0)
    else if current.state != AmbiguousSubmission && current.state != ReconciliationRequired then
      Refuse(current, ReconciliationNotRequired, false)
    else ApplyEvidence(current.(pending := NoMutation, state := target), update, 0)
  }

  // ---------------------------------------------------------------- invariants of a run

  /** What the terms of every order reachable from a prepared one satisfy. */
  ghost predicate ValidTerms(o: Order) {
    && 0 < o.originalQuantity && 0 < o.effectiveQuantity && o.filled <= o.effectiveQuantity
    && (o.state == Filled <==> o.filled == o.effectiveQuantity)
    && ((o.state.Prepared? || o.state.SubmissionStarted? || o.state.Acknowledged? || o.state.AmbiguousSubmission?)
        ==> o.filled == 0)
    && (o.state == PartiallyFilled ==> 0 < o.filled)
    && (o.pending != NoMutation ==> Working(o.state) || o.state.ReconciliationRequired?)
    && (!Terminal(o.state) ==>
          && (o.pending == ModifyPending <==> o.pendingQuantity.Some?)
          && (o.pending == ModifyPending <==> o.pendingLimitPrice.Some?))
  }

  ghost predicate Valid(o: Order) {
    ValidTerms(o) && UniqueEvidence(o.evidence)
  }

  ghost predicate UniqueEvidence(evidence: seq<AppliedEvidence>) {
    && (forall i :: 0 <= i < |evidence| ==> evidence[i].updateId != "")
    && (forall i, j :: 0 <= i < j < |evidence| ==> evidence[i].updateId != evidence[j].updateId)
  }

  predicate IsPrepared(o: Order) {
    && o.state == Prepared && 0 < o.originalQuantity == o.effectiveQuantity && o.filled == 0
    && o.pending == NoMutation && o.pendingQuantity.None? && o.pendingLimitPrice.None?
    && o.evidence == []
  }

  function Run(o: Order, updates: seq<Evidence>): (Order, int)
    decreases |updates|
  {
    if updates == [] then (o, 0)
    else
      var step := ApplyOrderUpdate(o, updates[0]);
      var (final, delta) := Run(step.order, updates[1..]);
      (final, step.positionDelta + delta)
  }

  lemma {:induction false} FindEvidenceIsLookup(evidence: seq<AppliedEvidence>, id: string)
    ensures FindEvidence(evidence, id).None? <==> forall i :: 0 <= i < |evidence| ==> evidence[i].updateId != id
    ensures UniqueEvidence(evidence) ==>
              forall i :: 0 <= i < |evidence| && evidence[i].updateId == id ==>
                FindEvidence(evidence, id) == Some(evidence[i].fingerprint)
  {
    if evidence != [] {
      var tail := evidence[1..];
      FindEvidenceIsLookup(tail, id);
      assert forall i :: 0 <= i < |tail| ==> tail[i] == evidence[i + 1];
      assert forall i :: 0 < i < |evidence| ==> evidence[i] == tail[i - 1];
      assert UniqueEvidence(evidence) ==> UniqueEvidence(tail);
    }
  }

  lemma {:induction false} FindEvidenceAfterAppend(evidence: seq<AppliedEvidence>, item: AppliedEvidence, id: string)
    ensures FindEvidence(evidence + [item], id)
            == if FindEvidence(evidence, id).Some? then FindEvidence(evidence, id)
               else if item.updateId == id then Some(item.fingerprint) else None
  {
    if evidence == [] {
      assert evidence + [item] == [item];
    } else {
      assert (evidence + [item])[1..] == evidence[1..] + [item];
      FindEvidenceAfterAppend(evidence[1..], item, id);
    }
  }

  /** What a new update may do to everything but the evidence list. */
  ghost predicate GoodStep(o: Order, r: Transition) {
    && ValidTerms(r.order)
    && r.order.side == o.side && r.order.originalQuantity == o.originalQuantity
    && r.order.orderId == o.orderId && r.order.instrument == o.instrument
    && o.filled <= r.order.filled
    && r.positionDelta == SignedDelta(o.side, r.order.filled - o.filled)
    && (r.error.Some? ==> r.order == o && !r.applied)
  }

  /** An update is either refused, or accepted and recorded under its id. */
  ghost predicate RecordsEvidence(o: Order, u: Evidence, r: Transition) {
    r.order.evidence == if r.error.None? && u.updateId != ""
                        then o.evidence + [AppliedEvidence(u.updateId, u.Fingerprint())]
                        else o.evidence
  }

  lemma {:induction false} FillIsGood(o: Order, u: Evidence)
    requires ValidTerms(o)
    ensures GoodStep(o, ApplyFill(o, u)) && RecordsEvidence(o, u, ApplyFill(o, u))
  {
  }

  lemma {:induction false} ReconcileWorkingIsGood(o: Order, u: Evidence)
    requires ValidTerms(o)
    ensures GoodStep(o, ApplyReconcileWorking(o, u)) && RecordsEvidence(o, u, ApplyReconcileWorking(o, u))
  {
  }

  lemma {:induction false} ReconcileTerminalIsGood(o: Order, u: Evidence, target: OrderState)
    requires ValidTerms(o) && (target.Cancelled? || target.Rejected?)
    ensures GoodStep(o, ApplyReconcileTerminal(o, u, target))
    ensures RecordsEvidence(o, u, ApplyReconcileTerminal(o, u, target))
  {
  }

  lemma {:induction false} ModificationIsGood(o: Order, u: Evidence)
    requires ValidTerms(o)
    requires u.kind.ModifyRequested? || u.kind.ModifyAccepted? || u.kind.ModifyRejected?
    ensures GoodStep(o, ApplyNew(o, u)) && RecordsEvidence(o, u, ApplyNew(o, u))
  {
  }

  lemma {:induction false} CancellationIsGood(o: Order, u: Evidence)
    requires ValidTerms(o)
    requires u.kind.CancelRequested? || u.kind.CancelAccepted? || u.kind.CancelRejected?
    ensures GoodStep(o, ApplyNew(o, u)) && RecordsEvidence(o, u, ApplyNew(o, u))
  {
  }

  lemma {:induction false} SubmissionIsGood(o: Order, u: Evidence)
    requires ValidTerms(o)
    requires u.kind.SubmissionStartedEvent? || u.kind.BrokerAcknowledged? || u.kind.BrokerRejected?
             || u.kind.SubmissionAmbiguous?
    ensures GoodStep(o, ApplyNew(o, u)) && RecordsEvidence(o, u, ApplyNew(o, u))
  {
  }

  lemma {:induction false} NewStepIsGood(o: Order, u: Evidence)
    requires ValidTerms(o)
    ensures GoodStep(o, ApplyNew(o, u)) && RecordsEvidence(o, u, ApplyNew(o, u))
  {
    hide GoodStep, RecordsEvidence, ApplyFill, ApplyReconcileWorking, ApplyReconcileTerminal,
         ApplyModifyRequested, ApplyModifyAccepted, ApplyModifyRejected, ApplyCancelRequested,
         ApplyCancelAccepted, ApplyCancelRejected, ApplySubmissionStarted, ApplyAcknowledged,
         ApplyBrokerRejected, ApplyAmbiguous;
    match u.kind
    case FillUpdate => FillIsGood(o, u);
    case ReconcileWorking => ReconcileWorkingIsGood(o, u);
    case ReconcileCancelled => ReconcileTerminalIsGood(o, u, Cancelled);
    case ReconcileRejected => ReconcileTerminalIsGood(o, u, Rejected);
    case ModifyRequested => ModificationIsGood(o, u);
    case ModifyAccepted => ModificationIsGood(o, u);
    case ModifyRejected => ModificationIsGood(o, u);
    case CancelRequested => CancellationIsGood(o, u);
    case CancelAccepted => CancellationIsGood(o, u);
    case CancelRejected => CancellationIsGood(o, u);
    case _ => SubmissionIsGood(o, u);
  }

  /** One step keeps the invariant, never loses a fill, and reports exactly the fill it made. */
  lemma {:induction false} StepKeepsInvariant(o: Order, u: Evidence)
    requires Valid(o)
    ensures Valid(ApplyOrderUpdate(o, u).order) && GoodStep(o, ApplyOrderUpdate(o, u))
  {
    hide ApplyNew;
    FindEvidenceIsLookup(o.evidence, u.updateId);
    NewStepIsGood(o, u);
  }

  /** Terminal states absorb: only the evidence list can still grow. */
  lemma {:induction false} TerminalStepIsFrozen(o: Order, u: Evidence)
    requires Valid(o) && Terminal(o.state)
    ensures ApplyOrderUpdate(o, u).order.(evidence := o.evidence) == o
    ensures ApplyOrderUpdate(o, u).positionDelta == 0
  {
  }

  lemma {:induction false} RunKeepsInvariant(o: Order, updates: seq<Evidence>)
    requires Valid(o)
    ensures var (final, delta) := Run(o, updates);
            && Valid(final) && final.side == o.side
            && o.filled <= final.filled
            && delta == SignedDelta(o.side, final.filled - o.filled)
    decreases |updates|
  {
    hide ApplyOrderUpdate, ValidTerms, UniqueEvidence;
    if updates != [] {
      StepKeepsInvariant(o, updates[0]);
      RunKeepsInvariant(ApplyOrderUpdate(o, updates[0]).order, updates[1..]);
    }
  }

  lemma {:induction false} TerminalRunIsFrozen(o: Order, updates: seq<Evidence>)
    requires Valid(o) && Terminal(o.state)
    ensures Run(o, updates).0.(evidence := o.evidence) == o
    ensures Run(o, updates).1 == 0
    decreases |updates|
  {
    hide ApplyOrderUpdate, ValidTerms, UniqueEvidence;
    if updates != [] {
      StepKeepsInvariant(o, updates[0]);
      TerminalStepIsFrozen(o, updates[0]);
      TerminalRunIsFrozen(ApplyOrderUpdate(o, updates[0]).order, updates[1..]);
    }
  }

  /** Main result: everything a run from a freshly prepared order can reach. */
  lemma {:induction false} RunFromPrepared(o: Order, updates: seq<Evidence>, more: seq<Evidence>)
    requires IsPrepared(o)
    ensures var (final, delta) := Run(o, updates);
            && final.filled <= final.effectiveQuantity
            && (final.state == Filled <==> final.filled == final.effectiveQuantity)
            && (final.state == Acknowledged ==> final.filled == 0)
            && (final.pending != NoMutation ==>
                  Working(final.state) || final.state.ReconciliationRequired?)
            && delta == SignedDelta(o.side, final.filled)
    ensures var early, late := Run(o, updates).0, Run(o, updates + more).0;
            && early.filled <= late.filled
            && (Terminal(early.state) ==> late.(evidence := early.evidence) == early)
  {
    hide ApplyOrderUpdate;
    RunKeepsInvariant(o, updates);
    RunConcat(o, updates, more);
    RunKeepsInvariant(Run(o, updates).0, more);
    if Terminal(Run(o, updates).0.state) {
      TerminalRunIsFrozen(Run(o, updates).0, more);
    }
  }

  lemma {:induction false} RunConcat(o: Order, a: seq<Evidence>, b: seq<Evidence>)
    ensures var (mid, d1) := Run(o, a);
            var (final, d2) := Run(mid, b);
            Run(o, a + b) == (final, d1 + d2)
    decreases |a|
  {
    hide ApplyOrderUpdate;
    if a == [] {
      assert a + b == b;
    } else {
      assert (a + b)[1..] == a[1..] + b;
      RunConcat(ApplyOrderUpdate(o, a[0]).order, a[1..], b);
    }
  }

  // ---------------------------------------------------------------- idempotence over runs

  /** A step keeps what is known, and remembers an update it accepts under its id. */
  lemma {:induction false} StepRemembers(o: Order, u: Evidence, id: string)
    requires ValidTerms(o)
    ensures FindEvidence(o.evidence, id).Some? ==>
              FindEvidence(ApplyOrderUpdate(o, u).order.evidence, id) == FindEvidence(o.evidence, id)
    ensures u.updateId != "" && ApplyOrderUpdate(o, u).error.None? ==>
              FindEvidence(ApplyOrderUpdate(o, u).order.evidence, u.updateId) == Some(u.Fingerprint())
  {
    hide ApplyNew;
    NewStepIsGood(o, u);
    FindEvidenceAfterAppend(o.evidence, AppliedEvidence(u.updateId, u.Fingerprint()), id);
    FindEvidenceAfterAppend(o.evidence, AppliedEvidence(u.updateId, u.Fingerprint()), u.updateId);
  }

  lemma {:induction false} EvidenceIsNeverForgotten(o: Order, updates: seq<Evidence>, id: string)
    requires Valid(o) && FindEvidence(o.evidence, id).Some?
    ensures FindEvidence(Run(o, updates).0.evidence, id) == FindEvidence(o.evidence, id)
    decreases |updates|
  {
    hide ApplyOrderUpdate, ValidTerms, UniqueEvidence, FindEvidence;
    if updates != [] {
      StepRemembers(o, updates[0], id);
      StepKeepsInvariant(o, updates[0]);
      EvidenceIsNeverForgotten(ApplyOrderUpdate(o, updates[0]).order, updates[1..], id);
    }
  }

  lemma {:induction false} RunOne(o: Order, u: Evidence)
    ensures Run(o, [u]) == (ApplyOrderUpdate(o, u).order, ApplyOrderUpdate(o, u).positionDelta)
  {
    hide ApplyOrderUpdate;
    assert [u][1..] == [];
  }

  /** What a known id leads to, whatever the order has become. */
  lemma {:induction false} KnownIdIsIgnored(o: Order, u: Evidence)
    requires Valid(o) && u.updateId != "" && FindEvidence(o.evidence, u.updateId).Some?
    ensures var r := ApplyOrderUpdate(o, u);
            && !r.applied && r.positionDelta == 0 && r.order == o
            && r.error == (if FindEvidence(o.evidence, u.updateId).value == u.Fingerprint() then None
                           else Some(ConflictingDuplicateUpdate))
  {
  }

  /** Main result: once `u` has been accepted, another message under the same id, inserted anywhere
      later, changes neither the order nor the total position change; it is silently ignored when it
      carries the same content and refused as an incident when it does not. */
  lemma {:induction false} LaterDuplicateChangesNothing(o: Order, before: seq<Evidence>, u: Evidence, between: seq<Evidence>,
                                     copy: Evidence, after: seq<Evidence>)
    requires Valid(o)
    requires u.updateId != "" && copy.updateId == u.updateId
    requires ApplyOrderUpdate(Run(o, before).0, u).error.None?
    ensures Run(o, before + [u] + between + [copy] + after) == Run(o, before + [u] + between + after)
    ensures var r := ApplyOrderUpdate(Run(o, before + [u] + between).0, copy);
            && !r.applied && r.positionDelta == 0
            && r.order == Run(o, before + [u] + between).0
            && r.error == (if copy.Fingerprint() == u.Fingerprint() then None
                           else Some(ConflictingDuplicateUpdate))
  {
    hide ApplyOrderUpdate, ValidTerms, UniqueEvidence, FindEvidence, Run;
    var start := Run(o, before).0;
    RunKeepsInvariant(o, before);
    StepRemembers(start, u, u.updateId);
    StepKeepsInvariant(start, u);
    RunOne(start, u);
    RunConcat(o, before, [u]);
    RunConcat(o, before + [u], between);
    EvidenceIsNeverForgotten(ApplyOrderUpdate(start, u).order, between, u.updateId);
    var head := before + [u] + between;
    RunKeepsInvariant(o, head);
    KnownIdIsIgnored(Run(o, head).0, copy);
    RunOne(Run(o, head).0, copy);
    RunConcat(o, head, [copy]);
    RunConcat(o, head + [copy], after);
    RunConcat(o, head, after);
  }

  // ---------------------------------------------------------------- pairs of steps

  /** The update is new to the order. */
  predicate Fresh(o: Order, u: Evidence) {
    u.updateId == "" || FindEvidence(o.evidence, u.updateId).None?
  }

  /** A modification request decides the outcome of the broker's answer: an acceptance under a new id
      is applied exactly when it names the requested terms, which are then the order's terms, and a
      rejection restores the order as it was before the request. */
  lemma {:induction false} ModifyIsTakenOrUndone(o: Order, request: Evidence, answer: Evidence)
    requires Valid(o) && request.kind.ModifyRequested? && ApplyOrderUpdate(o, request).applied
    requires Fresh(ApplyOrderUpdate(o, request).order, answer)
    ensures var r := ApplyOrderUpdate(ApplyOrderUpdate(o, request).order, answer);
            && (answer.kind.ModifyRejected? ==> r.applied && r.order.(evidence := o.evidence) == o)
            && (answer.kind.ModifyAccepted? ==>
                  && (r.applied <==> && answer.acceptedQuantity == request.acceptedQuantity
                                     && answer.acceptedLimitPrice == request.acceptedLimitPrice)
                  && (r.applied ==>
                        r.order.(evidence := o.evidence)
                        == SettleWorking(o.(effectiveQuantity := request.acceptedQuantity.value,
                                            limitPrice := request.acceptedLimitPrice.value))))
  {
  }

  /** A cancellation that is requested and then confirmed under a new id ends the order with the
      quantity it had filled, and only its state and its cancellation flag differ. */
  lemma {:induction false} CancelIsConfirmed(o: Order, request: Evidence, answer: Evidence)
    requires Valid(o) && request.kind.CancelRequested? && ApplyOrderUpdate(o, request).applied
    requires answer.kind.CancelAccepted? && Fresh(ApplyOrderUpdate(o, request).order, answer)
    ensures var r := ApplyOrderUpdate(ApplyOrderUpdate(o, request).order, answer);
            r.applied && r.order.(evidence := o.evidence) == o.(state := Cancelled, cancelWasRequested := true)
  {
  }
}
