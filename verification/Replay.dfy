/**
 Replay: the state the ledger's events reconstruct, as a fold over typed events.

 A payload is its typed fields. `update_id` and `source_*` fields that several events share are kept
 together in `Source`, which an event without a source fingerprint does not have.
*/
module Replay {
  import opened Base
  import OSM = OrderStateMachine

  datatype Source = Source(sequence: uint64, fingerprint: string, updateId: string)

  datatype Authoritative = Working(brokerOrderId: string, cumulative: uint64) | CancelledThere | RejectedThere

  datatype Body =
    | IntentReceived(fingerprint: string, strategyId: string, strategyRunId: string)
    | MappingValidated(token: string)
    | MappingRefused
    | RiskApproved(decision: string)
    | RiskRejected(decision: string)
    | SubmissionStarted(instrument: string, side: OSM.Side, quantity: uint64, limitPrice: uint64)
    | BrokerAcknowledged(updateId: string, brokerOrderId: string)
    | Filled(complete: bool, updateId: string, cumulative: uint64)
    | CancelRequested(updateId: string)
    | ModifyRequested(updateId: string, quantity: uint64, limitPrice: uint64)
    | Modified(updateId: string, quantity: uint64, limitPrice: uint64)
    | ModifyRejected(updateId: string)
    | CancelRejected(updateId: string)
    | Cancelled(updateId: string)
    | BrokerRejected(updateId: string)
    | AmbiguousSubmission(updateId: string)
    | ReconciliationRequired
    | ReconciliationCompleted(updateId: string, authoritative: Authoritative)
    | SafetyStop
    | SessionStarted
    | SessionStopping
    | SessionStopped
    | LedgerRepairRecorded
    | MarketObservationAccepted

  datatype Event = Event(
    eventId: string, timestamp: int64, intentId: Option<string>, orderId: Option<string>, source: Option<Source>, body: Body)

  datatype Disposition =
    | Received | Mapped | NotMapped | Approved | Declined | Submitted | Acknowledged | PartlyFilled | Complete
    | CancelAsked | ModifyAsked | ModifyDone | ModifyRefused | CancelRefused | CancelDone | Refused | Ambiguous
    | NeedsReconciliation | Settled(state: OSM.OrderState)

  datatype Outcome = Outcome(body: Body, fingerprint: string, timestamp: int64)

  datatype IntentState = IntentState(
    fingerprint: string, firstSequence: nat, disposition: Disposition, orderId: Option<string>, ambiguous: bool,
    strategyId: string, strategyRunId: string, decision: Option<string>, outcome: Option<Outcome>)

  datatype SessionPhase = UnknownPhase | Started | Stopping | Stopped

  type Intents = map<string, IntentState>

  /** Orders, their route tokens, and the positions of instruments and of tokens. */
  datatype Books = Books(
    orders: map<string, OSM.Order>,
    tokens: map<string, string>,
    positions: map<string, int64>,
    routePositions: map<string, int64>)

  datatype State = State(
    intents: Intents,
    books: Books,
    lastSequence: uint64,
    fingerprints: map<string, string>,
    attempts: seq<int64>,
    reconciliationRequired: bool,
    globalReconciliationRequired: bool,
    safetyStopped: bool,
    phase: SessionPhase)

  const EMPTY: State :=
    State(map[], Books(map[], map[], map[], map[]), 0, map[], [], false, false, false, UnknownPhase)

  datatype ReplayError =
    | FingerprintConflict | SequenceFault | MissingIntentId | MissingOrderId | MissingField | UnknownIntent | UnknownOrder
    | IdempotencyConflict | RouteTokenConflict | RiskDecisionConflict | DuplicateOrder | PositionOverflow
    | OrderRefused(code: OSM.Refusal)

  // ---------------------------------------------------------------- parts of a step

  function RecordSource(s: State, e: Event): Result<State, ReplayError> {
    match e.source
    case None => Ok(s)
    case Some(source) =>
      if source.updateId in s.fingerprints && s.fingerprints[source.updateId] != source.fingerprint then
        Err(FingerprintConflict)
      else if 0 != source.sequence <= s.lastSequence then Err(SequenceFault)
      else
        Ok(s.(fingerprints := s.fingerprints[source.updateId := source.fingerprint],
              lastSequence := if source.sequence == 0 then s.lastSequence else source.sequence))
  }

  /** The event's intent is told what became of it. */
  function Told(intents: Intents, e: Event, disposition: Disposition, ambiguous: bool): Result<Intents, ReplayError> {
    match e.intentId
    case None => Ok(intents)
    case Some(id) =>
      if id !in intents then Err(UnknownIntent)
      else
        var intent := intents[id];
        Ok(intents[id := intent.(disposition := disposition, ambiguous := ambiguous,
                                 orderId := if e.orderId.Some? then e.orderId else intent.orderId)])
  }

  function Decided(intents: Intents, e: Event, decision: string): Result<Intents, ReplayError> {
    match e.intentId
    case None => Err(MissingIntentId)
    case Some(id) =>
      if id !in intents then Err(UnknownIntent)
      else if intents[id].decision.Some? && intents[id].decision != Some(decision) then Err(RiskDecisionConflict)
      else Ok(intents[id := intents[id].(decision := Some(decision))])
  }

  /** The first broker outcome of an intent is kept. */
  function WithOutcome(intents: Intents, e: Event): Result<Intents, ReplayError> {
    match (e.intentId, e.source)
    case (None, _) => Err(MissingIntentId)
    case (Some(id), None) => if id !in intents then Err(UnknownIntent) else Err(MissingField)
    case (Some(id), Some(source)) =>
      if id !in intents then Err(UnknownIntent)
      else if intents[id].outcome.Some? then Ok(intents)
      else Ok(intents[id := intents[id].(outcome := Some(Outcome(e.body, source.fingerprint, e.timestamp)))])
  }

  function UpdateIntent(s: State, e: Event, disposition: Disposition, ambiguous: bool): Result<State, ReplayError> {
    var intents :- Told(s.intents, e, disposition, ambiguous);
    Ok(s.(intents := intents))
  }

  /** The books after the order of the event took `evidence`, and the position change. */
  datatype Applied = Applied(books: Books, delta: int, order: OSM.Order)

  function Apply(books: Books, e: Event, evidence: OSM.Evidence): Result<Applied, ReplayError> {
    match e.orderId
    case None => Err(MissingOrderId)
    case Some(id) =>
      if id !in books.orders then Err(UnknownOrder)
      else
        var step := OSM.ApplyOrderUpdate(books.orders[id], evidence);
        match step.error
        case Some(code) => Err(OrderRefused(code))
        case None => Ok(Applied(books.(orders := books.orders[id := step.order]), step.positionDelta, step.order))
  }

  function At(positions: map<string, int64>, key: string): int64 {
    if key in positions then positions[key] else 0
  }

  function AddChecked(positions: map<string, int64>, key: string, delta: int): Result<map<string, int64>, ReplayError> {
    var position := At(positions, key);
    if delta > 0 && position > INT64_MAX - delta then Err(PositionOverflow)
    else if delta < 0 && position < INT64_MIN - delta then Err(PositionOverflow)
    else Ok(positions[key := position + delta])
  }

  /** The fill's effect on the instrument's position and on that of the order's route. */
  function AddPosition(books: Books, e: Event, instrument: string, delta: int): Result<Books, ReplayError> {
    var positions :- AddChecked(books.positions, instrument, delta);
    if e.orderId.Some? && e.orderId.value in books.tokens then
      var routes :- AddChecked(books.routePositions, books.tokens[e.orderId.value], delta);
      Ok(books.(positions := positions, routePositions := routes))
    else Ok(books.(positions := positions))
  }

  // ---------------------------------------------------------------- one event

  function ReceivedIntents(intents: Intents, sequence: nat, e: Event): Result<Intents, ReplayError>
    requires e.body.IntentReceived?
  {
    match e.intentId
    case None => Err(MissingIntentId)
    case Some(id) =>
      if id in intents then
        if intents[id].fingerprint != e.body.fingerprint then Err(IdempotencyConflict) else Ok(intents)
      else
        Ok(intents[id := IntentState(e.body.fingerprint, sequence, Received, None, false,
                                     e.body.strategyId, e.body.strategyRunId, None, None)])
  }

  function ReplayReceived(s: State, sequence: nat, e: Event): Result<State, ReplayError>
    requires e.body.IntentReceived?
  {
    var intents :- ReceivedIntents(s.intents, sequence, e);
    Ok(s.(intents := intents))
  }

  function Routed(books: Books, e: Event): Result<Books, ReplayError>
    requires e.body.MappingValidated?
  {
    match e.orderId
    case None => Err(MissingOrderId)
    case Some(id) =>
      if id in books.tokens then
        if books.tokens[id] != e.body.token then Err(RouteTokenConflict) else Ok(books)
      else Ok(books.(tokens := books.tokens[id := e.body.token]))
  }

  function ReplayMapped(s: State, e: Event): Result<State, ReplayError>
    requires e.body.MappingValidated?
  {
    var intents :- Told(s.intents, e, Mapped, false);
    var books :- Routed(s.books, e);
    Ok(s.(intents := intents, books := books))
  }

  function Prepared(id: string, e: Event): OSM.Order
    requires e.body.SubmissionStarted?
  {
    OSM.Order(id, e.body.instrument, e.body.side, e.body.quantity, e.body.quantity, e.body.limitPrice, 0,
              OSM.Prepared, OSM.NoMutation, None, None, false, None, [])
  }

  /** An order starts prepared and takes the submission under the id of its event. */
  function Submit(books: Books, e: Event): Result<Books, ReplayError>
    requires e.body.SubmissionStarted?
  {
    match e.orderId
    case None => Err(MissingOrderId)
    case Some(id) =>
      var step := OSM.ApplyOrderUpdate(Prepared(id, e), OSM.Plain(OSM.SubmissionStartedEvent, e.eventId));
      if step.error.Some? then Err(OrderRefused(step.error.value))
      else if id in books.orders then Err(DuplicateOrder)
      else Ok(books.(orders := books.orders[id := step.order]))
  }

  function ReplaySubmission(s: State, e: Event): Result<State, ReplayError>
    requires e.body.SubmissionStarted?
  {
    var books :- Submit(s.books, e);
    var intents :- Told(s.intents, e, Submitted, false);
    Ok(s.(books := books, intents := intents, attempts := s.attempts + [e.timestamp]))
  }

  /** The evidence an event holds for its order, when it holds any. */
  function EvidenceOf(e: Event): Option<OSM.Evidence> {
    match e.body
    case BrokerAcknowledged(id, brokerOrderId) =>
      Some(OSM.Evidence(OSM.BrokerAcknowledged, id, Some(brokerOrderId), None, None, None))
    case Filled(_, id, cumulative) => Some(OSM.Evidence(OSM.FillUpdate, id, None, Some(cumulative), None, None))
    case CancelRequested(id) => Some(OSM.Plain(OSM.CancelRequested, id))
    case ModifyRequested(id, quantity, limitPrice) => Some(OSM.Terms(OSM.ModifyRequested, id, quantity, limitPrice))
    case Modified(id, quantity, limitPrice) => Some(OSM.Terms(OSM.ModifyAccepted, id, quantity, limitPrice))
    case ModifyRejected(id) => Some(OSM.Plain(OSM.ModifyRejected, id))
    case CancelRejected(id) => Some(OSM.Plain(OSM.CancelRejected, id))
    case Cancelled(id) => Some(OSM.Plain(OSM.CancelAccepted, id))
    case BrokerRejected(id) => Some(OSM.Plain(OSM.BrokerRejected, id))
    case AmbiguousSubmission(id) => Some(OSM.Plain(OSM.SubmissionAmbiguous, id))
    case ReconciliationCompleted(id, Working(brokerOrderId, cumulative)) =>
      Some(OSM.Evidence(OSM.ReconcileWorking, id, Some(brokerOrderId), Some(cumulative), None, None))
    case ReconciliationCompleted(id, CancelledThere) => Some(OSM.Plain(OSM.ReconcileCancelled, id))
    case ReconciliationCompleted(id, RejectedThere) => Some(OSM.Plain(OSM.ReconcileRejected, id))
    case _ => None
  }

  /** The disposition such an event gives its intent. */
  function DispositionOf(e: Event, order: OSM.Order): Disposition {
    match e.body
    case BrokerAcknowledged(_, _) => Acknowledged
    case Filled(complete, _, _) => if complete then Complete else PartlyFilled
    case CancelRequested(_) => CancelAsked
    case ModifyRequested(_, _, _) => ModifyAsked
    case Modified(_, _, _) => ModifyDone
    case ModifyRejected(_) => ModifyRefused
    case CancelRejected(_) => CancelRefused
    case Cancelled(_) => CancelDone
    case BrokerRejected(_) => Refused
    case AmbiguousSubmission(_) => Ambiguous
    case _ => Settled(order.state)
  }

  predicate IsOutcome(e: Event) {
    || e.body.BrokerAcknowledged? || e.body.Modified? || e.body.ModifyRejected? || e.body.CancelRejected?
    || e.body.Cancelled? || e.body.BrokerRejected? || e.body.AmbiguousSubmission?
  }

  predicate MovesPosition(e: Event) {
    e.body.Filled? || e.body.ReconciliationCompleted?
  }

  predicate LeavesIntentAmbiguous(e: Event) {
    e.body.CancelRejected? || e.body.AmbiguousSubmission?
  }

  /** The intents after an event that holds evidence. */
  function Informed(intents: Intents, e: Event, order: OSM.Order): Result<Intents, ReplayError> {
    var told :- Told(intents, e, DispositionOf(e, order), LeavesIntentAmbiguous(e));
    if IsOutcome(e) then WithOutcome(told, e) else Ok(told)
  }

  /** The books after an event that holds evidence, and the order it changed. */
  function Booked(books: Books, e: Event): Result<Applied, ReplayError>
    requires EvidenceOf(e).Some?
  {
    var applied :- Apply(books, e, EvidenceOf(e).value);
    if !MovesPosition(e) then Ok(applied)
    else
      var moved :- AddPosition(applied.books, e, applied.order.instrument, applied.delta);
      Ok(applied.(books := moved))
  }

  /** An event that holds evidence for an order: the order, the positions, the intent and its outcome. */
  function ReplayEvidence(s: State, e: Event): Result<State, ReplayError>
    requires EvidenceOf(e).Some?
  {
    var booked :- Booked(s.books, e);
    var intents :- Informed(s.intents, e, booked.order);
    var s := s.(books := booked.books, intents := intents,
                attempts := if e.body.ModifyRequested? then s.attempts + [e.timestamp] else s.attempts);
    if LeavesIntentAmbiguous(e) then Ok(s.(reconciliationRequired := true))
    else if e.body.ReconciliationCompleted? then Ok(Completed(s, e))
    else Ok(s)
  }

  /** Reconciliation stays required while any intent is ambiguous. */
  function Completed(s: State, e: Event): State {
    var global := s.globalReconciliationRequired && e.intentId.Some?;
    s.(globalReconciliationRequired := global,
       reconciliationRequired := global || exists id :: id in s.intents && s.intents[id].ambiguous)
  }

  /** Evidence for an order; a completed reconciliation holds some only when it names one. */
  predicate HoldsEvidence(e: Event) {
    EvidenceOf(e).Some? && (e.body.ReconciliationCompleted? ==> e.orderId.Some?)
  }

  function ReplayDecision(s: State, e: Event, decision: string, disposition: Disposition): Result<State, ReplayError> {
    var intents :- Decided(s.intents, e, decision);
    UpdateIntent(s.(intents := intents), e, disposition, false)
  }

  function ReplayRequired(s: State, e: Event): Result<State, ReplayError> {
    var s := s.(reconciliationRequired := true);
    if e.intentId.Some? then UpdateIntent(s, e, NeedsReconciliation, true)
    else Ok(s.(globalReconciliationRequired := true))
  }

  /** An event that holds no evidence. */
  function ReplayNotice(s: State, sequence: nat, e: Event): Result<State, ReplayError> {
    match e.body
    case IntentReceived(_, _, _) => ReplayReceived(s, sequence, e)
    case MappingValidated(_) => ReplayMapped(s, e)
    case MappingRefused => UpdateIntent(s, e, NotMapped, false)
    case RiskApproved(decision) => ReplayDecision(s, e, decision, Approved)
    case RiskRejected(decision) => ReplayDecision(s, e, decision, Declined)
    case SubmissionStarted(_, _, _, _) => ReplaySubmission(s, e)
    case ReconciliationRequired => ReplayRequired(s, e)
    case ReconciliationCompleted(_, _) => Ok(Completed(s, e))
    case SafetyStop => Ok(s.(safetyStopped := true))
    case SessionStarted => Ok(s.(phase := Started))
    case SessionStopping => Ok(s.(phase := Stopping))
    case SessionStopped => Ok(s.(phase := Stopped))
    case LedgerRepairRecorded => Ok(s.(reconciliationRequired := true, globalReconciliationRequired := true))
    case _ => Ok(s)
  }

  function ReplayBody(s: State, sequence: nat, e: Event): Result<State, ReplayError> {
    if HoldsEvidence(e) then ReplayEvidence(s, e) else ReplayNotice(s, sequence, e)
  }

  function ReplayRecord(s: State, sequence: nat, e: Event): Result<State, ReplayError> {
    var s :- RecordSource(s, e);
    ReplayBody(s, sequence, e)
  }

  /** The state of a whole ledger. */
  function ReplayLedger(events: seq<Event>): Result<State, ReplayError> {
    if events == [] then Ok(EMPTY)
    else
      var s :- ReplayLedger(events[..|events| - 1]);
      ReplayRecord(s, |events|, events[|events| - 1])
  }
}
