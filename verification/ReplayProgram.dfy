/**
 Replay as the program performs it: a state object that each record mutates, and the loop over the
 records of a verified ledger. A record that is refused ends the replay, whatever it left behind.
*/
module ReplayProgram {
  import opened Base
  import OSM = OrderStateMachine
  import opened Replay

  class Reconstruction {
    var intents: Intents
    var orders: map<string, OSM.Order>
    var tokens: map<string, string>
    var positions: map<string, int64>
    var routePositions: map<string, int64>
    var lastSequence: uint64
    var fingerprints: map<string, string>
    var attempts: seq<int64>
    var reconciliationRequired: bool
    var globalReconciliationRequired: bool
    var safetyStopped: bool
    var phase: SessionPhase

    ghost function Ledger(): Books
      reads this
    {
      Books(orders, tokens, positions, routePositions)
    }

    ghost function Value(): State
      reads this
    {
      State(intents, Ledger(), lastSequence, fingerprints, attempts, reconciliationRequired,
            globalReconciliationRequired, safetyStopped, phase)
    }

    constructor ()
      ensures Value() == EMPTY
    {
      intents, orders, tokens, positions, routePositions := map[], map[], map[], map[], map[];
      lastSequence, fingerprints, attempts := 0, map[], [];
      reconciliationRequired, globalReconciliationRequired, safetyStopped, phase := false, false, false, UnknownPhase;
    }

    method RecordBrokerSource(e: Event) returns (error: Option<ReplayError>)
      modifies this`fingerprints, this`lastSequence
      ensures Agrees(RecordSource(old(Value()), e), error)
    {
      match e.source
      case None => return None;
      case Some(source) =>
        if source.updateId in fingerprints && fingerprints[source.updateId] != source.fingerprint {
          return Some(FingerprintConflict);
        }
        if source.sequence != 0 && source.sequence <= lastSequence {
          return Some(SequenceFault);
        }
        fingerprints := fingerprints[source.updateId := source.fingerprint];
        if source.sequence != 0 {
          lastSequence := source.sequence;
        }
        error := None;
    }

    /** The object holds what the specification says, or the error is the one it says. */
    ghost predicate Agrees(spec: Result<State, ReplayError>, error: Option<ReplayError>)
      reads this
    {
      match spec
      case Ok(s) => error.None? && Value() == s
      case Err(e) => error == Some(e)
    }

    ghost predicate AgreesIntents(spec: Result<Intents, ReplayError>, error: Option<ReplayError>)
      reads this
    {
      match spec
      case Ok(s) => error.None? && intents == s
      case Err(e) => error == Some(e)
    }

    ghost predicate AgreesBooks(spec: Result<Books, ReplayError>, error: Option<ReplayError>)
      reads this
    {
      match spec
      case Ok(s) => error.None? && Ledger() == s
      case Err(e) => error == Some(e)
    }

    method UpdateIntent(e: Event, disposition: Disposition, ambiguous: bool) returns (error: Option<ReplayError>)
      modifies this`intents
      ensures AgreesIntents(Told(old(intents), e, disposition, ambiguous), error)
    {
      match e.intentId
      case None => error := None;
      case Some(id) =>
        if id !in intents {
          return Some(UnknownIntent);
        }
        var intent := intents[id].(disposition := disposition);
        if e.orderId.Some? {
          intent := intent.(orderId := e.orderId);
        }
        intents := intents[id := intent.(ambiguous := ambiguous)];
        error := None;
    }

    method RecordRiskDecision(e: Event, decision: string) returns (error: Option<ReplayError>)
      modifies this`intents
      ensures AgreesIntents(Decided(old(intents), e, decision), error)
    {
      match e.intentId
      case None => error := Some(MissingIntentId);
      case Some(id) =>
        if id !in intents {
          return Some(UnknownIntent);
        }
        if intents[id].decision.Some? && intents[id].decision.value != decision {
          return Some(RiskDecisionConflict);
        }
        intents := intents[id := intents[id].(decision := Some(decision))];
        error := None;
    }

    method RecordBrokerOutcome(e: Event) returns (error: Option<ReplayError>)
      modifies this`intents
      ensures AgreesIntents(WithOutcome(old(intents), e), error)
    {
      if e.intentId.None? {
        return Some(MissingIntentId);
      }
      var id := e.intentId.value;
      if id !in intents {
        return Some(UnknownIntent);
      }
      if e.source.None? {
        return Some(MissingField);
      }
      if intents[id].outcome.Some? {
        return None;
      }
      intents := intents[id := intents[id].(outcome := Some(Outcome(e.body, e.source.value.fingerprint, e.timestamp)))];
      error := None;
    }

    /** Applies evidence to the event's order. */
    method ApplyUpdate(e: Event, evidence: OSM.Evidence) returns (result: Result<OSM.Transition, ReplayError>)
      modifies this`orders
      ensures match Apply(old(Ledger()), e, evidence)
              case Ok(a) => result.Ok? && Ledger() == a.books && result.value.order == a.order && result.value.positionDelta == a.delta
              case Err(error) => result == Err(error)
    {
      hide OSM.ApplyOrderUpdate;
      if e.orderId.None? {
        return Err(MissingOrderId);
      }
      var id := e.orderId.value;
      if id !in orders {
        return Err(UnknownOrder);
      }
      var step := OSM.ApplyOrderUpdate(orders[id], evidence);
      if step.error.Some? {
        return Err(OrderRefused(step.error.value));
      }
      orders := orders[id := step.order];
      result := Ok(step);
    }

    method AddPositions(e: Event, instrument: string, delta: int) returns (error: Option<ReplayError>)
      modifies this`positions, this`routePositions
      ensures AgreesBooks(AddPosition(old(Ledger()), e, instrument, delta), error)
    {
      hide AddChecked;
      var added := AddChecked(positions, instrument, delta);
      if added.Err? {
        return Some(added.error);
      }
      positions := added.value;
      if e.orderId.Some? && e.orderId.value in tokens {
        var routed := AddChecked(routePositions, tokens[e.orderId.value], delta);
        if routed.Err? {
          return Some(routed.error);
        }
        routePositions := routed.value;
      }
      error := None;
    }

    method RecordEvidence(e: Event) returns (error: Option<ReplayError>)
      requires EvidenceOf(e).Some?
      modifies this
      ensures Agrees(ReplayEvidence(old(Value()), e), error)
    {
      hide EvidenceOf, Apply, AddPosition, Told, WithOutcome, DispositionOf;
      var applied := ApplyUpdate(e, EvidenceOf(e).value);
      if applied.Err? {
        return Some(applied.error);
      }
      if MovesPosition(e) {
        var failed := AddPositions(e, applied.value.order.instrument, applied.value.positionDelta);
        if failed.Some? {
          return failed;
        }
      }
      var told := UpdateIntent(e, DispositionOf(e, applied.value.order), LeavesIntentAmbiguous(e));
      if told.Some? {
        return told;
      }
      if e.body.ModifyRequested? {
        attempts := attempts + [e.timestamp];
      }
      if IsOutcome(e) {
        var recorded := RecordBrokerOutcome(e);
        if recorded.Some? {
          return recorded;
        }
      }
      if LeavesIntentAmbiguous(e) {
        reconciliationRequired := true;
      } else if e.body.ReconciliationCompleted? {
        CompleteReconciliation(e);
      }
      error := None;
    }

    method CompleteReconciliation(e: Event)
      modifies this`reconciliationRequired, this`globalReconciliationRequired
      ensures Value() == Completed(old(Value()), e)
    {
      if e.intentId.None? {
        globalReconciliationRequired := false;
      }
      reconciliationRequired := globalReconciliationRequired;
      var left := intents.Keys;
      while left != {}
        invariant left <= intents.Keys
        invariant globalReconciliationRequired == (old(globalReconciliationRequired) && e.intentId.Some?)
        invariant reconciliationRequired <==>
                  globalReconciliationRequired || exists id :: id in intents.Keys - left && intents[id].ambiguous
        decreases left
      {
        var id :| id in left;
        if intents[id].ambiguous {
          reconciliationRequired := true;
        }
        left := left - {id};
      }
      assert intents.Keys - left == intents.Keys;
    }

    method RecordSubmission(e: Event) returns (error: Option<ReplayError>)
      requires e.body.SubmissionStarted?
      modifies this
      ensures Agrees(ReplaySubmission(old(Value()), e), error)
    {
      hide OSM.ApplyOrderUpdate, Told;
      if e.orderId.None? {
        return Some(MissingOrderId);
      }
      var id := e.orderId.value;
      var step := OSM.ApplyOrderUpdate(Prepared(id, e), OSM.Plain(OSM.SubmissionStartedEvent, e.eventId));
      if step.error.Some? {
        return Some(OrderRefused(step.error.value));
      }
      if id in orders {
        return Some(DuplicateOrder);
      }
      orders := orders[id := step.order];
      error := UpdateIntent(e, Submitted, false);
      if error.None? {
        attempts := attempts + [e.timestamp];
      }
    }

    method RecordReceived(sequence: nat, e: Event) returns (error: Option<ReplayError>)
      requires e.body.IntentReceived?
      modifies this`intents
      ensures AgreesIntents(ReceivedIntents(old(intents), sequence, e), error)
    {
      if e.intentId.None? {
        return Some(MissingIntentId);
      }
      var id := e.intentId.value;
      if id in intents {
        if intents[id].fingerprint != e.body.fingerprint {
          return Some(IdempotencyConflict);
        }
      } else {
        intents := intents[id := IntentState(e.body.fingerprint, sequence, Received, None, false, e.body.strategyId,
                                             e.body.strategyRunId, None, None)];
      }
      error := None;
    }

    method RecordMapping(e: Event) returns (error: Option<ReplayError>)
      requires e.body.MappingValidated?
      modifies this
      ensures Agrees(ReplayMapped(old(Value()), e), error)
    {
      hide Told;
      error := UpdateIntent(e, Mapped, false);
      if error.Some? {
        return;
      }
      if e.orderId.None? {
        return Some(MissingOrderId);
      }
      var id := e.orderId.value;
      if id in tokens {
        if tokens[id] != e.body.token {
          return Some(RouteTokenConflict);
        }
      } else {
        tokens := tokens[id := e.body.token];
      }
    }

    method RecordNotice(sequence: nat, e: Event) returns (error: Option<ReplayError>)
      modifies this
      ensures Agrees(ReplayNotice(old(Value()), sequence, e), error)
    {
      hide Told, Decided, ReceivedIntents, ReplayMapped, ReplaySubmission, ReplayDecision;
      error := None;
      match e.body {
        case IntentReceived(_, _, _) =>
          error := RecordReceived(sequence, e);
        case MappingValidated(_) =>
          error := RecordMapping(e);
        case MappingRefused =>
          error := UpdateIntent(e, NotMapped, false);
        case RiskApproved(decision) =>
          error := RecordDecision(e, decision, Approved);
        case RiskRejected(decision) =>
          error := RecordDecision(e, decision, Declined);
        case SubmissionStarted(_, _, _, _) =>
          error := RecordSubmission(e);
        case ReconciliationRequired =>
          reconciliationRequired := true;
          if e.intentId.Some? {
            error := UpdateIntent(e, NeedsReconciliation, true);
          } else {
            globalReconciliationRequired := true;
          }
        case ReconciliationCompleted(_, _) =>
          CompleteReconciliation(e);
        case SafetyStop =>
          safetyStopped := true;
        case SessionStarted =>
          phase := Started;
        case SessionStopping =>
          phase := Stopping;
        case SessionStopped =>
          phase := Stopped;
        case LedgerRepairRecorded =>
          reconciliationRequired, globalReconciliationRequired := true, true;
        case _ =>
      }
    }

    method RecordDecision(e: Event, decision: string, disposition: Disposition) returns (error: Option<ReplayError>)
      modifies this`intents
      ensures Agrees(ReplayDecision(old(Value()), e, decision, disposition), error)
    {
      hide Told, Decided;
      error := RecordRiskDecision(e, decision);
      if error.None? {
        error := UpdateIntent(e, disposition, false);
      }
    }

    method Record(sequence: nat, e: Event) returns (error: Option<ReplayError>)
      modifies this
      ensures Agrees(ReplayRecord(old(Value()), sequence, e), error)
    {
      hide ReplayEvidence, ReplayNotice, RecordSource, EvidenceOf;
      error := RecordBrokerSource(e);
      if error.Some? {
        return;
      }
      if HoldsEvidence(e) {
        error := RecordEvidence(e);
      } else {
        error := RecordNotice(sequence, e);
      }
    }
  }

  /** Replays the records of a verified ledger in order. */
  method Reconstruct(events: seq<Event>) returns (state: Reconstruction, error: Option<ReplayError>)
    ensures fresh(state) && state.Agrees(ReplayLedger(events), error)
  {
    hide ReplayRecord;
    state := new Reconstruction();
    error := None;
    for i := 0 to |events|
      invariant fresh(state) && error.None? && ReplayLedger(events[..i]) == Ok(state.Value())
    {
      var before := events[..i + 1];
      assert before[..i] == events[..i];
      error := state.Record(i + 1, events[i]);
      if error.Some? {
        ReplayStops(events, i + 1);
        return;
      }
    }
    assert events[..|events|] == events;
  }

  lemma {:induction false} ReplayStops(events: seq<Event>, k: nat)
    requires k <= |events| && ReplayLedger(events[..k]).Err?
    ensures ReplayLedger(events) == ReplayLedger(events[..k])
    decreases |events|
  {
    if k == |events| {
      assert events[..k] == events;
    } else {
      var n := |events| - 1;
      assert events[..n][..k] == events[..k];
      ReplayStops(events[..n], k);
    }
  }
}
