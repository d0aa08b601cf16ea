/**
 What a replayed ledger has on record, by its events alone: the text each intent came with, the decision on it and its
 first outcome, the route of every order, the sources of the broker's events; and what an event does to its order.
*/
module ReplayRecords {
  import opened Base
  import OSM = OrderStateMachine
  import opened Replay

  // ---------------------------------------------------------------- by the kinds of events

  predicate Receives(e: Event, id: string) {
    e.body.IntentReceived? && e.intentId == Some(id)
  }

  /** The decision that the event records on the intent, if it records one. */
  function DecisionOn(e: Event, id: string): Option<string> {
    if e.intentId != Some(id) then None
    else
      match e.body
      case RiskApproved(decision) => Some(decision)
      case RiskRejected(decision) => Some(decision)
      case _ => None
  }

  /** The broker answered a request of the intent. */
  predicate Answers(e: Event, id: string) {
    && e.intentId == Some(id) && e.source.Some?
    && match e.body
       case BrokerAcknowledged(_, _) => true
       case BrokerRejected(_) => true
       case Modified(_, _, _) => true
       case ModifyRejected(_) => true
       case Cancelled(_) => true
       case CancelRejected(_) => true
       case AmbiguousSubmission(_) => true
       case _ => false
  }

  predicate Routes(e: Event, orderId: string) {
    e.body.MappingValidated? && e.orderId == Some(orderId)
  }

  /** The first event that answers for the intent. */
  function FirstAnswer(log: seq<Event>, id: string): Option<Event> {
    if log == [] then None
    else if FirstAnswer(log[..|log| - 1], id).Some? then FirstAnswer(log[..|log| - 1], id)
    else if Answers(log[|log| - 1], id) then Some(log[|log| - 1])
    else None
  }

  // ---------------------------------------------------------------- one event

  /** What one event does to the records of the intents. */
  ghost predicate Records(before: Intents, after: Intents, e: Event) {
    && (forall id :: id in before ==>
          && id in after && after[id].fingerprint == before[id].fingerprint
          && after[id].strategyId == before[id].strategyId && after[id].strategyRunId == before[id].strategyRunId
          && (Receives(e, id) ==> e.body.fingerprint == before[id].fingerprint)
          && (if DecisionOn(e, id).Some? then
                after[id].decision == DecisionOn(e, id) && (before[id].decision.Some? ==> before[id].decision == DecisionOn(e, id))
              else after[id].decision == before[id].decision)
          && after[id].outcome == (if before[id].outcome.None? && Answers(e, id)
                                   then Some(Outcome(e.body, e.source.value.fingerprint, e.timestamp)) else before[id].outcome))
    && (forall id :: id in after && id !in before ==>
          && Receives(e, id) && after[id].fingerprint == e.body.fingerprint && after[id].strategyId == e.body.strategyId
          && after[id].strategyRunId == e.body.strategyRunId && after[id].decision == None && after[id].outcome == None)
    && (forall id :: DecisionOn(e, id).Some? || Answers(e, id) || Receives(e, id) ==> id in after)
    && (forall id :: DecisionOn(e, id).Some? || Answers(e, id) ==> id in before)
  }

  /** Telling leaves the records. */
  ghost predicate SameRecords(before: Intents, after: Intents) {
    && after.Keys == before.Keys
    && forall id :: id in before ==>
         && after[id].fingerprint == before[id].fingerprint && after[id].strategyId == before[id].strategyId
         && after[id].strategyRunId == before[id].strategyRunId && after[id].decision == before[id].decision
         && after[id].outcome == before[id].outcome
  }

  lemma {:induction false} ToldKeepsRecords(intents: Intents, e: Event, d: Disposition, ambiguous: bool)
    requires Told(intents, e, d, ambiguous).Ok?
    ensures SameRecords(intents, Told(intents, e, d, ambiguous).value)
    ensures e.intentId.Some? ==> e.intentId.value in intents
  {
  }

  lemma {:induction false} EvidenceRecords(intents: Intents, e: Event, order: OSM.Order)
    requires HoldsEvidence(e) && Informed(intents, e, order).Ok?
    ensures Records(intents, Informed(intents, e, order).value, e)
  {
    var told := Told(intents, e, DispositionOf(e, order), LeavesIntentAmbiguous(e)).value;
    ToldKeepsRecords(intents, e, DispositionOf(e, order), LeavesIntentAmbiguous(e));
    if IsOutcome(e) {
      hide Told, HoldsEvidence, Records, SameRecords, WithOutcome;
      OutcomeRecords(intents, told, e);
    } else {
      EvidenceIsNoNotice(e);
      hide Told, HoldsEvidence, Records, SameRecords, WithOutcome;
      QuietRecords(intents, told, e);
    }
  }

  lemma EvidenceIsNoNotice(e: Event)
    requires HoldsEvidence(e) && !IsOutcome(e)
    ensures !e.body.IntentReceived? && !e.body.RiskApproved? && !e.body.RiskRejected? && forall id :: !Answers(e, id)
  {
  }

  lemma {:induction false} OutcomeRecords(intents: Intents, told: Intents, e: Event)
    requires SameRecords(intents, told) && IsOutcome(e) && WithOutcome(told, e).Ok?
    ensures Records(intents, WithOutcome(told, e).value, e)
  {
    OutcomeAnswers(told, e);
    hide IsOutcome, Answers, DecisionOn, Receives;
  }

  lemma OutcomeAnswers(told: Intents, e: Event)
    requires IsOutcome(e) && WithOutcome(told, e).Ok?
    ensures forall id :: Answers(e, id) <==> e.intentId == Some(id)
    ensures forall id :: !Receives(e, id) && DecisionOn(e, id).None?
  {
  }

  lemma {:induction false} ReceptionRecords(intents: Intents, sequence: nat, e: Event)
    requires e.body.IntentReceived? && ReceivedIntents(intents, sequence, e).Ok?
    ensures Records(intents, ReceivedIntents(intents, sequence, e).value, e)
  {
  }

  lemma {:induction false} DecisionRecords(s: State, e: Event, decision: string, d: Disposition)
    requires ReplayDecision(s, e, decision, d).Ok?
    requires e.body == RiskApproved(decision) || e.body == RiskRejected(decision)
    ensures Records(s.intents, ReplayDecision(s, e, decision, d).value.intents, e)
  {
    var decided := Decided(s.intents, e, decision).value;
    DecidedRecords(s.intents, e, decision);
    ToldKeepsRecords(decided, e, d, false);
    hide Told, Decided, Records, SameRecords;
    ToldAfterwards(s.intents, decided, ReplayDecision(s, e, decision, d).value.intents, e);
  }

  lemma {:induction false} DecidedRecords(intents: Intents, e: Event, decision: string)
    requires e.body == RiskApproved(decision) || e.body == RiskRejected(decision)
    requires Decided(intents, e, decision).Ok?
    ensures Records(intents, Decided(intents, e, decision).value, e)
  {
    assert forall id :: !Answers(e, id);
    hide Answers;
  }

  lemma {:induction false} ToldAfterwards(before: Intents, decided: Intents, after: Intents, e: Event)
    requires Records(before, decided, e) && SameRecords(decided, after)
    ensures Records(before, after, e)
  {
    hide Answers, DecisionOn, Receives;
  }

  lemma {:induction false} QuietRecords(before: Intents, after: Intents, e: Event)
    requires SameRecords(before, after) && !e.body.IntentReceived? && !e.body.RiskApproved? && !e.body.RiskRejected?
    requires forall id :: !Answers(e, id)
    ensures Records(before, after, e)
  {
  }

  lemma {:induction false} OtherRecords(s: State, sequence: nat, e: Event)
    requires !HoldsEvidence(e) && ReplayNotice(s, sequence, e).Ok?
    requires !e.body.IntentReceived? && !e.body.RiskApproved? && !e.body.RiskRejected?
    ensures Records(s.intents, ReplayNotice(s, sequence, e).value.intents, e)
  {
    assert forall id :: !Answers(e, id);
    WordKeepsRecords(s, sequence, e);
    hide ReplayNotice, Records, SameRecords, EvidenceOf, HoldsEvidence, Answers;
    QuietRecords(s.intents, ReplayNotice(s, sequence, e).value.intents, e);
  }

  lemma {:induction false} WordKeepsRecords(s: State, sequence: nat, e: Event)
    requires ReplayNotice(s, sequence, e).Ok?
    requires !e.body.IntentReceived? && !e.body.RiskApproved? && !e.body.RiskRejected?
    ensures SameRecords(s.intents, ReplayNotice(s, sequence, e).value.intents)
  {
    hide SameRecords, Told, Submit, Routed;
    NothingKeepsRecords(s.intents);
    if e.body.MappingValidated? {
      ToldKeepsRecords(s.intents, e, Mapped, false);
    } else if e.body.MappingRefused? {
      ToldKeepsRecords(s.intents, e, NotMapped, false);
    } else if e.body.SubmissionStarted? {
      ToldKeepsRecords(s.intents, e, Submitted, false);
    } else if e.body.ReconciliationRequired? && e.intentId.Some? {
      ToldKeepsRecords(s.intents, e, NeedsReconciliation, true);
    }
  }

  lemma NothingKeepsRecords(intents: Intents)
    ensures SameRecords(intents, intents)
  {
  }

  lemma {:induction false} RecordRecords(s: State, sequence: nat, e: Event)
    requires ReplayRecord(s, sequence, e).Ok?
    ensures Records(s.intents, ReplayRecord(s, sequence, e).value.intents, e)
  {
    var sourced := RecordSource(s, e).value;
    if HoldsEvidence(e) {
      EvidenceRecords(s.intents, e, Booked(sourced.books, e).value.order);
      hide Booked, Informed, Records, EvidenceOf, HoldsEvidence;
    } else {
      NoticeRecords(sourced, sequence, e);
      hide Records, ReplayNotice, HoldsEvidence;
    }
  }

  lemma {:induction false} NoticeRecords(s: State, sequence: nat, e: Event)
    requires !HoldsEvidence(e) && ReplayNotice(s, sequence, e).Ok?
    ensures Records(s.intents, ReplayNotice(s, sequence, e).value.intents, e)
  {
    hide Records, ReceivedIntents, ReplayDecision, UpdateIntent, ReplaySubmission, ReplayMapped, ReplayRequired, EvidenceOf, HoldsEvidence;
    match e.body
    case IntentReceived(_, _, _) => ReceptionRecords(s.intents, sequence, e);
    case RiskApproved(decision) => DecisionRecords(s, e, decision, Approved);
    case RiskRejected(decision) => DecisionRecords(s, e, decision, Declined);
    case _ => OtherRecords(s, sequence, e);
  }

  /** What one event does to the routes of orders and to the sources of broker events. */
  ghost predicate Traces(before: State, after: State, e: Event) {
    && (forall id :: id in after.books.tokens <==> id in before.books.tokens || Routes(e, id))
    && (forall id :: id in before.books.tokens ==> after.books.tokens[id] == before.books.tokens[id])
    && (forall id :: Routes(e, id) ==> after.books.tokens[id] == e.body.token)
    && (match e.source
        case None => after.fingerprints == before.fingerprints && after.lastSequence == before.lastSequence
        case Some(source) =>
          && (source.updateId in before.fingerprints ==> before.fingerprints[source.updateId] == source.fingerprint)
          && after.fingerprints == before.fingerprints[source.updateId := source.fingerprint]
          && (source.sequence != 0 ==> source.sequence > before.lastSequence)
          && after.lastSequence == (if source.sequence == 0 then before.lastSequence else source.sequence))
  }

  lemma {:induction false} RecordTraces(s: State, sequence: nat, e: Event)
    requires ReplayRecord(s, sequence, e).Ok?
    ensures Traces(s, ReplayRecord(s, sequence, e).value, e)
  {
    var sourced := RecordSource(s, e).value;
    if HoldsEvidence(e) {
      EvidenceTraces(sourced, e);
      hide ReplayEvidence, HoldsEvidence;
    } else {
      NoticeTraces(sourced, sequence, e);
      hide ReplayNotice, HoldsEvidence;
    }
  }

  lemma {:induction false} EvidenceTraces(s: State, e: Event)
    requires HoldsEvidence(e) && ReplayEvidence(s, e).Ok?
    ensures var next := ReplayEvidence(s, e).value;
            && next.books.tokens == s.books.tokens && next.fingerprints == s.fingerprints && next.lastSequence == s.lastSequence
            && !e.body.MappingValidated?
  {
    hide Informed, AddChecked, OSM.ApplyOrderUpdate;
  }

  ghost predicate SameTraces(before: State, after: State) {
    after.fingerprints == before.fingerprints && after.lastSequence == before.lastSequence && after.books.tokens == before.books.tokens
  }

  lemma {:induction false} SubmissionTraces(s: State, e: Event)
    requires e.body.SubmissionStarted? && ReplaySubmission(s, e).Ok?
    ensures SameTraces(s, ReplaySubmission(s, e).value)
  {
    hide Told, OSM.ApplyOrderUpdate;
  }

  lemma {:induction false} WordTraces(s: State, e: Event, d: Disposition, ambiguous: bool)
    ensures UpdateIntent(s, e, d, ambiguous).Ok? ==> SameTraces(s, UpdateIntent(s, e, d, ambiguous).value)
  {
    hide Told;
  }

  lemma {:induction false} DecisionTraces(s: State, e: Event, decision: string, d: Disposition)
    requires ReplayDecision(s, e, decision, d).Ok?
    ensures SameTraces(s, ReplayDecision(s, e, decision, d).value)
  {
    var intents := Decided(s.intents, e, decision).value;
    WordTraces(s.(intents := intents), e, d, false);
    hide Decided, UpdateIntent;
  }

  lemma {:induction false} OtherTraces(s: State, sequence: nat, e: Event)
    requires ReplayNotice(s, sequence, e).Ok? && !e.body.MappingValidated?
    ensures SameTraces(s, ReplayNotice(s, sequence, e).value)
  {
    match e.body {
      case SubmissionStarted(_, _, _, _) => SubmissionTraces(s, e);
      case RiskApproved(decision) => DecisionTraces(s, e, decision, Approved);
      case RiskRejected(decision) => DecisionTraces(s, e, decision, Declined);
      case MappingRefused => WordTraces(s, e, NotMapped, false);
      case ReconciliationRequired => WordTraces(s.(reconciliationRequired := true), e, NeedsReconciliation, true);
      case _ =>
    }
    hide ReceivedIntents, ReplaySubmission, ReplayDecision, UpdateIntent, EvidenceOf;
  }

  lemma {:induction false} NoticeTraces(s: State, sequence: nat, e: Event)
    requires !HoldsEvidence(e) && ReplayNotice(s, sequence, e).Ok?
    ensures var next := ReplayNotice(s, sequence, e).value;
            && next.fingerprints == s.fingerprints && next.lastSequence == s.lastSequence
            && (forall id :: id in next.books.tokens <==> id in s.books.tokens || Routes(e, id))
            && (forall id :: id in s.books.tokens ==> next.books.tokens[id] == s.books.tokens[id])
            && (forall id :: Routes(e, id) ==> next.books.tokens[id] == e.body.token)
  {
    if e.body.MappingValidated? {
      hide Told, EvidenceOf, HoldsEvidence;
    } else {
      OtherTraces(s, sequence, e);
      hide ReplayNotice, EvidenceOf, HoldsEvidence;
    }
  }

  // ---------------------------------------------------------------- whole ledgers

  /** The text that each intent came with, and the decision on it. */
  ghost predicate TextsOf(log: seq<Event>, intents: Intents) {
    && (forall k, id :: 0 <= k < |log| && Receives(log[k], id) ==> id in intents && intents[id].fingerprint == log[k].body.fingerprint)
    && (forall k, id :: 0 <= k < |log| && DecisionOn(log[k], id).Some? ==>
          id in intents && intents[id].decision == DecisionOn(log[k], id))
    && (forall id :: id in intents && intents[id].decision.Some? ==>
          exists k :: 0 <= k < |log| && DecisionOn(log[k], id) == intents[id].decision)
  }

  /** What is on record of one intent's answer. */
  ghost predicate AnswerOf(log: seq<Event>, intents: Intents, id: string) {
    match FirstAnswer(log, id)
    case Some(e) =>
      id in intents && e.source.Some? && intents[id].outcome == Some(Outcome(e.body, e.source.value.fingerprint, e.timestamp))
    case None => id in intents ==> intents[id].outcome.None?
  }

  /** What is on record of every answer. */
  ghost predicate AnswersOf(log: seq<Event>, intents: Intents) {
    forall id :: AnswerOf(log, intents, id)
  }

  /** The route of each order. */
  ghost predicate RoutesOf(log: seq<Event>, tokens: map<string, string>) {
    && (forall id :: id in tokens ==> exists k :: 0 <= k < |log| && Routes(log[k], id))
    && (forall k, id :: 0 <= k < |log| && Routes(log[k], id) ==> id in tokens && tokens[id] == log[k].body.token)
  }

  /** The content of each update of the broker. */
  ghost predicate UpdatesOf(log: seq<Event>, fingerprints: map<string, string>) {
    && (forall k :: 0 <= k < |log| && log[k].source.Some? ==>
          var source := log[k].source.value;
          source.updateId in fingerprints && fingerprints[source.updateId] == source.fingerprint)
    && (forall id :: id in fingerprints ==>
          exists k :: 0 <= k < |log| && log[k].source.Some? && log[k].source.value.updateId == id)
  }

  /** The numbers of the broker's updates, which only grow; answers to requests have none. */
  ghost predicate NumbersOf(log: seq<Event>, last: uint64) {
    && (forall k :: 0 <= k < |log| && log[k].source.Some? ==> log[k].source.value.sequence <= last)
    && (last != 0 ==> exists k :: 0 <= k < |log| && log[k].source.Some? && log[k].source.value.sequence == last)
    && (forall i, j :: 0 <= i < j < |log| && log[i].source.Some? && log[j].source.Some? && log[j].source.value.sequence != 0 ==>
          log[i].source.value.sequence < log[j].source.value.sequence)
  }

  /** What a state has on record of its ledger. */
  ghost predicate OnRecord(log: seq<Event>, s: State) {
    && TextsOf(log, s.intents) && AnswersOf(log, s.intents) && RoutesOf(log, s.books.tokens)
    && UpdatesOf(log, s.fingerprints) && NumbersOf(log, s.lastSequence)
  }

  /** Main result: of a ledger that replays, every reception of an intent came with one text, every decision on it was
      the same, and its outcome is the first answer; every route of an order was the same; and the broker's events came
      in the order of their numbers, each update with one content. All of that is what the state has on record. */
  lemma {:induction false} LedgerIsOnRecord(log: seq<Event>)
    requires ReplayLedger(log).Ok?
    ensures OnRecord(log, ReplayLedger(log).value)
    decreases |log|
  {
    hide ReplayRecord;
    if log != [] {
      var n := |log| - 1;
      LedgerIsOnRecord(log[..n]);
      var s, t := ReplayLedger(log[..n]).value, ReplayLedger(log).value;
      RecordRecords(s, |log|, log[n]);
      RecordTraces(s, |log|, log[n]);
      hide Records, Traces, TextsOf, AnswersOf, RoutesOf, UpdatesOf, NumbersOf;
      TextsOnRecord(log, s.intents, t.intents);
      AnswersOnRecord(log, s.intents, t.intents);
      RoutesOnRecord(log, s, t);
      UpdatesOnRecord(log, s, t);
      NumbersOnRecord(log, s, t);
    }
  }

  lemma {:induction false} TextsOnRecord(log: seq<Event>, before: Intents, after: Intents)
    requires log != [] && TextsOf(log[..|log| - 1], before) && Records(before, after, log[|log| - 1])
    ensures TextsOf(log, after)
  {
    hide Answers, DecisionOn;
    var n := |log| - 1;
    assert forall k :: 0 <= k < n ==> log[..n][k] == log[k];
    forall id | id in after && after[id].decision.Some?
      ensures exists k :: 0 <= k < |log| && DecisionOn(log[k], id) == after[id].decision
    {
      if DecisionOn(log[n], id).None? {
        var k :| 0 <= k < n && DecisionOn(log[..n][k], id) == before[id].decision;
        assert DecisionOn(log[k], id) == after[id].decision;
      }
    }
  }

  lemma {:induction false} AnswersOnRecord(log: seq<Event>, before: Intents, after: Intents)
    requires log != [] && AnswersOf(log[..|log| - 1], before) && Records(before, after, log[|log| - 1])
    ensures AnswersOf(log, after)
  {
    hide Records, FirstAnswer, AnswerOf;
    forall id ensures AnswerOf(log, after, id) {
      assert AnswerOf(log[..|log| - 1], before, id);
      AnswerOnRecord(log, before, after, id);
    }
  }

  lemma {:induction false} AnswerOnRecord(log: seq<Event>, before: Intents, after: Intents, id: string)
    requires log != [] && AnswerOf(log[..|log| - 1], before, id) && Records(before, after, log[|log| - 1])
    ensures AnswerOf(log, after, id)
  {
    AnswerHasSource(log[|log| - 1]);
    hide Answers, DecisionOn, Receives;
  }

  lemma AnswerHasSource(e: Event)
    ensures forall id :: Answers(e, id) ==> e.source.Some?
  {
  }

  lemma {:induction false} RoutesOnRecord(log: seq<Event>, before: State, after: State)
    requires log != [] && RoutesOf(log[..|log| - 1], before.books.tokens) && Traces(before, after, log[|log| - 1])
    ensures RoutesOf(log, after.books.tokens)
  {
    var n := |log| - 1;
    assert forall k :: 0 <= k < n ==> log[..n][k] == log[k];
    forall id | id in after.books.tokens ensures exists k :: 0 <= k < |log| && Routes(log[k], id) {
      if !Routes(log[n], id) {
        var k :| 0 <= k < n && Routes(log[..n][k], id);
        assert Routes(log[k], id);
      }
    }
  }

  lemma {:induction false} UpdatesOnRecord(log: seq<Event>, before: State, after: State)
    requires log != [] && UpdatesOf(log[..|log| - 1], before.fingerprints) && Traces(before, after, log[|log| - 1])
    ensures UpdatesOf(log, after.fingerprints)
  {
    hide Routes;
    var n := |log| - 1;
    assert forall k :: 0 <= k < n ==> log[..n][k] == log[k];
    forall id | id in after.fingerprints
      ensures exists k :: 0 <= k < |log| && log[k].source.Some? && log[k].source.value.updateId == id
    {
      if id in before.fingerprints {
        var k :| 0 <= k < n && log[..n][k].source.Some? && log[..n][k].source.value.updateId == id;
        assert log[k].source.Some? && log[k].source.value.updateId == id;
      } else {
        assert log[n].source.Some? && log[n].source.value.updateId == id;
      }
    }
  }

  lemma {:induction false} NumbersOnRecord(log: seq<Event>, before: State, after: State)
    requires log != [] && NumbersOf(log[..|log| - 1], before.lastSequence) && Traces(before, after, log[|log| - 1])
    ensures NumbersOf(log, after.lastSequence)
  {
    hide Routes;
    var n := |log| - 1;
    assert forall k :: 0 <= k < n ==> log[..n][k] == log[k];
    if after.lastSequence != 0 && after.lastSequence == before.lastSequence {
      var k :| 0 <= k < n && log[..n][k].source.Some? && log[..n][k].source.value.sequence == before.lastSequence;
      assert log[k].source.Some? && log[k].source.value.sequence == after.lastSequence;
    }
  }
}
