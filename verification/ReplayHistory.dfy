/**
 What a replayed ledger says, by the kinds of its events alone: of each intent, what its last event told it; of the
 whole, whether reconciliation is required, and whether trading was stopped.
*/
module ReplayHistory {
  import opened Base
  import OSM = OrderStateMachine
  import opened Replay

  // ---------------------------------------------------------------- by the kinds of events

  /** The event tells its intent what became of it. A completed reconciliation does when it names an order. */
  predicate Tells(e: Event) {
    match e.body
    case IntentReceived(_, _, _) => false
    case SafetyStop => false
    case SessionStarted => false
    case SessionStopping => false
    case SessionStopped => false
    case LedgerRepairRecorded => false
    case MarketObservationAccepted => false
    case ReconciliationCompleted(_, _) => e.orderId.Some?
    case _ => true
  }

  /** The event leaves its intent in doubt. */
  predicate LeavesDoubt(e: Event) {
    e.body.AmbiguousSubmission? || e.body.CancelRejected? || e.body.ReconciliationRequired?
  }

  /** What the event says became of its intent. */
  predicate Says(e: Event, d: Disposition) {
    match e.body
    case MappingValidated(_) => d == Mapped
    case MappingRefused => d == NotMapped
    case RiskApproved(_) => d == Approved
    case RiskRejected(_) => d == Declined
    case SubmissionStarted(_, _, _, _) => d == Submitted
    case BrokerAcknowledged(_, _) => d == Acknowledged
    case Filled(complete, _, _) => d == (if complete then Complete else PartlyFilled)
    case CancelRequested(_) => d == CancelAsked
    case ModifyRequested(_, _, _) => d == ModifyAsked
    case Modified(_, _, _) => d == ModifyDone
    case ModifyRejected(_) => d == ModifyRefused
    case CancelRejected(_) => d == CancelRefused
    case Cancelled(_) => d == CancelDone
    case BrokerRejected(_) => d == Refused
    case AmbiguousSubmission(_) => d == Ambiguous
    case ReconciliationRequired => d == NeedsReconciliation
    case _ => d.Settled?
  }

  predicate TellsOf(e: Event, id: string) {
    e.intentId == Some(id) && Tells(e)
  }

  predicate Receives(e: Event, id: string) {
    e.body.IntentReceived? && e.intentId == Some(id)
  }

  /** The last event that tells the intent something. */
  function LastTold(log: seq<Event>, id: string): Option<Event> {
    if log == [] then None
    else if TellsOf(log[|log| - 1], id) then Some(log[|log| - 1])
    else LastTold(log[..|log| - 1], id)
  }

  /** The order that an event last named to the intent. */
  function LastNamed(log: seq<Event>, id: string): Option<string> {
    if log == [] then None
    else if TellsOf(log[|log| - 1], id) && log[|log| - 1].orderId.Some? then log[|log| - 1].orderId
    else LastNamed(log[..|log| - 1], id)
  }

  /** The phase the session's events last announced. */
  function LastPhase(log: seq<Event>): SessionPhase {
    if log == [] then UnknownPhase
    else
      match log[|log| - 1].body
      case SessionStarted => Started
      case SessionStopping => Stopping
      case SessionStopped => Stopped
      case _ => LastPhase(log[..|log| - 1])
  }

  predicate Doubtful(log: seq<Event>, id: string) {
    LastTold(log, id).Some? && LeavesDoubt(LastTold(log, id).value)
  }

  /** A demand for reconciliation that no intent has to meet, and that no completion without an intent has met. */
  predicate Outstanding(log: seq<Event>) {
    if log == [] then false
    else
      var last := log[|log| - 1];
      if last.body.LedgerRepairRecorded? || (last.body.ReconciliationRequired? && last.intentId.None?) then true
      else if last.body.ReconciliationCompleted? && last.intentId.None? then false
      else Outstanding(log[..|log| - 1])
  }

  /** Reconciliation is required by an event that demands it, and once one was completed as long as any intent is in
      doubt or a demand is outstanding. */
  ghost predicate Required(log: seq<Event>) {
    if log == [] then false
    else
      var last := log[|log| - 1];
      if LeavesDoubt(last) || last.body.LedgerRepairRecorded? then true
      else if last.body.ReconciliationCompleted? then Outstanding(log) || exists id :: Doubtful(log, id)
      else Required(log[..|log| - 1])
  }

  // ---------------------------------------------------------------- one event

  /** What one event does to what is known of the intents. */
  ghost predicate Informs(before: Intents, after: Intents, e: Event) {
    && (forall id :: id in after <==> id in before || Receives(e, id))
    && (forall id :: TellsOf(e, id) ==> id in before)
    && (forall id :: id in before ==>
          if TellsOf(e, id) then
            && Says(e, after[id].disposition) && (after[id].ambiguous <==> LeavesDoubt(e))
            && after[id].orderId == (if e.orderId.Some? then e.orderId else before[id].orderId)
          else
            && after[id].disposition == before[id].disposition && after[id].ambiguous == before[id].ambiguous
            && after[id].orderId == before[id].orderId)
    && (forall id :: Receives(e, id) && id !in before ==>
          after[id].disposition == Received && !after[id].ambiguous && after[id].orderId == None)
  }

  lemma {:induction false} ToldInforms(intents: Intents, e: Event, d: Disposition, ambiguous: bool)
    requires Told(intents, e, d, ambiguous).Ok? && Tells(e) && Says(e, d) && (ambiguous <==> LeavesDoubt(e))
    ensures Informs(intents, Told(intents, e, d, ambiguous).value, e)
  {
  }

  lemma {:induction false} RecordInforms(s: State, sequence: nat, e: Event)
    requires ReplayRecord(s, sequence, e).Ok?
    ensures Informs(s.intents, ReplayRecord(s, sequence, e).value.intents, e)
  {
    if HoldsEvidence(e) {
      EvidenceInforms(s.intents, e, Booked(RecordSource(s, e).value.books, e).value.order);
      hide Booked, Informed, Informs, EvidenceOf, HoldsEvidence;
    } else {
      NoticeInforms(RecordSource(s, e).value, sequence, e);
      hide ReplayNotice, Informs, HoldsEvidence;
    }
  }

  lemma {:induction false} EvidenceInforms(intents: Intents, e: Event, order: OSM.Order)
    requires HoldsEvidence(e) && Informed(intents, e, order).Ok?
    ensures Informs(intents, Informed(intents, e, order).value, e)
  {
    var told := Told(intents, e, DispositionOf(e, order), LeavesIntentAmbiguous(e)).value;
    ToldInforms(intents, e, DispositionOf(e, order), LeavesIntentAmbiguous(e));
    hide Told, EvidenceOf, HoldsEvidence;
    if IsOutcome(e) {
      hide Informs, IsOutcome;
      OutcomeIsQuiet(intents, told, e);
    }
  }

  lemma {:induction false} OutcomeIsQuiet(intents: Intents, told: Intents, e: Event)
    requires Informs(intents, told, e) && WithOutcome(told, e).Ok?
    ensures Informs(intents, WithOutcome(told, e).value, e)
  {
  }

  lemma {:induction false} ReceptionInforms(intents: Intents, sequence: nat, e: Event)
    requires e.body.IntentReceived? && ReceivedIntents(intents, sequence, e).Ok?
    ensures Informs(intents, ReceivedIntents(intents, sequence, e).value, e)
  {
  }

  lemma {:induction false} DecisionInforms(s: State, e: Event, decision: string, d: Disposition)
    requires ReplayDecision(s, e, decision, d).Ok? && Tells(e) && Says(e, d) && !LeavesDoubt(e)
    ensures Informs(s.intents, ReplayDecision(s, e, decision, d).value.intents, e)
  {
    var decided := Decided(s.intents, e, decision).value;
    ToldInforms(decided, e, d, false);
  }

  lemma {:induction false} NothingInforms(intents: Intents, e: Event)
    requires !Tells(e) && !e.body.IntentReceived?
    ensures Informs(intents, intents, e)
  {
  }

  /** Events that tell something without evidence and without a decision. */
  lemma {:induction false} WordInforms(s: State, sequence: nat, e: Event)
    requires e.body.MappingValidated? || e.body.MappingRefused? || e.body.SubmissionStarted? || e.body.ReconciliationRequired?
    requires ReplayNotice(s, sequence, e).Ok?
    ensures Informs(s.intents, ReplayNotice(s, sequence, e).value.intents, e)
  {
    hide Informs, Told, Submit, Routed;
    match e.body
    case MappingValidated(_) => ToldInforms(s.intents, e, Mapped, false);
    case MappingRefused => ToldInforms(s.intents, e, NotMapped, false);
    case SubmissionStarted(_, _, _, _) => ToldInforms(s.intents, e, Submitted, false);
    case ReconciliationRequired =>
      if e.intentId.Some? {
        ToldInforms(s.intents, e, NeedsReconciliation, true);
      } else {
        NobodyInforms(s.intents, e);
      }
  }

  lemma NobodyInforms(intents: Intents, e: Event)
    requires e.intentId.None?
    ensures Informs(intents, intents, e)
  {
  }

  lemma {:induction false} NoticeInforms(s: State, sequence: nat, e: Event)
    requires !HoldsEvidence(e) && ReplayNotice(s, sequence, e).Ok?
    ensures Informs(s.intents, ReplayNotice(s, sequence, e).value.intents, e)
  {
    hide Informs, UpdateIntent, ReceivedIntents, ReplayDecision, ReplaySubmission, ReplayMapped, ReplayRequired, Decided, Told;
    match e.body
    case IntentReceived(_, _, _) => ReceptionInforms(s.intents, sequence, e);
    case MappingValidated(_) => WordInforms(s, sequence, e);
    case MappingRefused => WordInforms(s, sequence, e);
    case RiskApproved(decision) => DecisionInforms(s, e, decision, Approved);
    case RiskRejected(decision) => DecisionInforms(s, e, decision, Declined);
    case SubmissionStarted(_, _, _, _) => WordInforms(s, sequence, e);
    case ReconciliationRequired => WordInforms(s, sequence, e);
    case _ => NothingInforms(s.intents, e);
  }

  /** What one event does to the flags of the whole. */
  ghost predicate Flags(before: State, after: State, e: Event) {
    && (after.safetyStopped <==> before.safetyStopped || e.body.SafetyStop?)
    && after.phase == (match e.body
                       case SessionStarted => Started
                       case SessionStopping => Stopping
                       case SessionStopped => Stopped
                       case _ => before.phase)
    && (after.globalReconciliationRequired <==>
        || e.body.LedgerRepairRecorded? || (e.body.ReconciliationRequired? && e.intentId.None?)
        || (before.globalReconciliationRequired && !(e.body.ReconciliationCompleted? && e.intentId.None?)))
    && (after.reconciliationRequired <==>
        || LeavesDoubt(e) || e.body.LedgerRepairRecorded?
        || (if e.body.ReconciliationCompleted?
            then after.globalReconciliationRequired || exists id :: id in after.intents && after.intents[id].ambiguous
            else before.reconciliationRequired))
  }

  lemma {:induction false} RecordFlags(s: State, sequence: nat, e: Event)
    requires ReplayRecord(s, sequence, e).Ok?
    ensures Flags(s, ReplayRecord(s, sequence, e).value, e)
  {
    var sourced := RecordSource(s, e).value;
    if HoldsEvidence(e) {
      EvidenceFlags(sourced, e);
      hide ReplayNotice, HoldsEvidence, ReplayEvidence;
    } else {
      NoticeFlags(sourced, sequence, e);
      hide ReplayNotice, HoldsEvidence, ReplayEvidence;
    }
  }

  lemma {:induction false} EvidenceFlags(s: State, e: Event)
    requires HoldsEvidence(e) && ReplayEvidence(s, e).Ok?
    ensures Flags(s, ReplayEvidence(s, e).value, e)
  {
    hide Booked, Informed;
  }

  lemma {:induction false} NoticeFlags(s: State, sequence: nat, e: Event)
    requires !HoldsEvidence(e) && ReplayNotice(s, sequence, e).Ok?
    ensures Flags(s, ReplayNotice(s, sequence, e).value, e)
  {
    hide Told, Decided, ReceivedIntents, Submit, Routed, Completed;
    match e.body
    case IntentReceived(_, _, _) =>
    case MappingValidated(_) =>
    case MappingRefused =>
    case RiskApproved(_) =>
    case RiskRejected(_) =>
    case SubmissionStarted(_, _, _, _) =>
    case ReconciliationRequired =>
    case ReconciliationCompleted(_, _) => CompletionFlags(s, e);
    case _ => SignFlags(s, sequence, e);
  }

  lemma CompletionFlags(s: State, e: Event)
    requires e.body.ReconciliationCompleted?
    ensures Flags(s, Completed(s, e), e)
  {
  }

  /** The events about the session itself. */
  lemma {:induction false} SignFlags(s: State, sequence: nat, e: Event)
    requires !HoldsEvidence(e) && ReplayNotice(s, sequence, e).Ok?
    requires !Tells(e) && !e.body.IntentReceived? && !e.body.ReconciliationCompleted?
    ensures Flags(s, ReplayNotice(s, sequence, e).value, e)
  {
  }

  // ---------------------------------------------------------------- whole ledgers

  /** What is known of the intents of a ledger. */
  ghost predicate KnowsIntents(log: seq<Event>, intents: Intents) {
    && (forall id :: id in intents <==> exists k :: 0 <= k < |log| && Receives(log[k], id))
    && (forall id :: id in intents ==>
          match LastTold(log, id)
          case Some(e) => Says(e, intents[id].disposition) && (intents[id].ambiguous <==> LeavesDoubt(e))
          case None => intents[id].disposition == Received && !intents[id].ambiguous)
    && (forall id :: id in intents ==> intents[id].orderId == LastNamed(log, id))
    && (forall id :: LastTold(log, id).Some? ==> id in intents)
  }

  /** A stop was written. */
  ghost predicate StopWritten(log: seq<Event>) {
    exists k :: 0 <= k < |log| && log[k].body.SafetyStop?
  }

  /** What a state knows of its ledger. */
  ghost predicate Remembers(log: seq<Event>, s: State) {
    && KnowsIntents(log, s.intents)
    && (s.safetyStopped <==> StopWritten(log))
    && s.phase == LastPhase(log)
    && (s.globalReconciliationRequired <==> Outstanding(log))
    && (s.reconciliationRequired <==> Required(log))
  }

  /** Main result: an intent is known exactly when it was received; what became of it is what the last event that told
      it something says; it is in doubt exactly when that was an ambiguous submission, a refused cancellation or a demand
      for reconciliation. Trading was stopped exactly when a stop was written, and reconciliation is required exactly
      when the events say so. */
  lemma {:induction false} LedgerIsRemembered(log: seq<Event>)
    requires ReplayLedger(log).Ok?
    ensures Remembers(log, ReplayLedger(log).value)
    decreases |log|
  {
    hide ReplayRecord;
    if log != [] {
      var n := |log| - 1;
      LedgerIsRemembered(log[..n]);
      var s, e := ReplayLedger(log[..n]).value, log[n];
      RecordInforms(s, |log|, e);
      RecordFlags(s, |log|, e);
      RecordIsRemembered(log, s, ReplayLedger(log).value);
    }
  }

  lemma {:induction false} IntentsAreKnown(log: seq<Event>, before: Intents, after: Intents)
    requires log != [] && KnowsIntents(log[..|log| - 1], before) && Informs(before, after, log[|log| - 1])
    ensures KnowsIntents(log, after)
  {
    var n := |log| - 1;
    hide Tells, Says, LeavesDoubt;
    NewIsUntold(log[..n], before);
    KnownAreReceived(log, before, after);
    NamesAreKnown(log, before, after);
    hide Receives, LastNamed;
  }

  lemma {:induction false} NamesAreKnown(log: seq<Event>, before: Intents, after: Intents)
    requires log != [] && KnowsIntents(log[..|log| - 1], before) && Informs(before, after, log[|log| - 1])
    ensures forall id :: id in after ==> after[id].orderId == LastNamed(log, id)
  {
    hide Tells, Says, LeavesDoubt, LastTold;
    NewIsUntold(log[..|log| - 1], before);
    hide Receives;
  }

  lemma {:induction false} KnownAreReceived(log: seq<Event>, before: Intents, after: Intents)
    requires log != [] && KnowsIntents(log[..|log| - 1], before) && Informs(before, after, log[|log| - 1])
    ensures forall id :: id in after <==> exists k :: 0 <= k < |log| && Receives(log[k], id)
  {
    var n := |log| - 1;
    hide Tells, Says, LeavesDoubt;
    forall id ensures id in after <==> exists k :: 0 <= k < |log| && Receives(log[k], id) {
      hide TellsOf, Receives, LastTold, LastNamed;
      assert forall k :: 0 <= k < n ==> log[..n][k] == log[k];
      if Receives(log[n], id) {
        assert id in after;
      }
    }
  }

  lemma {:induction false} NewIsUntold(log: seq<Event>, intents: Intents)
    requires KnowsIntents(log, intents)
    ensures forall id :: id !in intents ==> LastTold(log, id).None? && LastNamed(log, id).None?
  {
    forall id | id !in intents ensures LastTold(log, id).None? && LastNamed(log, id).None? {
      NamedIsTold(log, id);
    }
  }

  lemma {:induction false} NamedIsTold(log: seq<Event>, id: string)
    ensures LastTold(log, id).None? ==> LastNamed(log, id).None?
  {
    hide TellsOf;
    if log != [] {
      NamedIsTold(log[..|log| - 1], id);
    }
  }

  /** An intent is in doubt exactly when its state is ambiguous. */
  lemma DoubtIsAmbiguity(log: seq<Event>, intents: Intents)
    requires KnowsIntents(log, intents)
    ensures (exists id :: Doubtful(log, id)) <==> exists id :: id in intents && intents[id].ambiguous
  {
    hide LastTold, Receives, Says, LeavesDoubt;
    if id :| Doubtful(log, id) {
      assert id in intents && intents[id].ambiguous;
    }
    if id :| id in intents && intents[id].ambiguous {
      assert Doubtful(log, id);
    }
  }

  lemma {:induction false} RecordIsRemembered(log: seq<Event>, before: State, after: State)
    requires log != [] && Remembers(log[..|log| - 1], before)
    requires Informs(before.intents, after.intents, log[|log| - 1]) && Flags(before, after, log[|log| - 1])
    ensures Remembers(log, after)
  {
    IntentsAreKnown(log, before.intents, after.intents);
    DoubtIsAmbiguity(log, after.intents);
    hide KnowsIntents, Informs, LeavesDoubt;
    StopsAreWritten(log);
    hide StopWritten;
    PhaseFollows(log, before, after);
  }

  lemma StopsAreWritten(log: seq<Event>)
    requires log != []
    ensures StopWritten(log) <==> log[|log| - 1].body.SafetyStop? || StopWritten(log[..|log| - 1])
  {
    var prefix := log[..|log| - 1];
    assert forall k :: 0 <= k < |prefix| ==> prefix[k] == log[k];
    if StopWritten(log) && !log[|log| - 1].body.SafetyStop? {
      var k :| 0 <= k < |log| && log[k].body.SafetyStop?;
      assert prefix[k].body.SafetyStop?;
    }
  }

  lemma PhaseFollows(log: seq<Event>, before: State, after: State)
    requires log != [] && before.phase == LastPhase(log[..|log| - 1]) && Flags(before, after, log[|log| - 1])
    ensures after.phase == LastPhase(log)
  {
    hide LeavesDoubt;
  }

  /** Main result: reconciliation is required as long as any intent is in doubt or a demand for all is outstanding. */
  lemma {:induction false} DoubtIsRequired(log: seq<Event>, id: string)
    requires Doubtful(log, id) || Outstanding(log)
    ensures Required(log)
    decreases |log|
  {
    hide LeavesDoubt, Tells;
    var last := log[|log| - 1];
    if !LeavesDoubt(last) && !last.body.LedgerRepairRecorded? && !last.body.ReconciliationCompleted? {
      assert Doubtful(log, id) ==> Doubtful(log[..|log| - 1], id);
      DemandsDoubt(last);
      DoubtIsRequired(log[..|log| - 1], id);
    }
  }

  lemma DemandsDoubt(e: Event)
    ensures e.body.ReconciliationRequired? ==> LeavesDoubt(e)
  {
  }
}
