/**
 What a session acts on: the ledger it appends to and the broker calls it makes. A run of the program may
 end at any effect; what is durable then is what a later run starts from.
*/
module SessionWorld {
  import opened Base
  import OSM = OrderStateMachine
  import Risk
  import opened OrderSimilarity
  import opened Replay
  import opened SessionAgreement

  /** What becomes of one effect. */
  datatype Fate =
    | Done          // it happens
    | NotDone       // it is refused; the ledger stays usable
    | Broken        // the write fails before a byte of it is readable
    | HalfDone      // the write fails although the record is in the file
    | DiesBefore    // the process ends before the effect
    | DiesAfter     // the process ends after it

  /** A request that reached the broker: its intent and order, where its chain of events starts in the ledger,
      how long the ledger was, and the authority generations of its preparation and of the call. */
  datatype Call = Call(
    intent: Risk.Intent, orderId: string, chain: nat, at: nat, prepared: nat, called: nat, powers: Powers, ready: bool)

  /** What a session could do when it decided on an intent. */
  datatype Powers = Powers(
    sessionId: string, strategy: Option<(string, string)>, ready: bool, killSwitch: bool, stopping: bool, safetyStopped: bool,
    reconciliationRequired: bool)

  /** An intent of this session, and of its strategy once it has one. Anything but a cancellation needs a session that
      is ready and under no stop. */
  predicate Permits(p: Powers, intent: Risk.Intent) {
    && intent.sessionId == p.sessionId
    && (p.strategy.Some? ==> p.strategy.value == (intent.strategyId, intent.strategyRunId))
    && (!intent.action.Cancel? ==> p.ready && !p.killSwitch && !p.stopping && !p.safetyStopped && !p.reconciliationRequired)
  }

  // ---------------------------------------------------------------- the chain of events before a call

  predicate IsAttempt(e: Event, intent: Risk.Intent) {
    match intent.action
    case Place =>
      && e.body.SubmissionStarted? && intent.quantity == Some(e.body.quantity) && intent.side == Some(e.body.side)
      && intent.limitPrice == Some(e.body.limitPrice) && intent.instrument == e.body.instrument
    case Modify =>
      e.body.ModifyRequested? && intent.quantity == Some(e.body.quantity) && intent.limitPrice == Some(e.body.limitPrice)
    case Cancel => e.body.CancelRequested?
  }

  /** The four events of an approved intent stand in the ledger from `k` on; only a cancellation may go
      without a route. */
  predicate ChainAt(log: seq<Event>, k: nat, intent: Risk.Intent, orderId: string) {
    && k + 4 <= |log|
    && (forall j :: k <= j < k + 4 ==> log[j].intentId == Some(intent.intentId))
    && log[k].body.IntentReceived?
    && ((log[k + 1].body.MappingValidated? && log[k + 1].orderId == Some(orderId))
        || (log[k + 1].body.MappingRefused? && intent.action.Cancel?))
    && log[k + 2].body.RiskApproved? && log[k + 2].orderId == Some(orderId)
    && IsAttempt(log[k + 3], intent) && log[k + 3].orderId == Some(orderId)
  }

  /** Write-ahead: the chain was durable when the broker was called, by the authority that prepared it, which permitted
      the intent then; and but for a cancellation the session was ready. */
  predicate WriteAhead(log: seq<Event>, c: Call) {
    && c.at <= |log| && c.chain + 4 <= c.at && ChainAt(log, c.chain, c.intent, c.orderId)
    && c.prepared == c.called && Permits(c.powers, c.intent) && (c.ready || c.intent.action.Cancel?)
  }

  /** Every call was written ahead, and no intent was called for twice. */
  ghost predicate Orderly(log: seq<Event>, calls: seq<Call>) {
    && (forall i :: 0 <= i < |calls| ==> WriteAhead(log, calls[i]))
    && (forall i, j :: 0 <= i < j < |calls| ==> calls[i].intent.intentId != calls[j].intent.intentId)
  }

  /** The intents a ledger has received. */
  function ReceivedIn(log: seq<Event>): set<string> {
    if log == [] then {}
    else
      var last := log[|log| - 1];
      ReceivedIn(log[..|log| - 1]) + if last.body.IntentReceived? && last.intentId.Some? then {last.intentId.value} else {}
  }

  lemma {:induction false} ReceivedGrows(log: seq<Event>, e: Event)
    ensures ReceivedIn(log + [e]) == ReceivedIn(log) + if e.body.IntentReceived? && e.intentId.Some? then {e.intentId.value} else {}
  {
    assert (log + [e])[..|log|] == log;
  }

  lemma {:induction false} ReceivedAt(log: seq<Event>, k: nat)
    requires k < |log| && log[k].body.IntentReceived? && log[k].intentId.Some?
    ensures log[k].intentId.value in ReceivedIn(log)
  {
    if k < |log| - 1 {
      ReceivedAt(log[..|log| - 1], k);
    }
  }

  lemma ChainGrows(log: seq<Event>, e: Event, k: nat, intent: Risk.Intent, orderId: string)
    requires ChainAt(log, k, intent, orderId)
    ensures ChainAt(log + [e], k, intent, orderId)
  {
    hide IsAttempt;
  }

  lemma OrderlyGrows(log: seq<Event>, e: Event, calls: seq<Call>)
    requires Orderly(log, calls)
    ensures Orderly(log + [e], calls)
  {
    hide ChainAt;
    forall i | 0 <= i < |calls| ensures WriteAhead(log + [e], calls[i]) {
      ChainGrows(log, e, calls[i].chain, calls[i].intent, calls[i].orderId);
    }
  }

  /** A call for an intent is a call for one the ledger has received. */
  lemma CalledWasReceived(log: seq<Event>, calls: seq<Call>, i: nat)
    requires Orderly(log, calls) && i < |calls|
    ensures calls[i].intent.intentId in ReceivedIn(log)
  {
    hide IsAttempt;
    assert WriteAhead(log, calls[i]);
    ReceivedAt(log, calls[i].chain);
  }

  /** One more call, for an intent not called for before. */
  lemma OrderlyCall(log: seq<Event>, calls: seq<Call>, c: Call)
    requires Orderly(log, calls) && WriteAhead(log, c)
    requires forall i :: 0 <= i < |calls| ==> calls[i].intent.intentId != c.intent.intentId
    ensures Orderly(log, calls + [c])
  {
    hide WriteAhead;
  }

  // ---------------------------------------------------------------- replay knows every received intent

  /** Replay forgets no intent, and learns every one received. */
  lemma {:induction false} ReplayLearns(s: State, sequence: nat, e: Event)
    requires ReplayRecord(s, sequence, e).Ok?
    ensures s.intents.Keys <= ReplayRecord(s, sequence, e).value.intents.Keys
    ensures e.body.IntentReceived? && e.intentId.Some? ==> e.intentId.value in ReplayRecord(s, sequence, e).value.intents
  {
    hide Booked, Submit, Routed, EvidenceOf, DispositionOf;
    var sourced := RecordSource(s, e).value;
    if HoldsEvidence(e) {
      EvidenceLearns(sourced, e);
      assert !e.body.IntentReceived? by { QuietHoldsNone(e); }
    } else {
      NoticeLearns(sourced, sequence, e);
    }
  }

  lemma {:induction false} EvidenceLearns(s: State, e: Event)
    requires EvidenceOf(e).Some? && ReplayEvidence(s, e).Ok?
    ensures s.intents.Keys <= ReplayEvidence(s, e).value.intents.Keys
  {
    hide Booked, EvidenceOf, DispositionOf;
  }

  lemma {:induction false} NoticeLearns(s: State, sequence: nat, e: Event)
    requires ReplayNotice(s, sequence, e).Ok?
    ensures s.intents.Keys <= ReplayNotice(s, sequence, e).value.intents.Keys
    ensures e.body.IntentReceived? && e.intentId.Some? ==> e.intentId.value in ReplayNotice(s, sequence, e).value.intents
  {
    hide Submit, Routed, Told, Decided;
    ToldKeepsKeys(s.intents, e);
    var decision := if e.body.RiskApproved? || e.body.RiskRejected? then e.body.decision else "";
    DecidedKeepsKeys(s.intents, e, decision);
    if Decided(s.intents, e, decision).Ok? {
      ToldKeepsKeys(Decided(s.intents, e, decision).value, e);
    }
  }

  lemma ToldKeepsKeys(intents: Intents, e: Event)
    ensures forall disposition, ambiguous :: Told(intents, e, disposition, ambiguous).Ok? ==>
              Told(intents, e, disposition, ambiguous).value.Keys == intents.Keys
  {
  }

  lemma DecidedKeepsKeys(intents: Intents, e: Event, decision: string)
    ensures Decided(intents, e, decision).Ok? ==> Decided(intents, e, decision).value.Keys == intents.Keys
  {
  }

  /** A replayed ledger holds every intent it received. */
  lemma {:induction false} ReplayKnowsReceived(log: seq<Event>)
    requires ReplayLedger(log).Ok?
    ensures ReceivedIn(log) <= ReplayLedger(log).value.intents.Keys
    decreases |log|
  {
    hide ReplayRecord;
    if log != [] {
      var n := |log| - 1;
      ReplayKnowsReceived(log[..n]);
      ReplayLearns(ReplayLedger(log[..n]).value, |log|, log[n]);
    }
  }

  /** Replay of a longer ledger goes on from where it was, if it got there. */
  lemma ReplayGoesOn(log: seq<Event>, e: Event)
    ensures ReplayLedger(log).Err? ==> ReplayLedger(log + [e]).Err?
    ensures ReplayLedger(log).Ok? ==>
              ReplayLedger(log + [e]) == ReplayRecord(ReplayLedger(log).value, |log| + 1, e)
  {
    hide ReplayRecord;
    assert (log + [e])[..|log|] == log;
  }

  // ---------------------------------------------------------------- what replay keeps of attempts and sources

  /** The attempts the rate rule counts. */
  predicate TimesAttempt(e: Event) {
    e.body.SubmissionStarted? || e.body.ModifyRequested?
  }

  /** The times of the attempts a ledger holds. */
  function AttemptTimes(log: seq<Event>): seq<int64> {
    if log == [] then []
    else
      var last := log[|log| - 1];
      AttemptTimes(log[..|log| - 1]) + if TimesAttempt(last) then [last.timestamp] else []
  }

  lemma AttemptTimesGrow(log: seq<Event>, e: Event)
    ensures AttemptTimes(log + [e]) == AttemptTimes(log) + if TimesAttempt(e) then [e.timestamp] else []
    ensures !TimesAttempt(e) ==> AttemptTimes(log + [e]) == AttemptTimes(log)
  {
    assert (log + [e])[..|log|] == log;
  }

  /** The fingerprints replay holds after an event. */
  function PrintsAfter(prints: map<string, string>, e: Event): map<string, string> {
    match e.source
    case None => prints
    case Some(source) => prints[source.updateId := source.fingerprint]
  }

  /** Replay takes the time of an attempt, and the fingerprint of a source. */
  lemma {:induction false} RecordKeepsTimes(s: State, sequence: nat, e: Event)
    requires ReplayRecord(s, sequence, e).Ok?
    ensures var next := ReplayRecord(s, sequence, e).value;
            && next.attempts == s.attempts + (if TimesAttempt(e) then [e.timestamp] else [])
            && next.fingerprints == PrintsAfter(s.fingerprints, e)
  {
    hide Booked, Informed, EvidenceOf, Told, Decided, Completed, ReplayEvidence, ReplayNotice;
    var sourced := RecordSource(s, e).value;
    if HoldsEvidence(e) {
      EvidenceKeepsTimes(sourced, e);
    } else {
      NoticeKeepsTimes(sourced, sequence, e);
    }
  }

  lemma SubmissionHoldsNone(e: Event)
    ensures HoldsEvidence(e) ==> !e.body.SubmissionStarted?
    ensures e.body.ModifyRequested? ==> HoldsEvidence(e)
  {
  }

  lemma {:induction false} EvidenceKeepsTimes(s: State, e: Event)
    requires HoldsEvidence(e) && ReplayEvidence(s, e).Ok?
    ensures var next := ReplayEvidence(s, e).value;
            && next.attempts == s.attempts + (if TimesAttempt(e) then [e.timestamp] else [])
            && next.fingerprints == s.fingerprints
  {
    SubmissionHoldsNone(e);
    hide EvidenceOf, HoldsEvidence, Booked, Informed;
  }

  lemma {:induction false} NoticeKeepsTimes(s: State, sequence: nat, e: Event)
    requires ReplayNotice(s, sequence, e).Ok? && !HoldsEvidence(e)
    ensures var next := ReplayNotice(s, sequence, e).value;
            && next.attempts == s.attempts + (if TimesAttempt(e) then [e.timestamp] else [])
            && next.fingerprints == s.fingerprints
  {
    SubmissionHoldsNone(e);
    hide EvidenceOf, HoldsEvidence, Told, Decided, ReceivedIntents, Submit, Routed;
    if e.body.SubmissionStarted? {
      hide ReplayReceived, ReplayMapped, ReplayDecision, ReplayRequired, UpdateIntent, Completed;
    } else {
      hide ReplaySubmission;
    }
  }

  /** A replayed ledger's attempts are those it holds. */
  lemma {:induction false} ReplayCountsAttempts(log: seq<Event>)
    requires ReplayLedger(log).Ok?
    ensures ReplayLedger(log).value.attempts == AttemptTimes(log)
    decreases |log|
  {
    hide ReplayRecord;
    if log != [] {
      var n := |log| - 1;
      ReplayCountsAttempts(log[..n]);
      RecordKeepsTimes(ReplayLedger(log[..n]).value, |log|, log[n]);
    }
  }

  // ---------------------------------------------------------------- the world

  class World {
    const fates: nat -> Fate
    var effects: nat
    var log: seq<Event>
    var alive: bool
    var open: bool
    ghost var calls: seq<Call>
    ghost var owner: object?

    constructor (fates: nat -> Fate)
      ensures log == [] && alive && open && calls == [] && owner == null
      ensures Orderly(log, calls)
    {
      this.fates := fates;
      effects, log, alive, open, calls, owner := 0, [], true, true, [], null;
    }

    /** The process lives, its ledger is open, and nothing will fail from here on. */
    ghost predicate Healthy()
      reads this
    {
      alive && open && forall k :: k >= effects ==> fates(k).Done?
    }

    /** Appends to the ledger, once it is open and as long as the process lives. */
    method Append(e: Event) returns (b: Boundary)
      modifies this`effects, this`log, this`alive, this`open
      ensures log == old(log) || log == old(log) + [e]
      ensures b.Durable? ==> log == old(log) + [e] && alive && open
      ensures alive ==> old(alive)
      ensures open ==> old(open)
      ensures !old(alive) || !old(open) ==> log == old(log) && !b.Durable?
      ensures !b.Durable? && log != old(log) ==> !(alive && open)
      ensures old(Healthy()) ==> b.Durable? && Healthy()
    {
      if !alive {
        return Uncertain;
      }
      if !open {
        return NotWritten;
      }
      var fate := fates(effects);
      effects := effects + 1;
      match fate
      case Done =>
        log := log + [e];
        b := Durable;
      case NotDone => b := NotWritten;
      case Broken =>
        open := false;
        b := Uncertain;
      case HalfDone =>
        log := log + [e];
        open := false;
        b := Uncertain;
      case DiesBefore =>
        alive := false;
        b := Uncertain;
      case DiesAfter =>
        log := log + [e];
        alive := false;
        b := Uncertain;
    }

    /** A call to the broker. It must have been written ahead, and be the intent's first. */
    method CallBroker(ghost c: Call)
      requires Orderly(log, calls)
      requires alive ==> WriteAhead(log, c) && forall i :: 0 <= i < |calls| ==> calls[i].intent.intentId != c.intent.intentId
      modifies this`effects, this`calls, this`alive
      ensures calls == old(calls) || (old(alive) && calls == old(calls) + [c])
      ensures alive ==> calls == old(calls) + [c]
      ensures old(Healthy()) ==> Healthy()
      ensures Orderly(log, calls)
      ensures alive ==> old(alive)
    {
      if alive {
        var fate := fates(effects);
        effects := effects + 1;
        if fate != DiesBefore {
          OrderlyCall(log, calls, c);
          calls := calls + [c];
        }
        alive := fate != DiesBefore && fate != DiesAfter;
      }
    }

    /** A new process finds the durable ledger. */
    method Restart()
      modifies this`alive, this`open
      ensures alive && open
    {
      alive, open := true, true;
    }
  }
}
