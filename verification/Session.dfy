/**
 The execution session: an intent is checked, written to the ledger step by step, and sent to the broker;
 the broker's answers and updates come back through the order machine.

 What the environment decides is a parameter: the clock, the route, what the broker's queries show
 (`view`, nothing when a query throws), and the broker's answer (nothing when the call throws). Whether a
 write succeeds, and where the process ends, is the world's choice. One clock reading serves a call,
 except that an attempt has its own.
*/
module Session {
  import opened Base
  import OSM = OrderStateMachine
  import Risk
  import PaperBroker
  import opened Mirror
  import opened OrderSimilarity
  import opened Replay
  import opened ReplayBooks
  import opened SessionAgreement
  import opened SessionWorld
  import opened RateLimit

  type Mutation = PaperBroker.Mutation

  datatype Update = Update(
    sequence: uint64, updateId: string, sessionLost: bool, strategyId: string, strategyRunId: string,
    intentId: string, orderId: string, kind: OSM.EventKind, brokerOrderId: Option<string>,
    cumulative: Option<uint64>, acceptedQuantity: Option<uint64>, acceptedLimitPrice: Option<uint64>,
    fillPrice: Option<uint64>, provenance: Option<bool>, evidenceTime: Option<int64>)  // provenance: is it a known one

  /** The digests and texts the session writes. */
  datatype Texts = Texts(
    intent: Risk.Intent -> string, decision: (Risk.Intent, Risk.Audit) -> string, mutation: Mutation -> string,
    update: Update -> string)

  datatype IntentResult = IntentResult(decision: string, answer: Option<Mutation>, duplicate: bool, stopped: bool)

  /** What the session itself adds to a snapshot. */
  datatype Authority = Authority(stopped: bool, ready: bool, reconciliationRequired: bool, correlated: bool)

  /** The snapshot a decision is made on: what the broker shows, and what the session knows. */
  function Seen(view: Risk.Snapshot, a: Authority, route: Option<Risk.Route>, times: seq<int64>, now: Risk.instant): Risk.Snapshot {
    view.(now := now, killSwitch := a.stopped, ready := a.ready,
          reconciliationRequired := a.reconciliationRequired || view.reconciliationRequired,
          idempotency := Risk.NewIntent, correlated := a.correlated, route := route, recentOrderTimes := times)
  }

  /** What a preparation leaves: a result, or a ticket for one submission. */
  datatype Preparation = Malformed | Answered(result: IntentResult) | ToSubmit(ticket: nat)

  /** The state behind a ticket. */
  datatype Prepared = Prepared(
    intent: Risk.Intent, route: Option<Risk.Route>, decision: Risk.Audit, orderId: string, generation: nat, powers: Powers)

  datatype Standing = NewIntent | DuplicateIntent | AmbiguousIntent | ConflictingIntent | StoreStopped

  /** But for a cancellation, the broker's reports leave no doubt. */
  predicate ViewPermits(view: Option<Risk.Snapshot>, intent: Risk.Intent) {
    !intent.action.Cancel? ==> view.Some? && !view.value.reconciliationRequired
  }

  /** The shape every parsed intent has. */
  predicate WellFormedIntent(intent: Risk.Intent) {
    && intent.expiresAt > intent.createdAt
    && if intent.action.Cancel? then
         && intent.target.Some? && intent.side.None? && intent.quantity.None? && intent.limitPrice.None?
       else
         && intent.side.Some? && intent.quantity.Some? && intent.quantity.value != 0
         && intent.limitPrice.Some? && intent.limitPrice.value != 0 && intent.standardTerms
         && (intent.action.Place? <==> intent.target.None?)
  }

  function OrderFor(intent: Risk.Intent): string {
    match intent.target
    case Some(id) => id
    case None => OrderIdOf(intent.intentId)
  }

  /** The snapshot of a decision made without looking at the broker. */
  function BlankSnapshot(now: Risk.instant): Risk.Snapshot {
    Risk.Snapshot(now, false, false, false, Risk.NewIntent, true, Risk.Missing, None, false, 0, 0, Risk.Unknown, None,
                  0, 0, 0, 0, false, false, [], [], None, None, false, false, None)
  }

  // ---------------------------------------------------------------- events

  function Notice(now: int64, intentId: Option<string>, orderId: Option<string>, body: Body): Event {
    Event("", now, intentId, orderId, None, body)
  }

  /** The event of a submission carries the id under which its order takes it. */
  function SubmissionEventId(intentId: string): string {
    "#s" + intentId
  }

  function AttemptEvent(intent: Risk.Intent, orderId: string, now: int64): Event
    requires WellFormedIntent(intent)
  {
    var body := match intent.action
      case Place => SubmissionStarted(intent.instrument, intent.side.value, intent.quantity.value, intent.limitPrice.value)
      case Modify => ModifyRequested(RequestId(intent.intentId), intent.quantity.value, intent.limitPrice.value)
      case Cancel => CancelRequested(RequestId(intent.intentId));
    Event(if intent.action.Place? then SubmissionEventId(intent.intentId) else AttemptId(intent.intentId), now,
          Some(intent.intentId), Some(orderId), None, body)
  }

  lemma SubmissionIdIsForeign(intentId: string)
    ensures !Own(SubmissionEventId(intentId))
  {
    assert SubmissionEventId(intentId)[1] == 's';
  }

  /** The broker's answer as the session reads it: anything about another order counts as unclear. */
  function ReadAnswer(answer: Option<Mutation>, orderId: string): Mutation {
    if answer.Some? && answer.value.orderId == orderId then answer.value
    else PaperBroker.Mutation(PaperBroker.Unclear, orderId, None, Some(PaperBroker.OtherError), false, None, None)
  }

  function OutcomeId(intentId: string, m: Mutation): string {
    m.correlation.GetOr("#o" + intentId)
  }

  /** What a broker's answer means for the order. */
  function OutcomeBody(intent: Risk.Intent, m: Mutation): Body {
    var id := OutcomeId(intent.intentId, m);
    if m.verdict.Acknowledged? && intent.action.Place? && m.correlation.Some? then BrokerAcknowledged(id, m.correlation.value)
    else if m.verdict.Acknowledged? && intent.action.Modify? && intent.quantity.Some? && intent.limitPrice.Some?
            && m.acceptedQuantity == intent.quantity && m.acceptedPrice == intent.limitPrice then
      Modified(id, intent.quantity.value, intent.limitPrice.value)
    else if m.verdict.Acknowledged? && intent.action.Cancel? && m.terminal then Cancelled(id)
    else if m.verdict.Refused? then
      match intent.action
      case Place => BrokerRejected(id)
      case Modify => ModifyRejected(id)
      case Cancel => CancelRejected(id)
    else AmbiguousSubmission(id)
  }

  /** The answer as it is recorded: with its id, and with an error when it is one. */
  function RecordedAnswer(intent: Risk.Intent, m: Mutation): Mutation {
    var recorded := m.(correlation := Some(OutcomeId(intent.intentId, m)));
    var body := OutcomeBody(intent, m);
    if body.BrokerAcknowledged? || body.Modified? || body.Cancelled? then recorded
    else recorded.(error := Some(m.error.GetOr(PaperBroker.OtherError)))
  }

  function OutcomeEvent(intent: Risk.Intent, orderId: string, m: Mutation, fingerprint: string, now: int64): Event {
    Event("", now, Some(intent.intentId), Some(orderId), Some(Source(0, fingerprint, OutcomeId(intent.intentId, m))),
          OutcomeBody(intent, m))
  }

  /** The outcome leaves no doubt, and its order takes it. */
  predicate Takes(orders: map<string, OSM.Order>, orderId: string, e: Event)
  {
    && EvidenceOf(e).Some? && !e.body.AmbiguousSubmission? && orderId in orders
    && OSM.ApplyOrderUpdate(orders[orderId], EvidenceOf(e).value).error.None?
  }

  // ---------------------------------------------------------------- updates

  function UpdateEvidence(u: Update): OSM.Evidence {
    OSM.Evidence(u.kind, u.updateId, u.brokerOrderId, u.cumulative, u.acceptedQuantity, u.acceptedLimitPrice)
  }

  /** The event body of an update, or nothing when the update lacks what its kind needs. */
  function UpdateBody(u: Update, state: OSM.OrderState): Option<Body> {
    match u.kind
    case BrokerAcknowledged => if u.brokerOrderId.None? then None else Some(BrokerAcknowledged(u.updateId, u.brokerOrderId.value))
    case FillUpdate =>
      if u.cumulative.None? || u.fillPrice.None? || u.provenance != Some(true) || u.evidenceTime.None?
         || u.evidenceTime.value < 0 then None
      else Some(Filled(state.Filled?, u.updateId, u.cumulative.value))
    case ModifyAccepted =>
      if u.acceptedQuantity.None? || u.acceptedLimitPrice.None? then None
      else Some(Modified(u.updateId, u.acceptedQuantity.value, u.acceptedLimitPrice.value))
    case ModifyRejected => Some(ModifyRejected(u.updateId))
    case CancelAccepted => Some(Cancelled(u.updateId))
    case CancelRejected => Some(CancelRejected(u.updateId))
    case SubmissionAmbiguous => Some(AmbiguousSubmission(u.updateId))
    case BrokerRejected => Some(BrokerRejected(u.updateId))
    case _ => None
  }

  /** An update the ledger records in full: under an id of the broker's, with no more than its kind needs. */
  predicate Faithful(u: Update) {
    && !Own(u.updateId)
    && (u.brokerOrderId.Some? ==> u.kind.BrokerAcknowledged?)
    && (u.cumulative.Some? ==> u.kind.FillUpdate?)
    && (u.acceptedQuantity.Some? || u.acceptedLimitPrice.Some? ==> u.kind.ModifyAccepted?)
  }

  /** The broker answers under one of the session's own ids. */
  predicate AnswersAsUs(answer: Option<Mutation>) {
    answer.Some? && answer.value.correlation.Some? && Own(answer.value.correlation.value)
  }

  // ---------------------------------------------------------------- attempts

  /** What the order makes of the intent's attempt, or nothing when there is no such order. */
  function AttemptStep(orders: map<string, OSM.Order>, intent: Risk.Intent, orderId: string, e: Event): Option<OSM.Transition>
    requires WellFormedIntent(intent) && e == AttemptEvent(intent, orderId, e.timestamp)
  {
    if intent.action.Place? then
      Some(OSM.ApplyOrderUpdate(Replay.Prepared(orderId, e), OSM.Plain(OSM.SubmissionStartedEvent, e.eventId)))
    else if orderId in orders then
      Some(OSM.ApplyOrderUpdate(orders[orderId], LiveRequest(e.body, intent.intentId)))
    else None
  }

  /** The order took the intent's attempt. */
  predicate Attempting(before: map<string, OSM.Order>, orders: map<string, OSM.Order>, intent: Risk.Intent, orderId: string, time: int64) {
    && WellFormedIntent(intent)
    && var step := AttemptStep(before, intent, orderId, AttemptEvent(intent, orderId, time));
       step.Some? && step.value.error.None? && orders == before[orderId := step.value.order]
  }

  /** The order takes the intent's attempt. */
  predicate Attemptable(orders: map<string, OSM.Order>, intent: Risk.Intent, orderId: string, time: int64) {
    && WellFormedIntent(intent)
    && var step := AttemptStep(orders, intent, orderId, AttemptEvent(intent, orderId, time));
       step.Some? && step.value.error.None?
  }

  /** The decision and the attempt stand in the ledger. */
  predicate Pursued(before: seq<Event>, log: seq<Event>, intent: Risk.Intent, orderId: string) {
    var n := |before|;
    && |log| == n + 2 && log[..n] == before
    && log[n].body.RiskApproved? && log[n].orderId == Some(orderId) && log[n].intentId == Some(intent.intentId)
    && IsAttempt(log[n + 1], intent) && log[n + 1].orderId == Some(orderId) && log[n + 1].intentId == Some(intent.intentId)
  }

  // ---------------------------------------------------------------- what a faultless step needs

  /** The route is the one recorded for the order, if one is. */
  predicate TokenFits(tokens: map<string, string>, orderId: string, route: Option<Risk.Route>) {
    route.Some? && orderId in tokens ==> tokens[orderId] == route.value.token
  }

  /** What was recorded under the id, if anything, is the same. */
  predicate PrintFits(prints: map<string, string>, id: string, fingerprint: string) {
    id in prints ==> prints[id] == fingerprint
  }

  predicate DecisionFits(held: Option<string>, decision: string) {
    held.None? || held == Some(decision)
  }

  /** The order has the owner that the intent expects. */
  predicate Owned(orders: map<string, OSM.Order>, owners: map<string, string>, intent: Risk.Intent, orderId: string) {
    if intent.action.Place? then orderId in owners ==> owners[orderId] == intent.intentId
    else orderId in orders ==> orderId in owners
  }

  /** The broker answers clearly, under an id that is not the session's and not one of another answer, and the
      order takes the answer. */
  predicate AnswerFits(orders: map<string, OSM.Order>, prints: map<string, string>, texts: Texts, intent: Risk.Intent,
                       orderId: string, m: Mutation, now: int64) {
    var fingerprint, id := texts.mutation(RecordedAnswer(intent, m)), OutcomeId(intent.intentId, m);
    !Own(id) && PrintFits(prints, id, fingerprint) && Takes(orders, orderId, OutcomeEvent(intent, orderId, m, fingerprint, now))
  }

  /** The order, intent and strategy an update names belong together. */
  predicate Correlated(live: State, strategy: Option<(string, string)>, u: Update) {
    && u.orderId in live.books.orders && u.intentId in live.intents
    && live.intents[u.intentId].orderId == Some(u.orderId)
    && strategy == Some((u.strategyId, u.strategyRunId))
    && live.intents[u.intentId].strategyId == u.strategyId && live.intents[u.intentId].strategyRunId == u.strategyRunId
  }

  /** An update that the session writes: it comes later than the last, for an order that takes it. */
  predicate Expected(live: State, strategy: Option<(string, string)>, u: Update) {
    && live.lastSequence < u.sequence && Correlated(live, strategy, u)
    && var step := OSM.ApplyOrderUpdate(live.books.orders[u.orderId], UpdateEvidence(u));
       step.error.None? && UpdateBody(u, step.order.state).Some?
  }

  /** The mirror took an update, on the first order of its id. */
  ghost predicate MirrorTook(before: Mirrored, after: Mirrored, u: Update, step: OSM.Transition) {
    exists i :: Find(before.orders, u.orderId) == Some(i) && i < |before.orders|
                && after == AfterUpdate(before, i, step.order, step.positionDelta, u.updateId, u.fillPrice.GetOr(0),
                                        if u.evidenceTime.Some? then u.evidenceTime.value else 0)
  }

  /** The live state once it has taken an update. */
  function Taken(live: State, u: Update, step: OSM.Transition, fingerprint: string): (s: State)
    ensures s.intents == live.intents && s.attempts == live.attempts && s.books == Advanced(live.books, u.orderId, step)
  {
    AfterBrokerEvent(live, u.orderId, step, u.sequence).(fingerprints := live.fingerprints[u.updateId := fingerprint])
  }

  /** The live state once it has taken updates in turn. */
  function TakenAll(live: State, texts: Texts, us: seq<Update>): State
    decreases |us|
  {
    if us == [] || us[0].orderId !in live.books.orders then live
    else
      var step := OSM.ApplyOrderUpdate(live.books.orders[us[0].orderId], UpdateEvidence(us[0]));
      TakenAll(Taken(live, us[0], step, texts.update(us[0])), texts, us[1..])
  }

  /** Such an update is recorded in full, is new or the same as before, is for an order in the mirror, and leaves the
      positions in range. */
  predicate UpdateFits(books: Books, prints: map<string, string>, mirrored: set<string>, u: Update, step: OSM.Transition,
                       fingerprint: string) {
    Faithful(u) && PrintFits(prints, u.updateId, fingerprint) && u.orderId in mirrored && PositionsFit(books, u.orderId, step)
  }

  /** Each of the updates fits the state that those before it lead to, up to one that is not expected. */
  predicate QueueFits(live: State, prints: map<string, string>, mirrored: set<string>, strategy: Option<(string, string)>,
                      texts: Texts, queue: seq<Update>)
    decreases |queue|
  {
    queue != [] && Expected(live, strategy, queue[0]) ==>
      var u := queue[0];
      var step := OSM.ApplyOrderUpdate(live.books.orders[u.orderId], UpdateEvidence(u));
      && UpdateFits(live.books, prints, mirrored, u, step, texts.update(u))
      && QueueFits(Taken(live, u, step, texts.update(u)), prints[u.updateId := texts.update(u)], mirrored, strategy, texts, queue[1..])
  }

  lemma QueueGoesOn(live: State, prints: map<string, string>, mirrored: set<string>, strategy: Option<(string, string)>,
                    texts: Texts, queue: seq<Update>)
    requires QueueFits(live, prints, mirrored, strategy, texts, queue) && queue != [] && Expected(live, strategy, queue[0])
    ensures var u := queue[0];
            var step := OSM.ApplyOrderUpdate(live.books.orders[u.orderId], UpdateEvidence(u));
            && UpdateFits(live.books, prints, mirrored, u, step, texts.update(u))
            && QueueFits(Taken(live, u, step, texts.update(u)), prints[u.updateId := texts.update(u)], mirrored, strategy, texts, queue[1..])
  {
  }

  // ---------------------------------------------------------------- tickets

  /** A prepared submission: its chain is durable, and its intent has not been called for. */
  ghost predicate Held(log: seq<Event>, calls: seq<Call>, p: Prepared, chain: nat, known: set<string>, generation: nat) {
    && ChainAt(log, chain, p.intent, p.orderId) && p.intent.intentId in known && p.generation <= generation
    && WellFormedIntent(p.intent) && (p.route.None? ==> p.intent.action.Cancel?)
    && NoCallFor(calls, p.intent.intentId) && Permits(p.powers, p.intent)
  }

  ghost predicate AllHeld(log: seq<Event>, calls: seq<Call>, tickets: map<nat, Prepared>, chains: map<nat, nat>,
                          known: set<string>, generation: nat, next: nat) {
    && chains.Keys == tickets.Keys
    && (forall t :: t in tickets ==> t < next && Held(log, calls, tickets[t], chains[t], known, generation))
    && (forall t, u :: t in tickets && u in tickets && t != u ==> tickets[t].intent.intentId != tickets[u].intent.intentId)
  }

  lemma HeldGrows(log: seq<Event>, e: Event, calls: seq<Call>, tickets: map<nat, Prepared>, chains: map<nat, nat>,
                  known: set<string>, more: set<string>, generation: nat, later: nat, next: nat)
    requires AllHeld(log, calls, tickets, chains, known, generation, next) && known <= more && generation <= later
    ensures AllHeld(log, calls, tickets, chains, more, later, next)
    ensures AllHeld(log + [e], calls, tickets, chains, more, later, next)
  {
    hide ChainAt, WellFormedIntent;
    forall t | t in tickets ensures Held(log + [e], calls, tickets[t], chains[t], more, later) {
      ChainGrows(log, e, chains[t], tickets[t].intent, tickets[t].orderId);
    }
  }

  ghost predicate NoTicketFor(tickets: map<nat, Prepared>, intentId: string) {
    forall t :: t in tickets ==> tickets[t].intent.intentId != intentId
  }

  ghost predicate NoCallFor(calls: seq<Call>, intentId: string) {
    forall i :: 0 <= i < |calls| ==> calls[i].intent.intentId != intentId
  }

  /** Nothing was prepared or called for an intent that is not known. */
  lemma UnknownIsUntouched(log: seq<Event>, calls: seq<Call>, tickets: map<nat, Prepared>, chains: map<nat, nat>,
                           known: set<string>, generation: nat, next: nat, intentId: string)
    requires Orderly(log, calls) && ReceivedIn(log) <= known && intentId !in known
    requires AllHeld(log, calls, tickets, chains, known, generation, next)
    ensures NoCallFor(calls, intentId) && NoTicketFor(tickets, intentId)
  {
    hide ChainAt, WellFormedIntent, WriteAhead;
    forall i | 0 <= i < |calls| ensures calls[i].intent.intentId != intentId {
      CalledWasReceived(log, calls, i);
    }
  }

  predicate IntentNoted(before: seq<Event>, log: seq<Event>, intentId: string) {
    var n := |before|;
    |log| == n + 1 && log[..n] == before && log[n].body.IntentReceived? && log[n].intentId == Some(intentId)
  }

  predicate RouteNoted(before: seq<Event>, log: seq<Event>, intentId: string, orderId: string, route: Option<Risk.Route>) {
    var n := |before|;
    && |log| == n + 1 && log[..n] == before && log[n].intentId == Some(intentId)
    && (if route.Some? then log[n].body.MappingValidated? && log[n].orderId == Some(orderId) else log[n].body.MappingRefused?)
  }

  /** An intent was received, and its route or the lack of one recorded. */
  predicate Announced(before: seq<Event>, log: seq<Event>, intentId: string, orderId: string, route: Option<Risk.Route>) {
    |log| == |before| + 2 && IntentNoted(before, log[..|before| + 1], intentId) && RouteNoted(log[..|before| + 1], log, intentId, orderId, route)
  }

  lemma AnnouncedFromParts(before: seq<Event>, received: seq<Event>, log: seq<Event>, intentId: string, orderId: string,
                           route: Option<Risk.Route>)
    requires IntentNoted(before, received, intentId) && RouteNoted(received, log, intentId, orderId, route)
    ensures Announced(before, log, intentId, orderId, route)
  {
    assert log[..|before| + 1] == received;
  }

  /** A new ticket for the approved intent. */
  predicate Ticketed(before: map<nat, Prepared>, tickets: map<nat, Prepared>, ticket: nat, intent: Risk.Intent, orderId: string,
                      generation: nat, verdict: Option<Risk.Audit>) {
    && ticket in tickets && ticket !in before && tickets == before[ticket := tickets[ticket]]
    && tickets[ticket].intent == intent && tickets[ticket].orderId == orderId && tickets[ticket].generation == generation
    && Some(tickets[ticket].decision) == verdict && Risk.Approved(tickets[ticket].decision)
  }

  /** Replay knows the intent, and no decision on it. */
  predicate NotDecided(replayed: State, intentId: string) {
    intentId in replayed.intents && replayed.intents[intentId].decision.None?
  }

  /** Replay knows the intent and its order's route, and no decision on it. */
  predicate AwaitsDecision(replayed: State, intentId: string, orderId: string, route: Option<Risk.Route>) {
    && NotDecided(replayed, intentId)
    && (route.Some? ==> orderId in replayed.books.tokens && replayed.books.tokens[orderId] == route.value.token)
  }

  /** A new ticket for an intent that was not known. */
  lemma HoldOne(log: seq<Event>, calls: seq<Call>, tickets: map<nat, Prepared>, chains: map<nat, nat>,
                known: set<string>, generation: nat, next: nat, p: Prepared, chain: nat)
    requires AllHeld(log, calls, tickets, chains, known, generation, next) && Held(log, calls, p, chain, known, generation)
    requires NoTicketFor(tickets, p.intent.intentId)
    ensures AllHeld(log, calls, tickets[next := p], chains[next := chain], known, generation, next + 1)
  {
    hide ChainAt, WellFormedIntent;
  }

  /** One more call: the prepared one, with the ledger at length `at`. */
  ghost predicate CalledFor(before: seq<Call>, calls: seq<Call>, p: Prepared, at: nat, ready: bool) {
    && |calls| == |before| + 1 && calls[..|before|] == before
    && calls[|before|].intent == p.intent && calls[|before|].orderId == p.orderId && calls[|before|].at == at
    && calls[|before|].powers == p.powers && calls[|before|].ready == ready
  }

  /** The chain of a ticket is written ahead of its call, which is its intent's first. */
  lemma HeldIsWrittenAhead(log: seq<Event>, calls: seq<Call>, tickets: map<nat, Prepared>, chains: map<nat, nat>,
                           known: set<string>, generation: nat, next: nat, t: nat, ready: bool)
    requires AllHeld(log, calls, tickets, chains, known, generation, next) && t in tickets
    ensures t in chains && NoCallFor(calls, tickets[t].intent.intentId)
    ensures tickets[t].generation == generation && (ready || tickets[t].intent.action.Cancel?) ==>
              WriteAhead(log, Call(tickets[t].intent, tickets[t].orderId, chains[t], |log|, tickets[t].generation, generation,
                                   tickets[t].powers, ready))
  {
    hide IsAttempt, WellFormedIntent, Permits;
  }

  /** Using a ticket up: the others are for other intents. */
  lemma ReleaseOne(log: seq<Event>, calls: seq<Call>, c: Call, tickets: map<nat, Prepared>, chains: map<nat, nat>,
                   known: set<string>, generation: nat, next: nat, t: nat)
    requires AllHeld(log, calls, tickets, chains, known, generation, next) && t in tickets
    ensures AllHeld(log, calls, tickets - {t}, chains - {t}, known, generation, next)
    ensures c.intent.intentId == tickets[t].intent.intentId ==>
              AllHeld(log, calls + [c], tickets - {t}, chains - {t}, known, generation, next)
  {
    hide ChainAt, WellFormedIntent;
  }

  /** The results of the intents whose ledger shows an outcome or a refusal. */
  function RebuiltOutcomes(intents: Intents): map<string, IntentResult> {
    map id | id in intents && intents[id].decision.Some? && (intents[id].outcome.Some? || intents[id].disposition.Declined?)
      :: IntentResult(intents[id].decision.value, None, false, intents[id].ambiguous)
  }

  /** An intent has a result again when its decision is recorded, with an answer to it or a refusal. */
  ghost predicate Rebuilt(intents: Intents, outcomes: map<string, IntentResult>) {
    forall id :: id in outcomes <==>
                 && id in intents && intents[id].decision.Some?
                 && (intents[id].outcome.Some? || intents[id].disposition == Disposition.Declined)
  }

  lemma OutcomesAreRebuilt(intents: Intents)
    ensures Rebuilt(intents, RebuiltOutcomes(intents))
  {
  }

  lemma NoTickets(log: seq<Event>, calls: seq<Call>, known: set<string>, generation: nat, next: nat)
    ensures AllHeld(log, calls, map[], map[], known, generation, next)
  {
  }

  // ---------------------------------------------------------------- the session

  class ExecutionSession {
    const world: World
    const sessionId: string
    const config: Risk.Config
    const texts: Texts
    const maximumQueue: nat
    var live: State
    var store: Intents
    var storeStopped: bool
    var started: bool
    var ready: bool
    var stopping: bool
    var correlationConflict: bool
    var killSwitch: bool
    var safetyStopped: bool
    var reconciliationRequired: bool
    var orderTimes: seq<int64>
    var lastUpdate: uint64
    var applied: map<string, string>
    var outcomes: map<string, IntentResult>
    var owners: map<string, string>
    var strategy: Option<(string, string)>
    var generation: nat
    var queue: seq<Update>
    var mirror: Mirrored
    var tickets: map<nat, Prepared>
    var nextTicket: nat

    /** Where the chain of each ticket starts in the ledger. */
    ghost var chains: map<nat, nat>

    /** What the ledger reconstructs, as long as nothing has gone wrong. */
    ghost var replayed: State

    /** Something went wrong: a write was not durable, an outcome was ambiguous, or the ledger took an event
        that replay refuses. */
    ghost var faulted: bool

    /** The ledger holds the chain of every call and ticket, and this session is the one that acts on it. */
    ghost predicate Safe()
      reads this`store, this`live, this`lastUpdate, this`tickets, this`chains, this`generation, this`nextTicket, world
    {
      && world.owner == this && store.Keys == live.intents.Keys && lastUpdate == live.lastSequence
      && Orderly(world.log, world.calls)
      && AllHeld(world.log, world.calls, tickets, chains, store.Keys, generation, nextTicket)
    }

    /** As long as the ledger can grow, every intent in it is known, but for those in `extra`. */
    ghost predicate Knows(extra: set<string>)
      reads this`store, world
    {
      world.alive && world.open ==> ReceivedIn(world.log) <= store.Keys + extra
    }

    ghost predicate Tracks()
      reads this`faulted, this`replayed, world
    {
      !faulted ==> world.alive && world.open && ReplayLedger(world.log) == Ok(replayed)
    }

    ghost predicate AgreesOn(known: set<string>)
      reads this`faulted, this`live, this`replayed
    {
      !faulted ==> AgreeOn(live, replayed, known)
    }

    /** The invariant between the steps of a preparation; `known` leaves out the intent being prepared. */
    ghost predicate ValidOn(known: set<string>)
      reads this`store, this`live, this`lastUpdate, this`tickets, this`chains, this`generation, this`nextTicket,
            this`faulted, this`replayed, world
    {
      Safe() && Knows({}) && Tracks() && AgreesOn(known) && known <= store.Keys
    }

    ghost predicate Valid()
      reads this`store, this`live, this`lastUpdate, this`tickets, this`chains, this`generation, this`nextTicket,
            this`faulted, this`replayed, world
    {
      ValidOn(store.Keys)
    }

    /** Authority only moves forward, and a fault is not forgotten. */
    twostate predicate Onward()
      reads this`generation, this`faulted, this`safetyStopped
    {
      old(generation) <= generation && (old(faulted) ==> faulted) && (old(safetyStopped) ==> safetyStopped)
    }

    /** No attempt was written. */
    twostate predicate Untimed()
      reads world
    {
      && AttemptTimes(world.log) == AttemptTimes(old(world.log))
      && (world.alive && world.open ==> old(world.alive) && old(world.open))
    }

    /** Replay has taken no event from the broker. */
    twostate predicate Unsourced()
      reads this`faulted, this`replayed
    {
      !faulted ==> replayed.fingerprints == old(replayed.fingerprints)
    }

    twostate predicate Forward()
      reads this`generation, this`faulted, this`safetyStopped, this`replayed, world
    {
      Onward() && Untimed() && Unsourced()
    }

    /** Nothing has gone wrong, and nothing will go wrong by itself. */
    ghost predicate Calm()
      reads this`faulted, world
    {
      !faulted && world.Healthy()
    }

    /** What the rate limit sees of the session. */
    ghost function PaceNow(): Pace
      reads this`live, this`orderTimes, world
    {
      Pace(AttemptTimes(world.log), live.attempts, orderTimes, world.alive && world.open)
    }

    /** A session over the ledger of a new process. The ledger must replay: opening it fails otherwise. The
        broker's answer inside a rebuilt outcome is left out. */
    constructor (world: World, sessionId: string, config: Risk.Config, texts: Texts, maximumQueue: nat, mirror: Mirrored, now: int64)
      requires world.alive && world.open && Orderly(world.log, world.calls)
      requires ReplayLedger(world.log).Ok?
      modifies world`owner
      ensures Valid() && this.world == world && this.config == config && this.texts == texts && this.sessionId == sessionId
      ensures live == ReplayLedger(world.log).value && tickets == map[] && generation == 0 && !ready && !started
      ensures !faulted <==> Agree(live, live)
      ensures queue == []
      ensures correlationConflict <==> !OneStrategy(live.intents) || exists i :: 0 <= i < |live.attempts| && live.attempts[i] > now
      ensures orderTimes == Within(live.attempts, Risk.WindowStart(config, now), now)
      ensures store == live.intents && storeStopped == live.safetyStopped && lastUpdate == live.lastSequence
              && applied == live.fingerprints && this.mirror == mirror
      ensures !stopping && !killSwitch && !safetyStopped && !reconciliationRequired
      ensures strategy.None? ==> forall id <- live.intents :: live.intents[id].strategyId == "" || live.intents[id].strategyRunId == ""
      ensures strategy.Some? ==>
                exists id :: id in live.intents && strategy == Some((live.intents[id].strategyId, live.intents[id].strategyRunId))
      ensures Rebuilt(live.intents, outcomes)
    {
      hide ReplayLedger, Orderly, ReceivedIn, AgreeOn, Within, AllHeld, Risk.WindowStart, RebuiltOutcomes, OneStrategy, Rebuilt;
      OutcomesAreRebuilt(ReplayLedger(world.log).value.intents);
      this.world, this.sessionId, this.config, this.texts, this.maximumQueue := world, sessionId, config, texts, maximumQueue;
      var state := ReplayLedger(world.log).value;
      var times := WindowTimes(state.attempts, Risk.WindowStart(config, now), now);
      var owners := Owners(state.intents);
      var bound, conflict := BoundStrategy(state.intents);
      var late := SomeLater(state.attempts, now);
      live, store, storeStopped := state, state.intents, state.safetyStopped;
      correlationConflict := conflict || late;
      started, ready, stopping, killSwitch, safetyStopped, reconciliationRequired := false, false, false, false, false, false;
      lastUpdate, applied := state.lastSequence, state.fingerprints;
      outcomes := RebuiltOutcomes(state.intents);
      generation, queue, this.mirror, tickets, nextTicket := 0, [], mirror, map[], 0;
      chains, replayed, faulted := map[], state, !Agree(state, state);
      orderTimes, this.owners, strategy := times, owners, bound;
      new;
      ReplayKnowsReceived(world.log);
      NoTickets(world.log, world.calls, store.Keys, generation, nextTicket);
      world.owner := this;
    }

    // -------------------------------------------------------------- writing

    /** Appends an event, and keeps track of what the ledger reconstructs. */
    method AppendEvent(e: Event) returns (b: Boundary)
      requires Safe() && Knows({}) && Tracks()
      modifies this`replayed, this`faulted, world`effects, world`log, world`alive, world`open
      ensures Safe() && Tracks() && (old(faulted) ==> faulted)
      ensures Knows(if b.Durable? && e.body.IntentReceived? && e.intentId.Some? then {e.intentId.value} else {})
      ensures world.log == old(world.log) || world.log == old(world.log) + [e]
      ensures b.Durable? ==> world.log == old(world.log) + [e] && world.alive && world.open && old(world.alive) && old(world.open)
      ensures !b.Durable? ==> faulted
      ensures (world.alive ==> old(world.alive)) && (world.open ==> old(world.open))
      ensures !b.Durable? ==> world.log == old(world.log) || !(world.alive && world.open)
      ensures !faulted ==> ReplayRecord(old(replayed), |world.log|, e) == Ok(replayed)
      ensures b.Durable? && !old(faulted) && ReplayRecord(old(replayed), |world.log|, e).Ok? ==> !faulted
      ensures old(world.Healthy()) ==> b.Durable? && world.Healthy()
      ensures (world.alive && world.open) || world.log != old(world.log) ==> old(world.alive) && old(world.open)
      ensures !faulted ==> replayed.fingerprints == PrintsAfter(old(replayed).fingerprints, e)
      ensures world.log == old(world.log) + [e] ==>
                AttemptTimes(world.log) == AttemptTimes(old(world.log)) + if TimesAttempt(e) then [e.timestamp] else []
      ensures (!TimesAttempt(e) ==> Untimed()) && (e.source.None? ==> Unsourced())
    {
      hide Orderly, AllHeld, ReplayRecord, ReceivedIn, ReplayLedger, AttemptTimes, TimesAttempt;
      ghost var before := world.log;
      b := world.Append(e);
      ReplayGoesOn(before, e);
      OrderlyGrows(before, e, world.calls);
      HeldGrows(before, e, world.calls, tickets, chains, store.Keys, store.Keys, generation, generation, nextTicket);
      ReceivedGrows(before, e);
      AttemptTimesGrow(before, e);
      if b.Durable? && !faulted && ReplayRecord(replayed, |world.log|, e).Ok? {
        RecordKeepsTimes(replayed, |world.log|, e);
        replayed := ReplayRecord(replayed, |world.log|, e).value;
      } else {
        faulted := true;
      }
    }

    /** Appends an event; anything but success revokes the session's authority. */
    method DurableEvent(e: Event) returns (b: Boundary)
      requires Safe() && Knows({}) && Tracks()
      modifies this`generation, this`ready, this`safetyStopped, this`reconciliationRequired, this`replayed, this`faulted,
               world`effects, world`log, world`alive, world`open
      ensures Safe() && Tracks() && Onward()
      ensures Knows(if b.Durable? && e.body.IntentReceived? && e.intentId.Some? then {e.intentId.value} else {})
      ensures world.log == old(world.log) || world.log == old(world.log) + [e]
      ensures b.Durable? ==>
                && world.log == old(world.log) + [e] && world.alive && world.open && old(world.alive) && old(world.open)
                && generation == old(generation) && ready == old(ready) && safetyStopped == old(safetyStopped)
                && reconciliationRequired == old(reconciliationRequired)
      ensures !b.Durable? ==>
                faulted && generation == old(generation) + 1 && !ready && safetyStopped && reconciliationRequired
      ensures !b.Durable? ==> world.log == old(world.log) || !(world.alive && world.open)
      ensures !faulted ==> ReplayRecord(old(replayed), |world.log|, e) == Ok(replayed)
      ensures b.Durable? && !old(faulted) && ReplayRecord(old(replayed), |world.log|, e).Ok? ==> !faulted
      ensures old(world.Healthy()) ==> b.Durable? && world.Healthy()
      ensures (world.alive && world.open) || world.log != old(world.log) ==> old(world.alive) && old(world.open)
      ensures !faulted ==> replayed.fingerprints == PrintsAfter(old(replayed).fingerprints, e)
      ensures world.log == old(world.log) + [e] ==>
                AttemptTimes(world.log) == AttemptTimes(old(world.log)) + if TimesAttempt(e) then [e.timestamp] else []
      ensures (!TimesAttempt(e) ==> Untimed()) && (e.source.None? ==> Unsourced())
      ensures world.alive ==> old(world.alive)
    {
      hide Orderly, AllHeld, ReplayRecord, ReceivedIn, ReplayLedger, AttemptTimes, TimesAttempt, PrintsAfter;
      b := AppendEvent(e);
      if !b.Durable? {
        HeldLater();
        generation := generation + 1;
        ready := false;
        safetyStopped := true;
        reconciliationRequired := true;
      }
    }

    /** Stops the session; the event is written if the ledger still takes it. */
    method ForceSafetyStop(now: int64, intentId: Option<string>, orderId: Option<string>, ghost known: set<string>)
      requires ValidOn(known)
      modifies this`generation, this`killSwitch, this`safetyStopped, this`ready, this`reconciliationRequired, this`replayed,
               this`faulted, world`effects, world`log, world`alive, world`open
      ensures ValidOn(known) && Forward()
      ensures (old(Calm()) ==> Calm()) && (!faulted ==> replayed.intents == old(replayed).intents)
      ensures Stands(old(PaceNow()), PaceNow())
      ensures generation == old(generation) + 1 && killSwitch && safetyStopped && !ready && reconciliationRequired
      ensures world.log == old(world.log) || world.log == old(world.log) + [Notice(now, intentId, orderId, SafetyStop)]
      ensures (world.alive ==> old(world.alive)) && (world.open ==> old(world.open))
      ensures |world.log| >= |old(world.log)| && world.log[..|old(world.log)|] == old(world.log)
    {
      hide Orderly, AllHeld, ReplayRecord, ReceivedIn, AgreeOn, ReplayLedger, AttemptTimes;
      HeldLater();
      generation := generation + 1;
      killSwitch, safetyStopped, ready, reconciliationRequired := true, true, false, true;
      var event := Notice(now, intentId, orderId, SafetyStop);
      ghost var before := replayed;
      var _ := AppendEvent(event);
      if !old(faulted) {
        QuietEventAgrees(live, before, known, |world.log|, event);
        SafetyStopReplays(before, |world.log|, event);
      }
    }

    /** Tickets outlive a change of authority. */
    lemma HeldLater()
      requires AllHeld(world.log, world.calls, tickets, chains, store.Keys, generation, nextTicket)
      ensures AllHeld(world.log, world.calls, tickets, chains, store.Keys, generation + 1, nextTicket)
    {
      hide ChainAt, WellFormedIntent;
      HeldGrows(world.log, Notice(0, None, None, SafetyStop), world.calls, tickets, chains, store.Keys, store.Keys,
                generation, generation + 1, nextTicket);
    }

    // -------------------------------------------------------------- preparing an intent

    method Check(intent: Risk.Intent, fingerprint: string) returns (standing: Standing)
      ensures standing.NewIntent? ==> intent.intentId !in store && !storeStopped
      ensures standing.StoreStopped? ==> intent.intentId !in store && storeStopped
      ensures standing.ConflictingIntent? <==> intent.intentId in store && store[intent.intentId].fingerprint != fingerprint
      ensures standing.DuplicateIntent? || standing.AmbiguousIntent? <==>
              intent.intentId in store && store[intent.intentId].fingerprint == fingerprint
    {
      if intent.intentId in store {
        var known := store[intent.intentId];
        if known.fingerprint != fingerprint {
          return ConflictingIntent;
        }
        return if known.ambiguous then AmbiguousIntent else DuplicateIntent;
      }
      standing := if storeStopped then StoreStopped else NewIntent;
    }

    /** Writes that the intent was received, and remembers it. */
    method Receive(intent: Risk.Intent, fingerprint: string, now: int64) returns (ok: bool)
      requires Valid() && intent.intentId !in store
      modifies this`generation, this`ready, this`safetyStopped, this`reconciliationRequired, this`replayed, this`faulted,
               this`store, this`live, world`effects, world`log, world`alive, world`open
      ensures ValidOn(old(store.Keys)) && Forward()
      ensures ok ==>
                && store.Keys == old(store.Keys) + {intent.intentId}
                && IntentNoted(old(world.log), world.log, intent.intentId)
                && (!faulted ==> NotDecided(replayed, intent.intentId))
                && NoCallFor(world.calls, intent.intentId) && NoTicketFor(tickets, intent.intentId)
      ensures !ok ==> store == old(store) && live == old(live) && faulted && safetyStopped
      ensures live.attempts == old(live.attempts) && live.books == old(live.books)
      ensures !faulted ==> replayed.books == old(replayed).books
      ensures (old(Calm()) ==> ok && Calm())
      ensures ok ==>
                && generation == old(generation) && ready == old(ready) && safetyStopped == old(safetyStopped)
                && reconciliationRequired == old(reconciliationRequired)
    {
      hide Orderly, AllHeld, ReplayRecord, ReceivedIn, AgreeOn, ReplayLedger, AttemptTimes, World.Healthy;
      ghost var known, before := store.Keys, replayed;
      if world.alive && world.open {
        UnknownIsUntouched(world.log, world.calls, tickets, chains, store.Keys, generation, nextTicket, intent.intentId);
      }
      hide NoCallFor, NoTicketFor;
      var e := Notice(now, Some(intent.intentId), None, IntentReceived(fingerprint, intent.strategyId, intent.strategyRunId));
      var b := DurableEvent(e);
      ok := b.Durable?;
      if !ok {
        return;
      }
      var state := IntentState(fingerprint, |world.log|, Disposition.Received, None, false, intent.strategyId,
                               intent.strategyRunId, None, None);
      if !old(faulted) {
        ReceivedAgrees(live, before, known, |world.log|, e, state);
        KnownToReplay(live.(intents := live.intents[intent.intentId := state]), replayed, known, intent.intentId);
      }
      Learn(intent.intentId, state);
    }

    /** Remembers an intent just received. */
    method Learn(id: string, state: IntentState)
      requires Safe() && Knows({id}) && Tracks() && id !in store
      requires !faulted ==> AgreeOn(live.(intents := live.intents[id := state]), replayed, store.Keys)
      modifies this`store, this`live
      ensures ValidOn(old(store.Keys)) && store.Keys == old(store.Keys) + {id} && live == old(live).(intents := live.intents)
    {
      hide Orderly, AllHeld, ReplayRecord, ReceivedIn, AgreeOn, ReplayLedger, AttemptTimes;
      ghost var known := store.Keys;
      HeldGrows(world.log, Notice(0, None, None, SafetyStop), world.calls, tickets, chains, known, known + {id}, generation, generation,
                nextTicket);
      store := store[id := state];
      live := live.(intents := live.intents[id := state]);
      assert store.Keys == known + {id};
    }

    /** Writes the intent's route, or that it has none. */
    method WriteRoute(intent: Risk.Intent, orderId: string, route: Option<Risk.Route>, now: int64, ghost known: set<string>)
      returns (ok: bool)
      requires ValidOn(known) && intent.intentId in store
      modifies this`generation, this`ready, this`safetyStopped, this`reconciliationRequired, this`replayed, this`faulted,
               world`effects, world`log, world`alive, world`open
      ensures ValidOn(known) && Forward()
      ensures ok ==> RouteNoted(old(world.log), world.log, intent.intentId, orderId, route)
      ensures ok && !faulted && NotDecided(old(replayed), intent.intentId) ==> AwaitsDecision(replayed, intent.intentId, orderId, route)
      ensures old(Calm()) && TokenFits(old(replayed).books.tokens, orderId, route) ==> Calm()
      ensures old(world.Healthy()) ==> ok
      ensures !ok ==> faulted && safetyStopped
      ensures ok ==>
                && generation == old(generation) && ready == old(ready) && safetyStopped == old(safetyStopped)
                && reconciliationRequired == old(reconciliationRequired)
    {
      hide Orderly, AllHeld, ReplayRecord, ReceivedIn, AgreeOn, ReplayLedger, AttemptTimes, World.Healthy;
      var e := if route.Some? then Notice(now, Some(intent.intentId), Some(orderId), MappingValidated(route.value.token))
               else Notice(now, Some(intent.intentId), None, MappingRefused);
      ghost var before := replayed;
      var b := DurableEvent(e);
      ok := b.Durable?;
      if !old(faulted) {
        KnownToReplay(live, before, known, intent.intentId);
        if route.Some? {
          MappingAgrees(live, before, known, |world.log|, e);
        } else {
          QuietEventAgrees(live, before, known, |world.log|, e);
        }
        if !faulted {
          RouteKeepsDecision(before, |world.log|, e, intent.intentId);
        }
      }
    }

    /** Writes the decision on the intent. */
    method WriteDecision(intent: Risk.Intent, orderId: string, audit: Risk.Audit, now: int64, ghost known: set<string>)
      returns (ok: bool)
      requires ValidOn(known) && intent.intentId in store
      modifies this`generation, this`ready, this`safetyStopped, this`reconciliationRequired, this`replayed, this`faulted,
               world`effects, world`log, world`alive, world`open
      ensures ValidOn(known) && Forward()
      ensures ok ==>
                && |world.log| == old(|world.log|) + 1 && world.log[..old(|world.log|)] == old(world.log)
                && var e := world.log[old(|world.log|)];
                   && e.intentId == Some(intent.intentId)
                   && (Risk.Approved(audit) ==> e.body.RiskApproved? && e.orderId == Some(orderId))
                   && (!Risk.Approved(audit) ==> e.body.RiskRejected?)
      ensures !faulted ==> replayed.books == old(replayed).books
      ensures ok && !old(faulted)
              && (intent.intentId in old(replayed).intents ==>
                    DecisionFits(old(replayed).intents[intent.intentId].decision, texts.decision(intent, audit))) ==>
                !faulted
      ensures old(world.Healthy()) ==> ok && world.Healthy()
      ensures !ok ==> faulted && safetyStopped
      ensures ok ==> generation == old(generation)
    {
      hide Orderly, AllHeld, ReplayRecord, ReceivedIn, AgreeOn, ReplayLedger, Risk.Approved, AttemptTimes, World.Healthy;
      var text := texts.decision(intent, audit);
      var e := if Risk.Approved(audit) then Notice(now, Some(intent.intentId), Some(orderId), RiskApproved(text))
               else Notice(now, Some(intent.intentId), None, RiskRejected(text));
      ghost var before := replayed;
      var b := DurableEvent(e);
      ok := b.Durable?;
      if !old(faulted) {
        KnownToReplay(live, before, known, intent.intentId);
        DecisionAgrees(live, before, known, |world.log|, e);
      }
    }

    /** The live state after the attempt took its order to `order`. */
    function AfterAttempt(intent: Risk.Intent, orderId: string, order: OSM.Order, time: int64): (s: State)
      reads this`live
      ensures s.intents == live.intents && s.lastSequence == live.lastSequence
      ensures s.attempts == if intent.action.Cancel? then live.attempts else live.attempts + [time]
    {
      live.(books := live.books.(orders := live.books.orders[orderId := order]),
            attempts := if intent.action.Cancel? then live.attempts else live.attempts + [time])
    }

    /** Both sides take a durable attempt. */
    lemma AttemptKeepsAgreement(intent: Risk.Intent, orderId: string, route: Option<Risk.Route>, e: Event, sequence: nat, known: set<string>)
      requires WellFormedIntent(intent) && e == AttemptEvent(intent, orderId, e.timestamp) && orderId == OrderFor(intent)
      requires AgreeOn(live, replayed, known) && intent.intentId in live.intents && intent.intentId !in known
      requires route.None? ==> intent.action.Cancel?
      requires route.Some? ==> orderId in replayed.books.tokens && replayed.books.tokens[orderId] == route.value.token
      requires AttemptStep(live.books.orders, intent, orderId, e).Some? && AttemptStep(live.books.orders, intent, orderId, e).value.error.None?
      ensures ReplayRecord(replayed, sequence, e).Ok?
      ensures AgreeOn(Routed(intent, orderId, route, AttemptStep(live.books.orders, intent, orderId, e).value.order, e.timestamp),
                      ReplayRecord(replayed, sequence, e).value, known + {intent.intentId})
    {
      hide ReplayRecord, AgreeOn, OSM.ApplyOrderUpdate, OrderIdOf, RequestId, AttemptId;
      if intent.action.Place? {
        SubmissionIdIsForeign(intent.intentId);
        SubmissionAgrees(live, replayed, known, sequence, e, intent.intentId, orderId);
      } else {
        RequestAgrees(live, replayed, known, sequence, e, intent.intentId, orderId);
        if route.Some? {
          SameTokenAgain(live, replayed, known, orderId, route.value.token);
        }
      }
    }

    /** Takes the attempt on the order, writes it, and remembers it; `stop` when the session must stop. */
    method WriteAttempt(intent: Risk.Intent, orderId: string, route: Option<Risk.Route>, time: int64, ghost known: set<string>)
      returns (ok: bool, stop: bool)
      requires ValidOn(known) && store.Keys == known + {intent.intentId} && intent.intentId !in known
      requires WellFormedIntent(intent) && orderId == OrderFor(intent) && (route.None? ==> intent.action.Cancel?)
      requires !faulted && route.Some? ==> orderId in replayed.books.tokens && replayed.books.tokens[orderId] == route.value.token
      modifies this`live, this`orderTimes, this`owners, this`generation, this`ready, this`safetyStopped,
               this`reconciliationRequired, this`replayed, this`faulted, world`effects, world`log, world`alive, world`open
      ensures Valid() && (ok ==> !stop) && Onward() && Unsourced()
      ensures !ok && !stop ==> safetyStopped
      ensures ok ==>
                && |world.log| == old(|world.log|) + 1 && world.log[..old(|world.log|)] == old(world.log)
                && IsAttempt(world.log[old(|world.log|)], intent)
                && world.log[old(|world.log|)].orderId == Some(orderId)
                && world.log[old(|world.log|)].intentId == Some(intent.intentId)
                && generation == old(generation)
      ensures StandsOrAdvances(config, old(PaceNow()), PaceNow(), intent.action.Cancel?, time)
      ensures old(Calm()) && Owned(old(live.books.orders), old(owners), intent, orderId) ==> Calm()
      ensures old(Calm()) && Owned(old(live.books.orders), old(owners), intent, orderId)
              && Attemptable(old(live.books.orders), intent, orderId, time) ==>
                ok
      ensures ok ==> Attempting(old(live.books.orders), live.books.orders, intent, orderId, time)
    {
      hide Orderly, AllHeld, ReplayRecord, ReceivedIn, AgreeOn, ReplayLedger, OSM.ApplyOrderUpdate, IsAttempt, Later,
           Risk.WindowStart, OrderFor, AttemptEvent, AttemptTimes, AttemptStep, World.Healthy;
      var e := AttemptEvent(intent, orderId, time);
      AttemptIsAttempt(intent, orderId, time);
      var step := AttemptStep(live.books.orders, intent, orderId, e);
      if step.None? || step.value.error.Some? {
        Settle(known, intent.intentId);
        return false, true;
      }
      ghost var before := replayed;
      if !faulted {
        AttemptKeepsAgreement(intent, orderId, route, e, |world.log| + 1, known);
      }
      var b := DurableEvent(e);
      if !b.Durable? {
        return false, false;
      }
      ok := RememberAttempt(intent, orderId, route, step.value.order, time);
      stop := !ok;
    }

    /** The live state after an attempt that was written and routed. */
    function Routed(intent: Risk.Intent, orderId: string, route: Option<Risk.Route>, order: OSM.Order, time: int64): (s: State)
      reads this`live
      ensures s.intents == live.intents && s.lastSequence == live.lastSequence
      ensures s.attempts == if intent.action.Cancel? then live.attempts else live.attempts + [time]
    {
      var next := AfterAttempt(intent, orderId, order, time);
      if route.Some? then next.(books := next.books.(tokens := next.books.tokens[orderId := route.value.token])) else next
    }

    /** An order has one owner: the intent that placed it. */
    method TakeOwnership(intent: Risk.Intent, orderId: string) returns (ok: bool)
      modifies this`owners
      ensures ok <==> if intent.action.Place? then orderId in old(owners) ==> old(owners)[orderId] == intent.intentId
                      else orderId in old(owners)
      ensures owners == if ok && intent.action.Place? then old(owners)[orderId := intent.intentId] else old(owners)
    {
      if intent.action.Place? {
        ok := orderId !in owners || owners[orderId] == intent.intentId;
        if ok {
          owners := owners[orderId := intent.intentId];
        }
      } else {
        ok := orderId in owners;
      }
    }

    /** The live state becomes one that agrees with the ledger. */
    method Adopt(next: State)
      requires Safe() && Knows({}) && Tracks() && next.intents == live.intents && next.lastSequence == live.lastSequence
      requires !faulted ==> AgreeOn(next, replayed, store.Keys)
      modifies this`live
      ensures Valid() && live == next
    {
      hide Orderly, AllHeld, ReplayRecord, ReceivedIn, AgreeOn, ReplayLedger;
      live := next;
    }

    /** The live state and the ledger need not agree from here on. */
    ghost method Fault()
      requires Safe() && Knows({}) && Tracks()
      modifies this`faulted
      ensures Valid() && Safe() && Knows({}) && Tracks() && faulted
    {
      hide Orderly, AllHeld, ReplayRecord, ReceivedIn, AgreeOn, ReplayLedger;
      faulted := true;
    }

    method KeepTime(time: int64)
      modifies this`orderTimes
      ensures orderTimes == Later(old(orderTimes) + [time], Risk.WindowStart(config, time))
    {
      orderTimes := LaterTimes(orderTimes + [time], Risk.WindowStart(config, time));
    }

    /** Remembers a durable attempt. */
    method RememberAttempt(intent: Risk.Intent, orderId: string, route: Option<Risk.Route>, order: OSM.Order, time: int64)
      returns (ok: bool)
      requires Safe() && Knows({}) && Tracks() && intent.intentId in store
      requires !faulted ==> AgreeOn(Routed(intent, orderId, route, order, time), replayed, store.Keys)
      modifies this`live, this`orderTimes, this`owners, this`faulted
      ensures Valid() && Forward()
      ensures Owned(old(live.books.orders), old(owners), intent, orderId)
              && (intent.action.Place? || orderId in old(live.books.orders)) ==>
                ok && (!old(faulted) ==> !faulted)
      ensures live.books.orders == old(live.books.orders)[orderId := order]
      ensures live.attempts == if intent.action.Cancel? then old(live.attempts) else old(live.attempts) + [time]
      ensures orderTimes == (if intent.action.Cancel? then old(orderTimes)
                             else Later(old(orderTimes) + [time], Risk.WindowStart(config, time)))
    {
      hide ValidOn, Safe, Knows, Tracks, AgreeOn, Later, Risk.WindowStart, AttemptTimes, World.Healthy;
      if !intent.action.Cancel? {
        KeepTime(time);
      }
      ok := TakeOwnership(intent, orderId);
      if ok {
        Adopt(Routed(intent, orderId, route, order, time));
      } else {
        Fault();
        Adopt(AfterAttempt(intent, orderId, order, time));
      }
    }

    /** What became of an intent, in the live state. */
    method NoteIntent(id: string, orderId: Option<string>, disposition: Disposition, ambiguous: bool)
      requires Valid() && id in store
      modifies this`live
      ensures Valid()
      ensures live == old(live).(intents := live.intents) && live.intents.Keys == old(live.intents.Keys)
    {
      hide Orderly, AllHeld, ReplayRecord, ReceivedIn, AgreeOn, ReplayLedger;
      var intent := live.intents[id].(disposition := disposition, ambiguous := ambiguous);
      if orderId.Some? {
        intent := intent.(orderId := orderId);
      }
      if !faulted {
        IntentDetailsAreFree(live, replayed, store.Keys, id, intent);
      }
      live := live.(intents := live.intents[id := intent]);
      assert live.intents.Keys == old(live.intents.Keys);
    }

    lemma Settle(known: set<string>, id: string)
      requires ValidOn(known) && store.Keys == known + {id}
      ensures Valid()
    {
      hide Orderly, AllHeld, ReplayRecord, ReceivedIn, AgreeOn, ReplayLedger;
      if !faulted {
        AgreementGrows(live, replayed, known, id);
      }
    }

    method NoteStore(id: string, orderId: Option<string>, disposition: Disposition, ambiguous: bool)
      requires Valid() && id in store
      modifies this`store
      ensures Valid() && store.Keys == old(store.Keys)
      ensures store == old(store)[id := store[id]] && store[id].disposition == disposition && store[id].ambiguous == ambiguous
      ensures store[id].fingerprint == old(store)[id].fingerprint
    {
      hide Orderly, AllHeld, ReplayRecord, ReceivedIn, AgreeOn, ReplayLedger;
      var intent := store[id].(disposition := disposition, ambiguous := ambiguous);
      if orderId.Some? {
        intent := intent.(orderId := orderId);
      }
      store := store[id := intent];
      assert store.Keys == old(store.Keys);
    }

    /** The result of an intent, for when it comes again. */
    method Conclude(id: string, result: IntentResult)
      requires Valid()
      modifies this`outcomes
      ensures Valid() && outcomes == old(outcomes)[id := result]
    {
      outcomes := outcomes[id := result];
    }

    /** The first approved intent binds the session to its strategy. */
    method Bind(intent: Risk.Intent, ghost known: set<string>)
      requires ValidOn(known)
      modifies this`strategy
      ensures ValidOn(known)
      ensures strategy == if old(strategy).None? then Some((intent.strategyId, intent.strategyRunId)) else old(strategy)
    {
      if strategy.None? {
        strategy := Some((intent.strategyId, intent.strategyRunId));
      }
    }

    /** What the session knows of an intent. */
    function Knowledge(intent: Risk.Intent): Authority
      reads this`killSwitch, this`stopping, this`safetyStopped, this`ready, this`reconciliationRequired, this`strategy
    {
      Authority(killSwitch || stopping || safetyStopped, ready, reconciliationRequired,
                intent.sessionId == sessionId
                && (strategy.Some? ==> strategy.value == (intent.strategyId, intent.strategyRunId)))
    }

    /** What the session may do. */
    function PowersNow(): Powers
      reads this`killSwitch, this`stopping, this`safetyStopped, this`ready, this`reconciliationRequired, this`strategy
    {
      Powers(sessionId, strategy, ready, killSwitch, stopping, safetyStopped, reconciliationRequired)
    }

    /** What the rules approve, the session's own fields permit. */
    lemma ApprovedIsPermitted(intent: Risk.Intent, view: Risk.Snapshot, route: Option<Risk.Route>, now: Risk.instant)
      ensures Risk.Approved(Risk.Evaluate(config, intent, Seen(view, Knowledge(intent), route, orderTimes, now))) ==>
                Permits(PowersNow(), intent) && (!intent.action.Cancel? ==> !view.reconciliationRequired)
    {
      hide Risk.Evaluate, Risk.Approved;
      Risk.ApprovedIff(config, intent, Seen(view, Knowledge(intent), route, orderTimes, now));
    }

    /** What the rules say of the intent, on what the broker shows. */
    function Verdict(intent: Risk.Intent, route: Option<Risk.Route>, view: Option<Risk.Snapshot>, now: Risk.instant): Option<Risk.Audit>
      reads this`killSwitch, this`stopping, this`safetyStopped, this`ready, this`reconciliationRequired, this`strategy,
            this`orderTimes
    {
      if view.None? then None
      else Some(Risk.Evaluate(config, intent, Seen(view.value, Knowledge(intent), route, orderTimes, now)))
    }

    /** The decision on an intent whose id another intent had. */
    function ConflictAudit(intent: Risk.Intent, now: Risk.instant): Risk.Audit
      reads this`ready
    {
      Risk.Evaluate(config, intent, BlankSnapshot(now).(ready := ready, idempotency := Risk.ConflictingIntent,
                                                        correlated := intent.sessionId == sessionId))
    }

    lemma ConflictIsRefused(intent: Risk.Intent, now: Risk.instant)
      ensures !Risk.Approved(ConflictAudit(intent, now))
    {
      hide Risk.Evaluate, Risk.Approved;
      ConflictIsRejected(config, intent, BlankSnapshot(now).(ready := ready, idempotency := Risk.ConflictingIntent,
                                                             correlated := intent.sessionId == sessionId));
    }

    /** The refusal of a conflicting intent is the decision its id has, if it has one. */
    ghost predicate ConflictFits(intent: Risk.Intent, now: Risk.instant)
      reads this`ready, this`replayed
    {
      intent.intentId in replayed.intents ==>
        DecisionFits(replayed.intents[intent.intentId].decision, texts.decision(intent, ConflictAudit(intent, now)))
    }

    /** What a preparation needs to be faultless: a new intent names the route and the owner its order has, and
        one that conflicts with another is refused as that was. */
    ghost predicate PreparationFits(intent: Risk.Intent, route: Option<Risk.Route>, now: Risk.instant)
      reads this`ready, this`replayed, this`store, this`live, this`owners
    {
      if intent.intentId in store then
        store[intent.intentId].fingerprint != texts.intent(intent.(intentId := "")) ==> ConflictFits(intent, now)
      else
        && TokenFits(replayed.books.tokens, OrderFor(intent), route)
        && Owned(live.books.orders, owners, intent, OrderFor(intent))
    }

    /** The rules refuse what the broker shows of the intent. */
    predicate Refuses(intent: Risk.Intent, route: Option<Risk.Route>, view: Option<Risk.Snapshot>, now: Risk.instant)
      reads this`killSwitch, this`stopping, this`safetyStopped, this`ready, this`reconciliationRequired, this`strategy,
            this`orderTimes
    {
      Verdict(intent, route, view, now).Some? && !Risk.Approved(Verdict(intent, route, view, now).value)
    }

    /** The rules approve what the broker shows of the intent. */
    predicate Approves(intent: Risk.Intent, route: Option<Risk.Route>, view: Option<Risk.Snapshot>, now: Risk.instant)
      reads this`killSwitch, this`stopping, this`safetyStopped, this`ready, this`reconciliationRequired, this`strategy,
            this`orderTimes
    {
      Verdict(intent, route, view, now).Some? && Risk.Approved(Verdict(intent, route, view, now).value)
    }

    /** A result without a broker call. */
    function Refusal(intent: Risk.Intent, now: Risk.instant): IntentResult
    {
      IntentResult(texts.decision(intent, Risk.Evaluate(config, intent, BlankSnapshot(now).(killSwitch := true))), None, false, true)
    }

    method StopStore()
      requires Valid()
      modifies this`storeStopped
      ensures Valid() && storeStopped
    {
      storeStopped := true;
    }

    /** An intent whose id is known: its result again, or a stop. */
    method Repeat(intent: Risk.Intent, standing: Standing, now: Risk.instant) returns (result: IntentResult)
      requires Valid() && intent.intentId in store
      modifies this`generation, this`killSwitch, this`safetyStopped, this`ready, this`reconciliationRequired, this`replayed,
               this`faulted, this`storeStopped, world`effects, world`log, world`alive, world`open
      ensures Valid() && Forward()
      ensures old(Calm()) && (standing.ConflictingIntent? ==> old(ConflictFits(intent, now))) ==> Calm()
      ensures !standing.ConflictingIntent? && intent.intentId in outcomes ==>
                result == outcomes[intent.intentId].(duplicate := true) && world.log == old(world.log)
                && generation == old(generation)
      ensures standing.ConflictingIntent? || intent.intentId !in outcomes ==>
                generation > old(generation) && safetyStopped && result.stopped && result.answer.None?
    {
      hide ValidOn, AttemptTimes, World.Healthy, Risk.Evaluate, ConflictAudit;
      if !standing.ConflictingIntent? && intent.intentId in outcomes {
        return outcomes[intent.intentId].(duplicate := true);
      }
      if !standing.ConflictingIntent? {
        ForceSafetyStop(now, Some(intent.intentId), store[intent.intentId].orderId, store.Keys);
        return Refusal(intent, now).(duplicate := true);
      }
      var audit := ConflictAudit(intent, now);
      ForceSafetyStop(now, Some(intent.intentId), store[intent.intentId].orderId, store.Keys);
      StopStore();
      ConflictIsRefused(intent, now);
      var _ := WriteDecision(intent, "", audit, now, store.Keys);
      result := IntentResult(texts.decision(intent, audit), None, false, true);
    }

    /** Checks an intent, writes what becomes of it, and leaves a ticket for its one submission. */
    method PrepareIntent(intent: Risk.Intent, route: Option<Risk.Route>, view: Option<Risk.Snapshot>, now: Risk.instant, time: int64)
      returns (p: Preparation)
      requires Valid()
      modifies this`live, this`orderTimes, this`owners, this`killSwitch, this`generation, this`ready, this`safetyStopped,
               this`reconciliationRequired, this`replayed, this`faulted, this`outcomes, this`store, this`strategy,
               this`tickets, this`chains, this`nextTicket, this`storeStopped, world`effects, world`log, world`alive,
               world`open
      ensures Valid() && Onward() && Unsourced()
      ensures p.ToSubmit? ==>
                && Ticketed(old(tickets), tickets, p.ticket, intent, OrderFor(intent), generation, old(Verdict(intent, route, view, now)))
                && generation == old(generation)
                && intent.intentId !in old(store) && intent.intentId in store
      ensures p.ToSubmit? ==>
                && tickets[p.ticket].powers == old(PowersNow())
                && intent.sessionId == sessionId
                && (old(strategy).Some? ==> old(strategy).value == (intent.strategyId, intent.strategyRunId))
                && (!intent.action.Cancel? ==>
                      && old(ready) && !old(killSwitch) && !old(stopping) && !old(safetyStopped) && !old(reconciliationRequired)
                      && view.Some? && !view.value.reconciliationRequired)
      ensures WellFormedIntent(intent) && intent.intentId !in old(store) && (storeStopped ==> intent.action.Cancel?) && !p.ToSubmit? ==>
                safetyStopped || old(Refuses(intent, route, view, now))
      ensures !p.ToSubmit? ==> tickets == old(tickets)
      ensures intent.intentId in old(store) ==> !p.ToSubmit?
      ensures Moves(config, old(PaceNow()), PaceNow(), now, time)
      ensures old(Calm()) && old(PreparationFits(intent, route, now)) ==> Calm()
      ensures old(Calm()) && old(PreparationFits(intent, route, now)) && intent.intentId !in old(store)
              && (!old(storeStopped) || intent.action.Cancel?) && old(Approves(intent, route, view, now))
              && Attemptable(old(live.books.orders), intent, OrderFor(intent), time) ==>
                p.ToSubmit?
      ensures p.ToSubmit? ==> Attempting(old(live.books.orders), live.books.orders, intent, OrderFor(intent), time)
    {
      hide ValidOn, AttemptTimes, World.Healthy, Risk.Evaluate, Risk.Approved, OrderFor, WellFormedIntent, Later,
           Risk.Recent, Risk.WindowStart;
      if !WellFormedIntent(intent) {
        return Malformed;
      }
      var fingerprint := texts.intent(intent.(intentId := ""));
      var standing := Check(intent, fingerprint);
      if intent.intentId in store {
        var result := Repeat(intent, standing, now);
        return Answered(result);
      }
      if standing.StoreStopped? && !intent.action.Cancel? {
        return Answered(Refusal(intent, now));
      }
      p := PrepareNew(intent, fingerprint, route, view, now, time);
    }

    method PrepareNew(intent: Risk.Intent, fingerprint: string, route: Option<Risk.Route>, view: Option<Risk.Snapshot>,
                      now: Risk.instant, time: int64) returns (p: Preparation)
      requires Valid() && WellFormedIntent(intent) && intent.intentId !in store
      modifies this`live, this`orderTimes, this`owners, this`killSwitch, this`generation, this`ready, this`safetyStopped,
               this`reconciliationRequired, this`replayed, this`faulted, this`outcomes, this`store, this`strategy,
               this`tickets, this`chains, this`nextTicket, world`effects, world`log, world`alive, world`open
      ensures Valid() && Onward() && Unsourced()
      ensures p.ToSubmit? ==>
                && Ticketed(old(tickets), tickets, p.ticket, intent, OrderFor(intent), generation, old(Verdict(intent, route, view, now)))
                && generation == old(generation)
                && intent.intentId in store
      ensures p.ToSubmit? ==> tickets[p.ticket].powers == old(PowersNow()) && Permits(old(PowersNow()), intent) && ViewPermits(view, intent)
      ensures !p.ToSubmit? ==>
                safetyStopped || old(Refuses(intent, route, view, now))
      ensures !p.ToSubmit? ==> tickets == old(tickets)
      ensures Moves(config, old(PaceNow()), PaceNow(), now, time)
      ensures old(Calm()) && TokenFits(old(replayed).books.tokens, OrderFor(intent), route)
              && Owned(old(live.books.orders), old(owners), intent, OrderFor(intent)) ==>
                Calm() && (old(Approves(intent, route, view, now)) && Attemptable(old(live.books.orders), intent, OrderFor(intent), time) ==>
                             p.ToSubmit?)
      ensures p.ToSubmit? ==> Attempting(old(live.books.orders), live.books.orders, intent, OrderFor(intent), time)
    {
      hide ValidOn, Risk.Evaluate, NoCallFor, NoTicketFor, OrderFor, WellFormedIntent, Moves, Stands, Announced, Attempting,
           AwaitsDecision, Owned, TokenFits, Ticketed, AttemptTimes, World.Healthy, Seen, Permits, ViewPermits, Refuses, Verdict, PowersNow, Approves, Attemptable;
      ghost var known, before, start := store.Keys, world.log, PaceNow();
      var ok := Announce(intent, fingerprint, OrderFor(intent), route, now);
      ghost var routed := PaceNow();
      StandingMoves(config, start, routed, now, time);
      if !ok {
        return Answered(Refusal(intent, now));
      }
      p := Pursue(intent, OrderFor(intent), route, view, now, time, known, before);
      StandsThenMoves(config, start, routed, PaceNow(), now, time);
    }

    /** Decides on an announced intent, attempts it when it is approved, and keeps it for its submission. */
    method Pursue(intent: Risk.Intent, orderId: string, route: Option<Risk.Route>, view: Option<Risk.Snapshot>,
                  now: Risk.instant, time: int64, ghost known: set<string>, ghost before: seq<Event>) returns (p: Preparation)
      requires ValidOn(known) && store.Keys == known + {intent.intentId} && intent.intentId !in known
      requires WellFormedIntent(intent) && orderId == OrderFor(intent)
      requires Announced(before, world.log, intent.intentId, orderId, route)
      requires NoCallFor(world.calls, intent.intentId) && NoTicketFor(tickets, intent.intentId)
      requires !faulted ==> AwaitsDecision(replayed, intent.intentId, orderId, route)
      modifies this`live, this`orderTimes, this`owners, this`killSwitch, this`generation, this`ready, this`safetyStopped,
               this`reconciliationRequired, this`replayed, this`faulted, this`outcomes, this`store, this`strategy,
               this`tickets, this`chains, this`nextTicket, world`effects, world`log, world`alive, world`open
      ensures Valid() && Onward() && Unsourced()
      ensures p.ToSubmit? ==>
                && Ticketed(old(tickets), tickets, p.ticket, intent, orderId, generation, old(Verdict(intent, route, view, now)))
                && generation == old(generation) && intent.intentId in store
      ensures p.ToSubmit? ==> tickets[p.ticket].powers == old(PowersNow()) && Permits(old(PowersNow()), intent) && ViewPermits(view, intent)
      ensures !p.ToSubmit? ==> tickets == old(tickets) && (safetyStopped || old(Refuses(intent, route, view, now)))
      ensures Moves(config, old(PaceNow()), PaceNow(), now, time)
      ensures old(Calm()) && Owned(old(live.books.orders), old(owners), intent, orderId) ==> Calm()
      ensures old(Calm()) && Owned(old(live.books.orders), old(owners), intent, orderId)
              && old(Approves(intent, route, view, now)) && Attemptable(old(live.books.orders), intent, orderId, time) ==>
                p.ToSubmit?
      ensures p.ToSubmit? ==> Attempting(old(live.books.orders), live.books.orders, intent, orderId, time)
    {
      hide ValidOn, AttemptTimes, World.Healthy, Risk.Evaluate, IsAttempt, ChainAt, Risk.Approved, NoCallFor, NoTicketFor,
           OrderFor, WellFormedIntent, Moves, PaceNow, Seen, Announced, Pursued, Attempting, AwaitsDecision, Owned, Calm,
           Unsourced, Verdict, Refuses, Approves, Attemptable;
      ghost var routed := world.log;
      var authority, powers := generation, PowersNow();
      var audit, refused := DecideAndAttempt(intent, orderId, route, view, now, time, known);
      if refused.Some? {
        return Answered(refused.value);
      }
      ChainFromParts(before, routed, world.log, intent, orderId, route);
      p := Hold(Prepared(intent, route, audit, orderId, authority, powers), |before|);
    }

    /** Decides on an announced intent, and attempts it when it is approved. */
    method DecideAndAttempt(intent: Risk.Intent, orderId: string, route: Option<Risk.Route>, view: Option<Risk.Snapshot>,
                            now: Risk.instant, time: int64, ghost known: set<string>)
      returns (audit: Risk.Audit, refused: Option<IntentResult>)
      requires ValidOn(known) && store.Keys == known + {intent.intentId} && intent.intentId !in known
      requires WellFormedIntent(intent) && orderId == OrderFor(intent)
      requires !faulted ==> AwaitsDecision(replayed, intent.intentId, orderId, route)
      modifies this`live, this`orderTimes, this`owners, this`killSwitch, this`generation, this`ready, this`safetyStopped,
               this`reconciliationRequired, this`replayed, this`faulted, this`outcomes, this`store, this`strategy,
               world`effects, world`log, world`alive, world`open
      ensures Valid() && Onward() && Unsourced() && store.Keys == old(store.Keys)
      ensures Moves(config, old(PaceNow()), PaceNow(), now, time)
      ensures old(Calm()) && Owned(old(live.books.orders), old(owners), intent, orderId) ==> Calm()
      ensures refused.None? ==> Attempting(old(live.books.orders), live.books.orders, intent, orderId, time)
      ensures old(Calm()) && Owned(old(live.books.orders), old(owners), intent, orderId)
              && old(Approves(intent, route, view, now)) && Attemptable(old(live.books.orders), intent, orderId, time) ==>
                refused.None?
      ensures refused.Some? ==>
                safetyStopped || old(Refuses(intent, route, view, now))
      ensures refused.None? ==>
                && Some(audit) == old(Verdict(intent, route, view, now))
                && Risk.Approved(audit) && generation == old(generation) && (route.None? ==> intent.action.Cancel?)
                && Pursued(old(world.log), world.log, intent, orderId)
      ensures refused.None? ==> Permits(old(PowersNow()), intent) && view.Some? && ViewPermits(view, intent)
    {
      hide ValidOn, AttemptTimes, World.Healthy, Risk.Evaluate, IsAttempt, Risk.Approved, OrderFor, WellFormedIntent, Later,
           Risk.Recent, Risk.WindowStart, Moves, Seen, Attempting, Owned, PaceNow, StandsOrAdvances, Advances, Stands, Attemptable;
      ghost var start := PaceNow();
      if view.None? {
        ForceSafetyStop(now, Some(intent.intentId), Some(orderId), known);
        Settle(known, intent.intentId);
        StandingMoves(config, start, PaceNow(), now, time);
        return Risk.Audit([], None), Some(Refusal(intent, now));
      }
      audit, refused := Judge(intent, orderId, route, view.value, now, known);
      ghost var judged := PaceNow();
      StandingMoves(config, start, judged, now, time);
      if refused.None? {
        ghost var decided := world.log;
        var ok := Engage(intent, orderId, route, now, time, known);
        AdvancingMoves(config, judged, PaceNow(), intent.action.Cancel?, now, time);
        StandsThenMoves(config, start, judged, PaceNow(), now, time);
        if !ok {
          refused := Some(IntentResult(texts.decision(intent, audit), None, false, true));
        } else {
          assert world.log[|decided| - 1] == decided[|decided| - 1];
        }
      }
    }

    /** Takes and writes the attempt; a refused or unowned order stops the session. */
    method Engage(intent: Risk.Intent, orderId: string, route: Option<Risk.Route>, now: int64, time: int64, ghost known: set<string>)
      returns (ok: bool)
      requires ValidOn(known) && store.Keys == known + {intent.intentId} && intent.intentId !in known
      requires WellFormedIntent(intent) && orderId == OrderFor(intent) && (route.None? ==> intent.action.Cancel?)
      requires !faulted && route.Some? ==> orderId in replayed.books.tokens && replayed.books.tokens[orderId] == route.value.token
      modifies this`live, this`orderTimes, this`owners, this`killSwitch, this`generation, this`ready, this`safetyStopped,
               this`reconciliationRequired, this`replayed, this`faulted, world`effects, world`log, world`alive, world`open
      ensures Valid() && Onward() && Unsourced()
      ensures !ok ==> safetyStopped
      ensures ok ==>
                && |world.log| == old(|world.log|) + 1 && world.log[..old(|world.log|)] == old(world.log)
                && IsAttempt(world.log[old(|world.log|)], intent)
                && world.log[old(|world.log|)].orderId == Some(orderId)
                && world.log[old(|world.log|)].intentId == Some(intent.intentId)
                && generation == old(generation)
      ensures StandsOrAdvances(config, old(PaceNow()), PaceNow(), intent.action.Cancel?, time)
      ensures old(Calm()) && Owned(old(live.books.orders), old(owners), intent, orderId) ==> Calm()
      ensures old(Calm()) && Owned(old(live.books.orders), old(owners), intent, orderId)
              && Attemptable(old(live.books.orders), intent, orderId, time) ==>
                ok
      ensures ok ==> Attempting(old(live.books.orders), live.books.orders, intent, orderId, time)
    {
      hide ValidOn, AttemptTimes, World.Healthy, IsAttempt, OrderFor, WellFormedIntent, Later, Risk.WindowStart,
           AttemptDisposition, Attempting, Owned, Attemptable;
      var stop;
      ok, stop := WriteAttempt(intent, orderId, route, time, known);
      if ok {
        NoteIntent(intent.intentId, Some(orderId), AttemptDisposition(intent.action), false);
      } else if stop {
        ForceSafetyStop(now, Some(intent.intentId), Some(orderId), store.Keys);
      }
    }

    /** Writes that the intent was received, and its route. */
    method Announce(intent: Risk.Intent, fingerprint: string, orderId: string, route: Option<Risk.Route>, now: int64) returns (ok: bool)
      requires Valid() && intent.intentId !in store
      modifies this`generation, this`ready, this`safetyStopped, this`reconciliationRequired, this`replayed, this`faulted,
               this`store, this`live, world`effects, world`log, world`alive, world`open
      ensures ValidOn(old(store.Keys)) && Onward() && Unsourced() && Stands(old(PaceNow()), PaceNow())
      ensures !ok ==> Valid() && safetyStopped
      ensures live.books == old(live.books)
      ensures old(Calm()) && TokenFits(old(replayed).books.tokens, orderId, route) ==> ok && Calm()
      ensures ok ==> ready == old(ready) && safetyStopped == old(safetyStopped) && reconciliationRequired == old(reconciliationRequired)
      ensures ok ==>
                && store.Keys == old(store.Keys) + {intent.intentId} && generation == old(generation)
                && Announced(old(world.log), world.log, intent.intentId, orderId, route)
                && NoCallFor(world.calls, intent.intentId) && NoTicketFor(tickets, intent.intentId)
                && (!faulted ==> AwaitsDecision(replayed, intent.intentId, orderId, route))
    {
      hide ValidOn, AttemptTimes, World.Healthy, NoCallFor, NoTicketFor, TokenFits, IntentNoted, RouteNoted, Announced, NotDecided, AwaitsDecision;
      ghost var known, before := store.Keys, world.log;
      ok := Receive(intent, fingerprint, now);
      if ok {
        ghost var received := world.log;
        ok := WriteRoute(intent, orderId, route, now, known);
        if ok {
          AnnouncedFromParts(before, received, world.log, intent.intentId, orderId, route);
        } else {
          Settle(known, intent.intentId);
        }
      }
    }

    /** A declined intent is remembered with its result. */
    method Decline(id: string, result: IntentResult)
      requires Valid() && id in store
      modifies this`outcomes, this`store, this`live
      ensures Valid() && outcomes == old(outcomes)[id := result] && store.Keys == old(store.Keys)
      ensures store[id].disposition.Declined? && live == old(live).(intents := live.intents)
    {
      hide ValidOn, AttemptTimes, World.Healthy;
      Conclude(id, result);
      NoteStore(id, None, Disposition.Declined, false);
      NoteIntent(id, None, Disposition.Declined, false);
    }

    /** An intent that goes no further; it is remembered as declined when the decision was durable. */
    method TurnDown(id: string, durable: bool, result: IntentResult, ghost known: set<string>)
      requires ValidOn(known) && store.Keys == known + {id}
      modifies this`outcomes, this`store, this`live
      ensures Valid() && store.Keys == old(store.Keys) && live.attempts == old(live.attempts) && live.books == old(live.books)
      ensures durable ==> outcomes == old(outcomes)[id := result] && store[id].disposition.Declined?
    {
      hide ValidOn, AttemptTimes, World.Healthy;
      Settle(known, id);
      if durable {
        Decline(id, result);
      }
    }

    /** Decides on the intent and writes the decision; `refused` when it goes no further. */
    method Judge(intent: Risk.Intent, orderId: string, route: Option<Risk.Route>, view: Risk.Snapshot, now: Risk.instant,
                 ghost known: set<string>) returns (audit: Risk.Audit, refused: Option<IntentResult>)
      requires ValidOn(known) && store.Keys == known + {intent.intentId}
      requires !faulted ==> intent.intentId in replayed.intents && replayed.intents[intent.intentId].decision.None?
      modifies this`outcomes, this`store, this`live, this`strategy, this`generation, this`ready, this`safetyStopped,
               this`reconciliationRequired, this`replayed, this`faulted, world`effects, world`log, world`alive, world`open
      ensures Forward() && store.Keys == old(store.Keys)
      ensures Stands(old(PaceNow()), PaceNow())
      ensures live.books == old(live.books) && (old(Calm()) ==> Calm())
      ensures refused.None? && !intent.action.Cancel? ==>
                Risk.Recent(PaceNow().kept, Risk.WindowStart(config, now), now) < config.maximumOrdersPerWindow
      ensures audit == Risk.Evaluate(config, intent, old(Seen(view, Knowledge(intent), route, orderTimes, now)))
      ensures refused.Some? ==> Valid() && (safetyStopped || !Risk.Approved(audit))
      ensures old(world.Healthy()) && Risk.Approved(audit) ==> refused.None?
      ensures refused.None? ==> Permits(old(PowersNow()), intent) && (!intent.action.Cancel? ==> !view.reconciliationRequired)
      ensures refused.None? ==>
                && ValidOn(known) && Risk.Approved(audit) && generation == old(generation)
                && (route.None? ==> intent.action.Cancel?)
                && |world.log| == old(|world.log|) + 1 && world.log[..old(|world.log|)] == old(world.log)
                && world.log[old(|world.log|)].body.RiskApproved? && world.log[old(|world.log|)].orderId == Some(orderId)
                && world.log[old(|world.log|)].intentId == Some(intent.intentId)
                && (!faulted ==> replayed.books == old(replayed).books)
    {
      hide ValidOn, AttemptTimes, World.Healthy, Risk.Evaluate, Risk.Approved, Seen, BlankSnapshot, Risk.Recent,
           Risk.WindowStart;
      var snapshot := Seen(view, Knowledge(intent), route, orderTimes, now);
      SeenShows(view, Knowledge(intent), route, orderTimes, now);
      ApprovedIsPermitted(intent, view, route, now);
      audit := Risk.Evaluate(config, intent, snapshot);
      var ok := WriteDecision(intent, orderId, audit, now, known);
      if !ok || !Risk.Approved(audit) {
        var result := IntentResult(texts.decision(intent, audit), None, false, !ok || safetyStopped);
        TurnDown(intent.intentId, ok, result, known);
        refused := Some(result);
      } else {
        Bind(intent, known);
        if !intent.action.Cancel? {
          ApprovedHasRoute(config, intent, snapshot);
          ApprovedKeepsRate(config, intent, snapshot);
        }
        refused := None;
      }
    }

    /** Keeps a prepared submission under a new ticket. */
    method Hold(prepared: Prepared, ghost chain: nat) returns (p: Preparation)
      requires Valid() && Held(world.log, world.calls, prepared, chain, store.Keys, generation)
      requires NoTicketFor(tickets, prepared.intent.intentId)
      modifies this`tickets, this`chains, this`nextTicket
      ensures Valid() && p.ToSubmit? && p.ticket !in old(tickets) && tickets == old(tickets)[p.ticket := prepared]
    {
      hide Orderly, ReplayRecord, ReceivedIn, AgreeOn, ReplayLedger, Held, NoTicketFor;
      HoldOne(world.log, world.calls, tickets, chains, store.Keys, generation, nextTicket, prepared, chain);
      tickets := tickets[nextTicket := prepared];
      chains := chains[nextTicket := chain];
      p := ToSubmit(nextTicket);
      nextTicket := nextTicket + 1;
    }

    // -------------------------------------------------------------- submitting

    /** Nothing has revoked the authority that prepared the ticket. */
    predicate Submits(ticket: nat)
      reads this`tickets, this`generation, this`stopping, this`ready
    {
      && ticket in tickets && tickets[ticket].generation == generation && !stopping
      && (ready || tickets[ticket].intent.action.Cancel?)
    }

    /** The broker's answer to the ticket is one that the order takes. */
    ghost predicate AnswerSuits(ticket: nat, answer: Option<Mutation>, now: int64)
      requires ticket in tickets
      reads this`tickets, this`live, this`replayed
    {
      var p := tickets[ticket];
      AnswerFits(live.books.orders, replayed.fingerprints, texts, p.intent, p.orderId, ReadAnswer(answer, p.orderId), now)
    }

    /** The broker's answer is one that the order takes once it has taken the attempt. */
    ghost predicate AcceptanceSuits(intent: Risk.Intent, time: int64, answer: Option<Mutation>, now: int64)
      reads this`live, this`replayed
    {
      forall orders :: Attempting(live.books.orders, orders, intent, OrderFor(intent), time) ==>
        AnswerFits(orders, replayed.fingerprints, texts, intent, OrderFor(intent), ReadAnswer(answer, OrderFor(intent)), now)
    }

    /** Submits a prepared intent, once, as long as nothing has revoked the authority that prepared it. Nothing is
        returned for a ticket that is not this session's to use. */
    method SubmitPrepared(ticket: nat, answer: Option<Mutation>, now: int64) returns (result: Option<IntentResult>)
      requires Valid()
      modifies this`live, this`store, this`outcomes, this`mirror, this`tickets, this`chains, this`killSwitch,
               this`generation, this`ready, this`safetyStopped, this`reconciliationRequired, this`replayed,
               this`faulted, world`effects, world`log, world`calls, world`alive, world`open
      ensures Valid() && Onward() && Untimed() && live.attempts == old(live.attempts)
      ensures old(Calm()) && (old(Submits(ticket)) ==> old(AnswerSuits(ticket, answer, now))) ==> Calm()
      ensures ticket !in old(tickets) ==>
                result.None? && world.calls == old(world.calls) && world.log == old(world.log) && tickets == old(tickets)
      ensures ticket in old(tickets) ==> result.Some? && tickets == old(tickets) - {ticket}
      ensures world.calls == old(world.calls)
              || (old(Submits(ticket)) && CalledFor(old(world.calls), world.calls, old(tickets)[ticket], |old(world.log)|, old(ready)))
      ensures old(Submits(ticket)) && world.alive ==>
                CalledFor(old(world.calls), world.calls, old(tickets)[ticket], |old(world.log)|, old(ready)) && result.value.answer.Some?
      ensures ticket in old(tickets) && !old(Submits(ticket)) ==>
                world.calls == old(world.calls) && safetyStopped && reconciliationRequired && result.value.answer.None?
      ensures ticket in old(tickets) && !old(Submits(ticket)) && old(world.Healthy()) ==>
                world.Healthy() && generation == old(generation) && ready == old(ready)
    {
      hide Valid, AttemptTimes, World.Healthy, Risk.Evaluate, Held, Takes, OutcomeEvent, OutcomeBody, Reflected, EvidenceOf,
           OSM.ApplyOrderUpdate, RecordedAnswer, AnswerFits, CalledFor, ReadAnswer, Permits, WellFormedIntent, OutcomeId, Own;
      if ticket !in tickets {
        return None;
      }
      var p := tickets[ticket];
      if p.generation != generation || stopping || (!ready && !p.intent.action.Cancel?) {
        Revoke(ticket, now);
        return Some(IntentResult(texts.decision(p.intent, p.decision), None, false, true));
      }
      CallFor(ticket);
      var r := RecordOutcome(p, ReadAnswer(answer, p.orderId), now);
      result := Some(r);
    }

    /** The authority that prepared a submission is gone: the session stops without a call. */
    method Revoke(ticket: nat, now: int64)
      requires Valid() && ticket in tickets
      modifies this`tickets, this`chains, this`reconciliationRequired, this`safetyStopped, this`generation, this`ready,
               this`replayed, this`faulted, world`effects, world`log, world`alive, world`open
      ensures old(Calm()) ==> Calm()
      ensures Valid() && Forward() && tickets == old(tickets) - {ticket} && safetyStopped && reconciliationRequired
      ensures old(world.Healthy()) ==> world.Healthy() && generation == old(generation) && ready == old(ready)
    {
      hide Orderly, AllHeld, ReplayRecord, ReceivedIn, AgreeOn, ReplayLedger, AttemptTimes, World.Healthy;
      var p := tickets[ticket];
      TicketIsKnown(ticket);
      ReleaseOne(world.log, world.calls, Call(p.intent, p.orderId, 0, 0, 0, 0, p.powers, ready), tickets, chains, store.Keys, generation, nextTicket, ticket);
      tickets, chains := tickets - {ticket}, chains - {ticket};
      reconciliationRequired, safetyStopped := true, true;
      ghost var before := replayed;
      var e := Notice(now, Some(p.intent.intentId), Some(p.orderId), Body.ReconciliationRequired);
      var b := DurableEvent(e);
      if !old(faulted) {
        QuietEventAgrees(live, before, store.Keys, |world.log|, e);
      }
    }

    lemma TicketIsKnown(ticket: nat)
      requires Safe() && ticket in tickets
      ensures tickets[ticket].intent.intentId in store
      ensures tickets[ticket].route.None? ==> tickets[ticket].intent.action.Cancel?
      ensures WellFormedIntent(tickets[ticket].intent)
    {
    }

    ghost function ChainOf(ticket: nat): nat
      reads this`chains
    {
      if ticket in chains then chains[ticket] else 0
    }

    /** Uses a ticket for its one call. */
    method CallFor(ticket: nat)
      requires Valid() && ticket in tickets && tickets[ticket].generation == generation
      requires ready || tickets[ticket].intent.action.Cancel?
      modifies this`tickets, this`chains, this`faulted, world`effects, world`calls, world`alive
      ensures world.alive && world.open ==> old(world.alive) && old(world.open)
      ensures Valid() && tickets == old(tickets) - {ticket} && (old(faulted) ==> faulted)
      ensures world.calls == old(world.calls) || CalledFor(old(world.calls), world.calls, old(tickets)[ticket], |world.log|, ready)
      ensures old(Calm()) ==> Calm()
      ensures world.alive ==> CalledFor(old(world.calls), world.calls, old(tickets)[ticket], |world.log|, ready)
      ensures old(tickets)[ticket].intent.intentId in store
      ensures old(tickets)[ticket].route.None? ==> old(tickets)[ticket].intent.action.Cancel?
      ensures WellFormedIntent(old(tickets)[ticket].intent)
    {
      hide Orderly, ReplayRecord, ReceivedIn, AgreeOn, ReplayLedger, WellFormedIntent, AllHeld, WriteAhead, World.Healthy;
      var p := tickets[ticket];
      TicketIsKnown(ticket);
      ghost var c := Call(p.intent, p.orderId, ChainOf(ticket), |world.log|, p.generation, generation, p.powers, ready);
      HeldIsWrittenAhead(world.log, world.calls, tickets, chains, store.Keys, generation, nextTicket, ticket, ready);
      ReleaseOne(world.log, world.calls, c, tickets, chains, store.Keys, generation, nextTicket, ticket);
      tickets, chains := tickets - {ticket}, chains - {ticket};
      world.CallBroker(c);
      faulted := faulted || !world.alive;
    }

    // -------------------------------------------------------------- outcomes

    /** The mirror after an outcome that the order took. */
    function Reflected(p: Prepared, body: Body): Mirrored
      requires WellFormedIntent(p.intent)
      reads this`mirror
    {
      if body.BrokerAcknowledged? && p.route.Some? && p.intent.action.Place? then
        AfterPlace(mirror, p.orderId, p.route.value, p.intent.side.value, p.intent.quantity.value, p.intent.limitPrice.value)
      else if body.Modified? && p.intent.action.Modify? then
        AfterModify(mirror, p.orderId, p.intent.quantity.value, p.intent.limitPrice.value)
      else if body.Cancelled? then AfterCancel(mirror, p.orderId)
      else mirror
    }

    /** Writes the broker's answer, and takes it on the order; anything unclear stops the session. */
    method RecordOutcome(p: Prepared, m: Mutation, now: int64) returns (result: IntentResult)
      requires Valid() && WellFormedIntent(p.intent) && p.intent.intentId in store
      modifies this`live, this`store, this`outcomes, this`mirror, this`generation, this`killSwitch, this`safetyStopped, this`ready,
               this`reconciliationRequired, this`replayed, this`faulted, world`effects, world`log, world`alive, world`open
      ensures old(Calm()) && AnswerFits(old(live.books.orders), old(replayed.fingerprints), texts, p.intent, p.orderId, m, now) ==> Calm()
      ensures Valid() && Onward() && Untimed() && store.Keys == old(store.Keys)
      ensures world.alive ==> old(world.alive)
      ensures live.attempts == old(live.attempts)
      ensures result.answer.Some? && outcomes == old(outcomes)[p.intent.intentId := result]
      ensures var e, id := OutcomeEvent(p.intent, p.orderId, m, texts.mutation(RecordedAnswer(p.intent, m)), now), p.intent.intentId;
              && EvidenceOf(e).Some?
              && (!store[id].ambiguous <==>
                    Takes(old(live.books.orders), p.orderId, e) && world.log == old(world.log) + [e] && world.alive && world.open)
              && (!store[id].ambiguous ==>
                    && mirror == old(Reflected(p, OutcomeBody(p.intent, m)))
                    && var order := OSM.ApplyOrderUpdate(old(live.books.orders)[p.orderId], EvidenceOf(e).value).order;
                       live.books == old(live.books).(orders := old(live.books.orders)[p.orderId := order]))
              && (store[id].ambiguous ==>
                    && safetyStopped && mirror == old(mirror) && live.books == old(live.books)
                    && store[id].disposition.Ambiguous?)
    {
      hide ValidOn, AttemptTimes, World.Healthy, WellFormedIntent, RecordedAnswer, OutcomeBody, Reflected, OutcomeEvent,
           OutcomeDisposition, Own, EvidenceOf, OSM.ApplyOrderUpdate, Takes, PrintFits;
      OutcomeEventShape(p.intent, p.orderId, m, texts.mutation(RecordedAnswer(p.intent, m)), now);
      var recorded := RecordedAnswer(p.intent, m);
      var body := OutcomeBody(p.intent, m);
      var e := OutcomeEvent(p.intent, p.orderId, m, texts.mutation(recorded), now);
      var clear := WriteOutcome(p, e, now);
      Follow(p, body, clear, now);
      assert world.log == old(world.log) + [e] ==> world.log[|world.log| - 1] == e;
      result := IntentResult(texts.decision(p.intent, p.decision), Some(recorded), false, safetyStopped);
      Conclude(p.intent.intentId, result);
    }

    /** After the outcome is written: the mirror follows a clear one, and an unclear one stops the session. */
    method Follow(p: Prepared, body: Body, clear: bool, now: int64)
      requires Valid() && WellFormedIntent(p.intent) && p.intent.intentId in store
      modifies this`live, this`store, this`mirror, this`generation, this`killSwitch, this`safetyStopped, this`ready,
               this`reconciliationRequired, this`replayed, this`faulted, world`effects, world`log, world`alive, world`open
      ensures Valid() && Forward() && (clear && old(Calm()) ==> Calm()) && store.Keys == old(store.Keys)
      ensures mirror == if clear then old(Reflected(p, body)) else old(mirror)
      ensures live == old(live).(intents := live.intents) && store[p.intent.intentId].ambiguous == !clear
      ensures store[p.intent.intentId].disposition == if clear then OutcomeDisposition(body) else Disposition.Ambiguous
      ensures (world.alive ==> old(world.alive)) && (world.open ==> old(world.open))
      ensures clear ==> world.log == old(world.log) && world.alive == old(world.alive) && world.open == old(world.open)
      ensures world.log == old(world.log)
              || world.log == old(world.log) + [Notice(now, Some(p.intent.intentId), Some(p.orderId), SafetyStop)]
      ensures !clear ==> safetyStopped && generation > old(generation)
    {
      hide ValidOn, AttemptTimes, World.Healthy, WellFormedIntent, Reflected, OutcomeDisposition;
      if !clear {
        ForceSafetyStop(now, Some(p.intent.intentId), Some(p.orderId), store.Keys);
        Note(p, Disposition.Ambiguous, true);
      } else {
        Reflect(Reflected(p, body));
        Note(p, OutcomeDisposition(body), false);
      }
    }

    /** What became of an intent whose request was made. */
    method Note(p: Prepared, disposition: Disposition, ambiguous: bool)
      requires Valid() && p.intent.intentId in store
      modifies this`store, this`live
      ensures Valid() && store.Keys == old(store.Keys) && live == old(live).(intents := live.intents)
      ensures store[p.intent.intentId].disposition == disposition && store[p.intent.intentId].ambiguous == ambiguous
    {
      hide ValidOn, AttemptTimes, World.Healthy;
      NoteStore(p.intent.intentId, Some(p.orderId), disposition, ambiguous);
      NoteIntent(p.intent.intentId, None, disposition, ambiguous);
    }

    method Reflect(next: Mirrored)
      requires Valid()
      modifies this`mirror
      ensures Valid() && mirror == next
    {
      mirror := next;
    }

    /** Writes an outcome; `clear` when it was durable, left no doubt, and its order took it. */
    method WriteOutcome(p: Prepared, e: Event, now: int64) returns (clear: bool)
      requires Valid() && p.intent.intentId in store && e.intentId == Some(p.intent.intentId) && e.orderId == Some(p.orderId)
      requires IsOutcome(e) && EvidenceOf(e).Some? && e.source.Some? && e.source.value.sequence == 0
      modifies this`live, this`generation, this`killSwitch, this`safetyStopped, this`ready, this`reconciliationRequired,
               this`replayed, this`faulted, world`effects, world`log, world`alive, world`open
      ensures Valid() && Onward() && Untimed() && (old(Calm()) && Takes(old(live.books.orders), p.orderId, e) ==> clear)
      ensures old(Calm()) && Takes(old(live.books.orders), p.orderId, e) && !Own(EvidenceOf(e).value.updateId)
              && PrintFits(old(replayed.fingerprints), e.source.value.updateId, e.source.value.fingerprint) ==>
                Calm()
      ensures clear <==>
                Takes(old(live.books.orders), p.orderId, e) && world.log == old(world.log) + [e] && world.alive && world.open
      ensures world.alive ==> old(world.alive)
      ensures Takes(old(live.books.orders), p.orderId, e) ==>
                world.log == old(world.log) || world.log == old(world.log) + [e]
      ensures clear ==>
                var step := OSM.ApplyOrderUpdate(old(live.books.orders)[p.orderId], EvidenceOf(e).value);
                   live == old(live).(books := old(live.books).(orders := old(live.books.orders)[p.orderId := step.order]))
      ensures !clear ==> live == old(live) && faulted
    {
      hide ValidOn, Safe, Knows, Tracks, ReplayRecord, AgreeOn, OSM.ApplyOrderUpdate, EvidenceOf, IsOutcome,
           Own, Takes, AttemptTimes, PrintFits, World.Healthy;
      OutcomeHoldsEvidence(e);
      clear := Weigh(p, e, now);
      ghost var before := replayed;
      var b := WriteAnswer(e, p.orderId);
      clear := clear && b.Durable?;
      if clear {
        TakeOutcome(e, p.orderId, before);
      } else {
        Fault();
      }
    }

    /** Writes the event of an outcome. */
    method WriteAnswer(e: Event, orderId: string) returns (b: Boundary)
      requires Valid() && IsOutcome(e) && EvidenceOf(e).Some? && e.intentId.Some? && e.intentId.value in store
      requires e.orderId == Some(orderId) && e.source.Some? && e.source.value.sequence == 0
      modifies this`generation, this`safetyStopped, this`ready, this`reconciliationRequired, this`replayed, this`faulted,
               world`effects, world`log, world`alive, world`open
      ensures Safe() && Knows({}) && Tracks() && Onward() && Untimed()
      ensures !faulted ==> ReplayRecord(old(replayed), |world.log|, e) == Ok(replayed) && AgreeOn(live, old(replayed), store.Keys)
      ensures b.Durable? <==> world.log == old(world.log) + [e] && world.alive && world.open
      ensures world.log == old(world.log) || world.log == old(world.log) + [e]
      ensures !b.Durable? ==> safetyStopped && faulted
      ensures world.alive ==> old(world.alive)
      ensures old(world.Healthy()) ==> b.Durable? && world.Healthy()
      ensures old(Calm()) && Takes(live.books.orders, orderId, e) && !Own(EvidenceOf(e).value.updateId)
              && PrintFits(old(replayed.fingerprints), e.source.value.updateId, e.source.value.fingerprint) ==>
                Calm()
    {
      hide Orderly, AllHeld, ReplayRecord, ReceivedIn, AgreeOn, ReplayLedger, EvidenceOf, IsOutcome, Own, Takes, AttemptTimes,
           PrintFits, World.Healthy;
      OutcomeHoldsEvidence(e);
      if !faulted && Takes(live.books.orders, orderId, e) && !Own(EvidenceOf(e).value.updateId) {
        OutcomeReplays(live, replayed, store.Keys, |world.log| + 1, e, orderId);
      }
      b := DurableEvent(e);
    }

    /** Whether the order can take an outcome; one it cannot take stops the session. */
    method Weigh(p: Prepared, e: Event, now: int64) returns (clear: bool)
      requires Valid() && EvidenceOf(e).Some?
      modifies this`generation, this`killSwitch, this`safetyStopped, this`ready, this`reconciliationRequired,
               this`replayed, this`faulted, world`effects, world`log, world`alive, world`open
      ensures Valid() && Forward() && (old(Calm()) ==> Calm())
      ensures clear <==> Takes(live.books.orders, p.orderId, e)
      ensures world.alive ==> old(world.alive)
      ensures clear ==> world.log == old(world.log)
      ensures clear ==> p.orderId in live.books.orders && OSM.ApplyOrderUpdate(live.books.orders[p.orderId], EvidenceOf(e).value).error.None?
    {
      hide ValidOn, AttemptTimes, World.Healthy, OSM.ApplyOrderUpdate, EvidenceOf;
      clear := !e.body.AmbiguousSubmission?;
      if p.orderId !in live.books.orders || OSM.ApplyOrderUpdate(live.books.orders[p.orderId], EvidenceOf(e).value).error.Some? {
        ForceSafetyStop(now, Some(p.intent.intentId), Some(p.orderId), store.Keys);
        clear := false;
      }
    }

    /** The order takes a durable outcome. */
    method TakeOutcome(e: Event, orderId: string, ghost before: State)
      requires Safe() && Knows({}) && Tracks() && IsOutcome(e) && EvidenceOf(e).Some? && e.source.Some?
      requires e.source.value.sequence == 0 && e.intentId.Some? && e.intentId.value in store && e.orderId == Some(orderId)
      requires orderId in live.books.orders && OSM.ApplyOrderUpdate(live.books.orders[orderId], EvidenceOf(e).value).error.None?
      requires !faulted ==> ReplayRecord(before, |world.log|, e) == Ok(replayed) && AgreeOn(live, before, store.Keys)
      modifies this`live, this`faulted
      ensures Valid() && (old(faulted) ==> faulted) && (!old(faulted) && !Own(EvidenceOf(e).value.updateId) ==> !faulted)
      ensures live == old(live).(books := old(live.books).(orders := old(live.books.orders)[orderId :=
                        OSM.ApplyOrderUpdate(old(live.books.orders)[orderId], EvidenceOf(e).value).order]))
    {
      hide Orderly, AllHeld, ReplayRecord, ReceivedIn, AgreeOn, ReplayLedger, OSM.ApplyOrderUpdate, EvidenceOf, IsOutcome,
           Own, Advanced;
      var evidence := EvidenceOf(e).value;
      var step := OSM.ApplyOrderUpdate(live.books.orders[orderId], evidence);
      OutcomeMovesNothing(e, live.books, orderId);
      if !faulted && !Own(evidence.updateId) {
        BrokerEventAgrees(live, before, store.Keys, |world.log|, e, orderId);
      } else {
        faulted := true;
      }
      live := live.(books := live.books.(orders := live.books.orders[orderId := step.order]));
    }

    // -------------------------------------------------------------- updates

    /** Queues an update, unless it repeats one, contradicts one, or cannot be the next. */
    method EnqueueUpdate(u: Update, now: int64) returns (ok: bool)
      requires Valid()
      modifies this`queue, this`generation, this`killSwitch, this`safetyStopped, this`ready, this`reconciliationRequired,
               this`replayed, this`faulted, world`effects, world`log, world`alive, world`open
      ensures Valid() && Forward()
      ensures old(Calm()) ==> Calm()
      ensures ok ==> world.log == old(world.log) && (queue == old(queue) || queue == old(queue) + [u])
      ensures !ok ==> queue == old(queue) && (u.updateId == "" || (safetyStopped && generation > old(generation)))
      ensures u.updateId != "" && u.updateId in applied ==> (ok <==> applied[u.updateId] == texts.update(u)) && queue == old(queue)
    {
      hide ValidOn, AttemptTimes, World.Healthy;
      if u.updateId == "" {
        return false;
      }
      if u.updateId in applied {
        ok := applied[u.updateId] == texts.update(u);
      } else {
        var at := Queued(u.updateId);
        if at.Some? {
          ok := texts.update(queue[at.value]) == texts.update(u);
        } else {
          ok := !u.sessionLost && u.sequence > lastUpdate && |queue| < maximumQueue;
          if ok {
            Push(u);
          }
        }
      }
      if !ok {
        ForceSafetyStop(now, None, None, store.Keys);
      }
    }

    method Queued(updateId: string) returns (at: Option<nat>)
      ensures at.Some? ==> at.value < |queue| && queue[at.value].updateId == updateId
      ensures at.None? ==> forall k :: 0 <= k < |queue| ==> queue[k].updateId != updateId
    {
      for i := 0 to |queue|
        invariant forall k :: 0 <= k < i ==> queue[k].updateId != updateId
      {
        if queue[i].updateId == updateId {
          return Some(i);
        }
      }
      at := None;
    }

    method Push(u: Update)
      requires Valid()
      modifies this`queue
      ensures Valid() && queue == old(queue) + [u]
    {
      queue := queue + [u];
    }

    method Pop() returns (u: Update)
      requires Valid() && queue != []
      modifies this`queue
      ensures Valid() && u == old(queue)[0] && queue == old(queue)[1..]
    {
      u := queue[0];
      queue := queue[1..];
    }

    /** Takes the queued updates in order, up to one that fails. */
    method DrainUpdates(now: int64) returns (ok: bool)
      requires Valid()
      modifies this`live, this`lastUpdate, this`applied, this`mirror, this`queue, this`killSwitch,
               this`generation, this`ready, this`safetyStopped, this`reconciliationRequired, this`replayed, this`faulted,
               world`effects, world`log, world`alive, world`open
      ensures Valid() && Onward() && Untimed()
      ensures exists k :: 0 <= k <= |old(queue)| && queue == old(queue)[k..]
      ensures live.attempts == old(live.attempts) && (old(Calm()) && old(QueueSuits()) ==> Calm())
      ensures ok ==> queue == [] && live == TakenAll(old(live), texts, old(queue))
      ensures old(queue) == [] ==> ok
    {
      hide Valid, AttemptTimes, Calm, QueueSuits, Taken, TakenAll;
      assert old(queue)[0..] == old(queue);
      ghost var done := 0;
      while queue != []
        invariant live.attempts == old(live.attempts)
        invariant old(Calm()) && old(QueueSuits()) ==> Calm() && QueueSuits()
        invariant Valid() && Onward() && Untimed()
        invariant 0 <= done <= |old(queue)| && queue == old(queue)[done..]
        invariant TakenAll(old(live), texts, old(queue)) == TakenAll(live, texts, queue)
        decreases |queue|
      {
        ok := TakeFirst(now);
        done := done + 1;
        if !ok {
          return;
        }
      }
      NothingTaken(live, texts);
      ok := true;
    }

    lemma NothingTaken(live: State, texts: Texts)
      ensures TakenAll(live, texts, []) == live
    {
    }

    /** Takes the first queued update. */
    method TakeFirst(now: int64) returns (ok: bool)
      requires Valid() && queue != []
      modifies this`live, this`lastUpdate, this`applied, this`mirror, this`queue, this`killSwitch,
               this`generation, this`ready, this`safetyStopped, this`reconciliationRequired, this`replayed, this`faulted,
               world`effects, world`log, world`alive, world`open
      ensures Valid() && Onward() && Untimed() && queue == old(queue)[1..] && live.attempts == old(live.attempts)
      ensures old(Calm()) && old(QueueSuits()) ==> Calm() && (ok ==> QueueSuits())
      ensures ok ==> TakenAll(old(live), texts, old(queue)) == TakenAll(live, texts, queue)
    {
      hide ValidOn, AttemptTimes, World.Healthy, Expected, UpdateFits, Taken, OSM.ApplyOrderUpdate, QueueFits, Ids, MirrorTook;
      if QueueSuits() && Expected(live, strategy, queue[0]) {
        QueueGoesOn(live, replayed.fingerprints, Ids(mirror), strategy, texts, queue);
      }
      var u := Pop();
      ok := TakeUpdate(u, now);
    }

    function UpdateEvent(u: Update, body: Body, now: int64): Event
      reads this
    {
      Event("", now, Some(u.intentId), Some(u.orderId), Some(Source(u.sequence, texts.update(u), u.updateId)), body)
    }

    ghost predicate UpdateSuits(u: Update)
      requires u.orderId in live.books.orders
      reads this`live, this`replayed, this`mirror
    {
      UpdateFits(live.books, replayed.fingerprints, Ids(mirror), u,
                 OSM.ApplyOrderUpdate(live.books.orders[u.orderId], UpdateEvidence(u)), texts.update(u))
    }

    /** What the queue needs to be drained without a fault. */
    ghost predicate QueueSuits()
      reads this`live, this`replayed, this`mirror, this`strategy, this`queue
    {
      QueueFits(live, replayed.fingerprints, Ids(mirror), strategy, texts, queue)
    }

    /** Takes one update: on its order, in the ledger, and in the positions and the mirror. */
    method TakeUpdate(u: Update, now: int64) returns (ok: bool)
      requires Valid()
      modifies this`live, this`lastUpdate, this`applied, this`mirror, this`generation, this`killSwitch, this`safetyStopped,
               this`ready, this`reconciliationRequired, this`replayed, this`faulted, world`effects, world`log, world`alive, world`open
      ensures Valid() && Onward() && Untimed()
      ensures ok && !faulted ==> replayed.fingerprints == old(replayed.fingerprints)[u.updateId := texts.update(u)]
      ensures ok ==>
                && old(Expected(live, strategy, u)) && Ids(mirror) == old(Ids(mirror))
                && live == Taken(old(live), u, OSM.ApplyOrderUpdate(old(live.books.orders)[u.orderId], UpdateEvidence(u)), texts.update(u))
      ensures old(Calm()) && (old(Expected(live, strategy, u)) ==> old(UpdateSuits(u))) ==> Calm()
      ensures old(Calm()) && old(Expected(live, strategy, u)) && old(UpdateSuits(u)) ==> ok
      ensures ok ==>
                && old(lastUpdate) < u.sequence == lastUpdate && u.orderId in old(live.books.orders)
                && u.intentId in old(live.intents) && old(live.intents)[u.intentId].orderId == Some(u.orderId)
                && old(strategy) == Some((u.strategyId, u.strategyRunId))
                && old(live.intents)[u.intentId].strategyId == u.strategyId
                && old(live.intents)[u.intentId].strategyRunId == u.strategyRunId
                && var step := OSM.ApplyOrderUpdate(old(live.books.orders)[u.orderId], UpdateEvidence(u));
                   && step.error.None? && MirrorTook(old(mirror), mirror, u, step)
                   && live.books == Advanced(old(live.books), u.orderId, step)
                   && u.updateId in applied && applied[u.updateId] == texts.update(u)
      ensures live.attempts == old(live.attempts)
      ensures !ok ==> safetyStopped && generation > old(generation)
    {
      assert lastUpdate == live.lastSequence;
      hide ValidOn, AttemptTimes, World.Healthy, OSM.ApplyOrderUpdate, Advanced, UpdateBody, Taken, Ids, UpdateFits, MirrorTook;
      if u.sequence <= lastUpdate || !Correlated(live, strategy, u) {
        ForceSafetyStop(now, None, None, store.Keys);
        return false;
      }
      var step := OSM.ApplyOrderUpdate(live.books.orders[u.orderId], UpdateEvidence(u));
      var body := UpdateBody(u, step.order.state);
      if step.error.Some? || body.None? {
        ForceSafetyStop(now, None, None, store.Keys);
        return false;
      }
      UpdateHoldsEvidence(u, step.order.state);
      FaithfulReadsBack(u, step.order.state);
      var stop;
      ok, stop := WriteUpdate(u, step, UpdateEvent(u, body.value, now));
      if stop {
        ForceSafetyStop(now, None, None, store.Keys);
      }
    }

    /** Writes an update, and takes it; `stop` when the mirror does not know the order. */
    method WriteUpdate(u: Update, step: OSM.Transition, e: Event) returns (ok: bool, stop: bool)
      requires Valid() && lastUpdate < u.sequence && u.orderId in live.books.orders && u.intentId in live.intents
      requires step == OSM.ApplyOrderUpdate(live.books.orders[u.orderId], UpdateEvidence(u)) && step.error.None?
      requires EvidenceOf(e).Some? && FromBroker(e) && e.intentId == Some(u.intentId) && e.orderId == Some(u.orderId)
      requires e.source == Some(Source(u.sequence, texts.update(u), u.updateId)) && !e.body.IntentReceived? && !TimesAttempt(e)
      requires Faithful(u) ==> !Own(u.updateId) && EvidenceOf(e).value == UpdateEvidence(u)
      modifies this`live, this`lastUpdate, this`applied, this`mirror, this`generation, this`safetyStopped,
               this`ready, this`reconciliationRequired, this`replayed, this`faulted, world`effects, world`log, world`alive, world`open
      ensures Valid() && Onward() && Untimed()
      ensures ok && !faulted ==> replayed.fingerprints == old(replayed.fingerprints)[u.updateId := texts.update(u)]
      ensures ok ==> live == old(Taken(live, u, step, texts.update(u)))
      ensures Ids(mirror) == old(Ids(mirror)) && live.attempts == old(live.attempts)
      ensures old(Calm()) && UpdateFits(old(live.books), old(replayed.fingerprints), old(Ids(mirror)), u, step, texts.update(u)) ==>
                ok && Calm()
      ensures ok ==>
                && !stop && lastUpdate == u.sequence && MirrorTook(old(mirror), mirror, u, step)
                && applied == old(applied)[u.updateId := texts.update(u)]
      ensures !ok && !stop ==> safetyStopped && generation > old(generation)
    {
      hide ValidOn, Safe, Knows, Tracks, AgreeOn, AttemptTimes, World.Healthy, EvidenceOf, FromBroker, Advanced,
           OSM.ApplyOrderUpdate, Taken, PrintFits, AfterUpdate, Find, Own, TimesAttempt, PositionsFit, Ids, Faithful, MirrorTook;
      ok := RecordUpdate(u, step, e);
      stop := false;
      if ok {
        ok := Absorb(u, step, Taken(live, u, step, texts.update(u)));
        stop := !ok;
      }
    }

    /** Writes an update. */
    method RecordUpdate(u: Update, step: OSM.Transition, e: Event) returns (ok: bool)
      requires Valid() && lastUpdate < u.sequence && u.orderId in live.books.orders && u.intentId in live.intents
      requires step == OSM.ApplyOrderUpdate(live.books.orders[u.orderId], UpdateEvidence(u)) && step.error.None?
      requires EvidenceOf(e).Some? && FromBroker(e) && e.intentId == Some(u.intentId) && e.orderId == Some(u.orderId)
      requires e.source == Some(Source(u.sequence, texts.update(u), u.updateId)) && !e.body.IntentReceived? && !TimesAttempt(e)
      requires Faithful(u) ==> !Own(u.updateId) && EvidenceOf(e).value == UpdateEvidence(u)
      modifies this`generation, this`safetyStopped, this`ready, this`reconciliationRequired, this`replayed, this`faulted,
               world`effects, world`log, world`alive, world`open
      ensures Safe() && Knows({}) && Tracks() && Onward() && Untimed()
      ensures !faulted && ok ==> AgreeOn(Taken(live, u, step, texts.update(u)), replayed, store.Keys)
      ensures ok && !faulted ==> replayed.fingerprints == old(replayed.fingerprints)[u.updateId := texts.update(u)]
      ensures old(Calm()) && Faithful(u) && PrintFits(old(replayed.fingerprints), u.updateId, texts.update(u))
              && PositionsFit(live.books, u.orderId, step) ==>
                ok && Calm()
      ensures !ok ==> Valid() && safetyStopped && generation > old(generation)
    {
      hide Orderly, AllHeld, ReplayRecord, ReceivedIn, AgreeOn, ReplayLedger, OSM.ApplyOrderUpdate, EvidenceOf, FromBroker,
           Own, Taken, PrintFits, PositionsFit, AttemptTimes, TimesAttempt, World.Healthy;
      ghost var before := replayed;
      if !faulted && Faithful(u) {
        UpdateReplays(live, before, store.Keys, |world.log| + 1, e, u.orderId, step);
      }
      var b := DurableEvent(e);
      ok := b.Durable?;
      if ok {
        Weighed(u, step, e, before, Taken(live, u, step, texts.update(u)));
      }
    }

    /** Whether the ledger still agrees with the session once it holds an update. */
    ghost method Weighed(u: Update, step: OSM.Transition, e: Event, before: State, next: State)
      requires u.orderId in live.books.orders && u.intentId in live.intents && u.sequence > 0 && store.Keys == live.intents.Keys
      requires step == OSM.ApplyOrderUpdate(live.books.orders[u.orderId], UpdateEvidence(u)) && step.error.None?
      requires EvidenceOf(e).Some? && FromBroker(e) && e.intentId == Some(u.intentId) && e.orderId == Some(u.orderId)
      requires e.source == Some(Source(u.sequence, texts.update(u), u.updateId))
      requires next == Taken(live, u, step, texts.update(u))
      requires |world.log| > 0
      requires !faulted ==> ReplayRecord(before, |world.log|, e) == Ok(replayed) && AgreeOn(live, before, store.Keys)
      requires Faithful(u) ==> !Own(u.updateId) && EvidenceOf(e).value == UpdateEvidence(u)
      modifies this`faulted
      ensures (old(faulted) ==> faulted) && (!faulted ==> AgreeOn(next, replayed, store.Keys))
      ensures !old(faulted) && Faithful(u) ==> !faulted
    {
      hide ReplayRecord, AgreeOn, OSM.ApplyOrderUpdate, EvidenceOf, FromBroker, Own, Advanced, AfterBrokerEvent;
      if !faulted && !Own(u.updateId) && EvidenceOf(e).value == UpdateEvidence(u) {
        UpdateAgrees(live, before, store.Keys, |world.log|, e, u.orderId, step, next);
      } else {
        faulted := true;
      }
    }

    /** The state and the mirror after an update; an order the mirror lacks leaves the positions behind. */
    method Absorb(u: Update, step: OSM.Transition, next: State) returns (ok: bool)
      requires Safe() && Knows({}) && Tracks() && u.sequence > 0
      requires next == Taken(live, u, step, texts.update(u))
      requires !faulted ==> AgreeOn(next, replayed, store.Keys)
      modifies this`live, this`lastUpdate, this`applied, this`mirror, this`faulted
      ensures Valid() && (old(faulted) ==> faulted)
      ensures ok ==>
                && lastUpdate == u.sequence && live == next && applied == old(applied)[u.updateId := texts.update(u)]
                && MirrorTook(old(mirror), mirror, u, step)
      ensures !ok ==> u.orderId !in Ids(old(mirror)) && mirror == old(mirror)
      ensures live.attempts == old(live.attempts)
      ensures Ids(mirror) == Ids(old(mirror)) && (ok && !old(faulted) ==> !faulted)
    {
      hide ValidOn, AttemptTimes, World.Healthy, AgreeOn, AfterUpdate, Ids;
      assert next.intents == live.intents && next.lastSequence == u.sequence;
      var at := FindMirrored(u.orderId);
      ok := at.Some?;
      FindReadsIds(mirror, u.orderId);
      if ok {
        Follows(u, next);
        UpdateKeepsIds(mirror, at.value, step.order, step.positionDelta, u.updateId, u.fillPrice.GetOr(0),
                       if u.evidenceTime.Some? then u.evidenceTime.value else 0);
        Reflect(AfterUpdate(mirror, at.value, step.order, step.positionDelta, u.updateId, u.fillPrice.GetOr(0),
                            if u.evidenceTime.Some? then u.evidenceTime.value else 0));
      } else {
        LagsBehind(u, step);
      }
    }

    /** The state takes an update. */
    method Follows(u: Update, next: State)
      requires Safe() && Knows({}) && Tracks() && u.sequence > 0
      requires next.intents == live.intents && next.lastSequence == u.sequence
      requires !faulted ==> AgreeOn(next, replayed, store.Keys)
      modifies this`live, this`lastUpdate, this`applied
      ensures Valid() && lastUpdate == u.sequence && live == next && applied == old(applied)[u.updateId := texts.update(u)]
    {
      hide Orderly, AllHeld, ReplayRecord, ReceivedIn, AgreeOn, ReplayLedger;
      lastUpdate, live := u.sequence, next;
      applied := applied[u.updateId := texts.update(u)];
    }

    /** The order takes an update, and nothing else does. */
    method LagsBehind(u: Update, step: OSM.Transition)
      requires Safe() && Knows({}) && Tracks() && u.sequence > 0
      modifies this`live, this`lastUpdate, this`faulted
      ensures Valid() && faulted && live.attempts == old(live.attempts)
    {
      hide Orderly, AllHeld, ReplayRecord, ReceivedIn, AgreeOn, ReplayLedger;
      faulted, lastUpdate := true, u.sequence;
      live := live.(lastSequence := u.sequence, fingerprints := live.fingerprints[u.updateId := texts.update(u)],
                    books := live.books.(orders := live.books.orders[u.orderId := step.order]));
    }

    method FindMirrored(id: string) returns (at: Option<nat>)
      ensures at == Find(mirror.orders, id) && (at.Some? ==> at.value < |mirror.orders|)
    {
      var orders, i := mirror.orders, 0;
      while i < |orders|
        invariant i <= |orders|
        invariant Find(orders, id) == match Find(orders[i..], id) case Some(k) => Some(k + i) case None => None
      {
        assert orders[i..][1..] == orders[i + 1..];
        if orders[i].orderId == id {
          return Some(i);
        }
        i := i + 1;
      }
      at := None;
    }

    /** An update as it arrives. */
    method AcceptUpdate(u: Update, now: int64) returns (ok: bool)
      requires Valid()
      modifies this`live, this`lastUpdate, this`applied, this`mirror, this`queue, this`killSwitch,
               this`generation, this`ready, this`safetyStopped, this`reconciliationRequired, this`replayed, this`faulted,
               world`effects, world`log, world`alive, world`open
      ensures Valid() && Onward() && Untimed()
    {
      hide ValidOn, AttemptTimes, World.Healthy;
      ok := EnqueueUpdate(u, now);
      if ok {
        ok := DrainUpdates(now);
      }
    }

    // -------------------------------------------------------------- starting and stopping

    /** Startup: the ledger's state must be usable, and the broker must agree with the mirror exactly. */
    method Preflight(routesUsable: bool, exact: bool, healthy: bool, now: int64) returns (ok: bool)
      requires Valid()
      modifies this`started, this`killSwitch, this`generation, this`ready, this`safetyStopped, this`reconciliationRequired,
               this`replayed, this`faulted, world`effects, world`log, world`alive, world`open
      ensures Valid() && Forward()
      ensures old(Calm()) ==> Calm()
      ensures !old(started)
              && (old(live).safetyStopped || old(live).reconciliationRequired || old(live).globalReconciliationRequired
                  || correlationConflict || !exact || !healthy || !routesUsable) ==>
                !ok && safetyStopped && killSwitch && !ready
      ensures !old(started) && old(world.Healthy())
              && !(old(live).safetyStopped || old(live).reconciliationRequired || old(live).globalReconciliationRequired
                   || correlationConflict || !exact || !healthy || !routesUsable) ==>
                ok && world.Healthy()
    {
      hide ValidOn, AttemptTimes, World.Healthy;
      if started {
        return !safetyStopped && !reconciliationRequired;
      }
      SetStarted();
      if !routesUsable || live.safetyStopped || live.reconciliationRequired || live.globalReconciliationRequired
         || correlationConflict || !exact || !healthy {
        ForceSafetyStop(now, None, None, store.Keys);
        return false;
      }
      ok := WriteNotice(Notice(now, None, None, ReconciliationCompleted("", CancelledThere)));
    }

    method SetStarted()
      requires Valid()
      modifies this`started
      ensures Valid() && started
    {
      started := true;
    }

    /** An event that changes nothing that is compared. */
    method WriteNotice(e: Event) returns (ok: bool)
      requires Valid() && e.source.None? && e.intentId.None? && e.orderId.None?
      requires e.body.SafetyStop? || e.body.SessionStarted? || e.body.SessionStopping? || e.body.SessionStopped?
               || e.body.MarketObservationAccepted? || e.body.ReconciliationCompleted?
      modifies this`generation, this`ready, this`safetyStopped, this`reconciliationRequired, this`replayed, this`faulted,
               world`effects, world`log, world`alive, world`open
      ensures Valid() && Forward()
      ensures old(Calm()) ==> Calm()
      ensures ok ==>
                && generation == old(generation) && ready == old(ready) && safetyStopped == old(safetyStopped)
                && reconciliationRequired == old(reconciliationRequired)
      ensures !ok ==> safetyStopped && !ready
      ensures ok && !old(faulted) ==> !faulted
      ensures old(world.Healthy()) ==> ok && world.Healthy()
    {
      hide Orderly, AllHeld, ReplayRecord, ReceivedIn, AgreeOn, ReplayLedger, AttemptTimes, World.Healthy;
      ghost var before := replayed;
      var b := DurableEvent(e);
      ok := b.Durable?;
      if !old(faulted) {
        QuietEventAgrees(live, before, store.Keys, |world.log|, e);
      }
    }

    /** Becomes ready, once started and observed, when nothing has stopped it. */
    method Activate(observed: bool, now: int64) returns (ok: bool)
      requires Valid()
      modifies this`generation, this`ready, this`safetyStopped, this`reconciliationRequired, this`replayed, this`faulted,
               world`effects, world`log, world`alive, world`open
      ensures Valid() && Forward()
      ensures old(Calm()) ==> Calm()
      ensures ok ==> ready && safetyStopped == old(safetyStopped) && reconciliationRequired == old(reconciliationRequired)
      ensures !old(ready) && (!started || stopping || old(safetyStopped) || old(reconciliationRequired) || !observed) ==>
                !ok && generation == old(generation) && !ready
      ensures ok && !old(ready) ==> generation == old(generation) + 1
    {
      hide ValidOn, AttemptTimes, World.Healthy;
      if ready {
        return true;
      }
      if !started || stopping || safetyStopped || reconciliationRequired || !observed {
        return false;
      }
      ok := WriteNotice(Notice(now, None, None, SessionStarted));
      if ok {
        BecomeReady();
      }
    }

    method BecomeReady()
      requires Valid()
      modifies this`ready, this`generation
      ensures Valid() && ready && generation == old(generation) + 1
    {
      hide Orderly, AllHeld, ReplayRecord, ReceivedIn, AgreeOn, ReplayLedger;
      HeldLater();
      generation := generation + 1;
      ready := true;
    }

    /** Clears a stop after the broker agreed exactly with the mirror. */
    method Reconnect(exact: bool, healthy: bool, observed: bool, now: int64) returns (ok: bool)
      requires Valid()
      modifies this`live, this`killSwitch, this`generation, this`ready, this`safetyStopped,
               this`reconciliationRequired, this`replayed, this`faulted, world`effects, world`log, world`alive, world`open
      ensures Valid() && generation >= old(generation) && (old(faulted) ==> faulted)
      ensures (old(Calm()) ==> Calm()) && live.attempts == old(live.attempts) && Untimed()
      ensures ok ==> exact && healthy && !safetyStopped && !reconciliationRequired && generation > old(generation)
    {
      hide ValidOn, AttemptTimes, World.Healthy;
      if !started || stopping || (!safetyStopped && !reconciliationRequired) {
        return false;
      }
      if !exact || !healthy {
        ForceSafetyStop(now, None, None, store.Keys);
        return false;
      }
      ok := WriteNotice(Notice(now, None, None, ReconciliationCompleted("", CancelledThere)));
      if ok {
        ClearStop();
        if observed {
          ok := Activate(observed, now);
        }
      }
    }

    method ClearStop()
      requires Valid()
      modifies this`killSwitch, this`safetyStopped, this`reconciliationRequired, this`live, this`generation
      ensures live.attempts == old(live.attempts)
      ensures Valid() && !killSwitch && !safetyStopped && !reconciliationRequired && generation == old(generation) + 1
    {
      hide Orderly, AllHeld, ReplayRecord, ReceivedIn, ReplayLedger, SameIntents, SameOrders, SameTokens, SamePositions;
      HeldLater();
      generation := generation + 1;
      killSwitch, safetyStopped, reconciliationRequired := false, false, false;
      live := live.(safetyStopped := false, reconciliationRequired := false, globalReconciliationRequired := false);
    }

    /** Shutdown begins: no prepared submission survives it. */
    method BeginStop(now: int64) returns (ok: bool)
      requires Valid()
      modifies this`generation, this`stopping, this`ready, this`killSwitch, this`safetyStopped, this`reconciliationRequired,
               this`replayed, this`faulted, world`effects, world`log, world`alive, world`open
      ensures Valid() && Forward() && stopping && !ready && killSwitch && generation > old(generation)
      ensures old(Calm()) ==> Calm()
    {
      hide Orderly, AllHeld, ReplayRecord, ReceivedIn, AgreeOn, ReplayLedger, AttemptTimes, World.Healthy;
      HeldLater();
      generation := generation + 1;
      stopping, ready, killSwitch := true, false, true;
      ok := WriteNotice(Notice(now, None, None, SessionStopping));
    }
  }

  /** Both sides take an update whose evidence replay reads in full. */
  lemma {:induction false} UpdateAgrees(live: State, before: State, known: set<string>, sequence: nat, e: Event, id: string,
                                        step: OSM.Transition, next: State)
    requires AgreeOn(live, before, known) && FromBroker(e) && EvidenceOf(e).Some? && !Own(EvidenceOf(e).value.updateId)
    requires e.intentId.Some? && e.intentId.value in live.intents && e.orderId == Some(id) && id in live.books.orders
    requires e.source.Some? && step == OSM.ApplyOrderUpdate(live.books.orders[id], EvidenceOf(e).value) && step.error.None?
    requires next == AfterBrokerEvent(live, id, step, e.source.value.sequence).(fingerprints := next.fingerprints)
    requires ReplayRecord(before, sequence, e).Ok?
    ensures AgreeOn(next, ReplayRecord(before, sequence, e).value, known)
  {
    hide AgreeOn, ReplayRecord, EvidenceOf, OSM.ApplyOrderUpdate, Own, FromBroker, Advanced;
    BrokerEventAgrees(live, before, known, sequence, e, id);
    FingerprintsAreFree(AfterBrokerEvent(live, id, step, e.source.value.sequence), ReplayRecord(before, sequence, e).value,
                        known, next.fingerprints);
  }

  lemma UpdateHoldsEvidence(u: Update, state: OSM.OrderState)
    requires UpdateBody(u, state).Some?
    ensures forall e: Event :: e.body == UpdateBody(u, state).value ==>
              EvidenceOf(e).Some? && FromBroker(e) && !e.body.IntentReceived? && !TimesAttempt(e)
  {
  }

  function Ids(m: Mirrored): set<string> {
    set x | x in m.orders :: x.orderId
  }

  lemma FindReadsIds(m: Mirrored, id: string)
    ensures Find(m.orders, id).Some? <==> id in Ids(m)
  {
    FindReads(m.orders, id);
  }

  lemma {:induction false} FindReads(orders: seq<PaperBroker.OrderSnapshot>, id: string)
    ensures Find(orders, id).Some? <==> exists x :: x in orders && x.orderId == id
  {
    if orders != [] {
      FindReads(orders[1..], id);
      assert forall x :: x in orders <==> x == orders[0] || x in orders[1..];
    }
  }

  /** An update of a mirrored order leaves the orders' ids. */
  lemma UpdateKeepsIds(m: Mirrored, i: nat, order: OSM.Order, delta: int, updateId: string, price: uint64, timestamp: int64)
    requires i < |m.orders|
    ensures Ids(AfterUpdate(m, i, order, delta, updateId, price, timestamp)) == Ids(m)
  {
    var n := AfterUpdate(m, i, order, delta, updateId, price, timestamp);
    hide AfterFill;
    assert |n.orders| == |m.orders| && forall k :: 0 <= k < |m.orders| ==> n.orders[k].orderId == m.orders[k].orderId;
    forall id ensures id in Ids(n) <==> id in Ids(m) {
      if id in Ids(m) {
        var k :| 0 <= k < |m.orders| && m.orders[k].orderId == id;
        assert n.orders[k] in n.orders;
      }
      if id in Ids(n) {
        var k :| 0 <= k < |n.orders| && n.orders[k].orderId == id;
        assert m.orders[k] in m.orders;
      }
    }
  }

  /** Replay takes a faithful update exactly when it is new or the same as before and the positions stay in range. */
  lemma {:induction false} UpdateReplays(live: State, before: State, known: set<string>, sequence: nat, e: Event, id: string,
                                         step: OSM.Transition)
    requires AgreeOn(live, before, known) && FromBroker(e) && EvidenceOf(e).Some? && !Own(EvidenceOf(e).value.updateId)
    requires e.intentId.Some? && e.intentId.value in live.intents && e.orderId == Some(id) && id in live.books.orders
    requires e.source.Some? && step == OSM.ApplyOrderUpdate(live.books.orders[id], EvidenceOf(e).value) && step.error.None?
    requires e.source.value.sequence > live.lastSequence
    ensures ReplayRecord(before, sequence, e).Ok? <==>
              PrintFits(before.fingerprints, e.source.value.updateId, e.source.value.fingerprint) && PositionsFit(live.books, id, step)
  {
    BrokerEventAgrees(live, before, known, sequence, e, id) by {
      hide AgreeOn, ReplayRecord, EvidenceOf, OSM.ApplyOrderUpdate, Own, FromBroker, Advanced;
    }
    hide ReplayRecord, EvidenceOf, OSM.ApplyOrderUpdate, Own, FromBroker, PositionsFit, SameOrders, SameIntents, SameTokens, SamePositions;
  }

  /** What the ledger records of a faithful update is all of it. */
  lemma FaithfulReadsBack(u: Update, state: OSM.OrderState)
    requires UpdateBody(u, state).Some?
    ensures Faithful(u) ==>
              && !Own(u.updateId)
              && forall e: Event :: e.body == UpdateBody(u, state).value ==> EvidenceOf(e) == Some(UpdateEvidence(u))
  {
  }

  lemma OutcomeEventShape(intent: Risk.Intent, orderId: string, m: Mutation, fingerprint: string, now: int64)
    ensures var e := OutcomeEvent(intent, orderId, m, fingerprint, now);
            && IsOutcome(e) && !e.body.SafetyStop? && e.intentId == Some(intent.intentId) && e.orderId == Some(orderId)
            && e.source.Some? && e.source.value.sequence == 0
            && EvidenceOf(e).Some? && EvidenceOf(e).value.updateId == OutcomeId(intent.intentId, m)
            && e.source == Some(Source(0, fingerprint, OutcomeId(intent.intentId, m)))
    ensures RecordedAnswer(intent, m).correlation.Some?
  {
  }

  lemma OutcomeHoldsEvidence(e: Event)
    requires IsOutcome(e)
    ensures EvidenceOf(e).Some? && FromBroker(e) && !e.body.IntentReceived? && !TimesAttempt(e)
  {
  }

  /** Replay takes an outcome that the order takes, unless another answer came under its id. */
  lemma {:induction false} OutcomeReplays(live: State, replayed: State, known: set<string>, sequence: nat, e: Event, orderId: string)
    requires AgreeOn(live, replayed, known) && IsOutcome(e) && Takes(live.books.orders, orderId, e)
    requires !Own(EvidenceOf(e).value.updateId) && e.orderId == Some(orderId) && e.source.Some? && e.source.value.sequence == 0
    requires e.intentId.Some? && e.intentId.value in live.intents
    ensures PrintFits(replayed.fingerprints, e.source.value.updateId, e.source.value.fingerprint) ==>
              ReplayRecord(replayed, sequence, e).Ok?
  {
    hide ReplayRecord, AgreeOn, OSM.ApplyOrderUpdate, EvidenceOf, IsOutcome, Own, At;
    OutcomeHoldsEvidence(e);
    BrokerEventAgrees(live, replayed, known, sequence, e, orderId);
    OutcomeMovesNothing(e, live.books, orderId);
  }

  /** No outcome of a request moves a position. */
  lemma OutcomeMovesNothing(e: Event, books: Books, orderId: string)
    requires IsOutcome(e) && EvidenceOf(e).Some? && orderId in books.orders
    ensures FromBroker(e)
    ensures var step := OSM.ApplyOrderUpdate(books.orders[orderId], EvidenceOf(e).value);
            && Advanced(books, orderId, step) == books.(orders := books.orders[orderId := step.order])
            && PositionsFit(books, orderId, step)
  {
    hide OSM.ApplyOrderUpdate;
    OtherEvidenceMovesNothing(books.orders[orderId], EvidenceOf(e).value);
  }

  function OutcomeDisposition(body: Body): Disposition {
    match body
    case BrokerAcknowledged(_, _) => Acknowledged
    case Modified(_, _, _) => ModifyDone
    case ModifyRejected(_) => ModifyRefused
    case CancelRejected(_) => CancelRefused
    case Cancelled(_) => CancelDone
    case _ => Disposition.Refused
  }

  function AttemptDisposition(action: Risk.Action): Disposition {
    match action
    case Place => Disposition.Submitted
    case Modify => Disposition.ModifyAsked
    case Cancel => Disposition.CancelAsked
  }

  lemma SeenShows(view: Risk.Snapshot, a: Authority, route: Option<Risk.Route>, times: seq<int64>, now: Risk.instant)
    ensures var s := Seen(view, a, route, times, now); s.route == route && s.recentOrderTimes == times && s.now == now
  {
  }

  /** Only a cancellation is approved without a route. */
  lemma ApprovedHasRoute(config: Risk.Config, intent: Risk.Intent, s: Risk.Snapshot)
    requires Risk.Approved(Risk.Evaluate(config, intent, s)) && !intent.action.Cancel?
    ensures s.route.Some? && s.route.value.instrument == intent.instrument
  {
    hide Risk.Evaluate, Risk.Approved;
    Risk.ApprovedIff(config, intent, s);
  }

  /** Only a cancellation is approved beyond the rate limit. */
  lemma ApprovedKeepsRate(config: Risk.Config, intent: Risk.Intent, s: Risk.Snapshot)
    requires Risk.Approved(Risk.Evaluate(config, intent, s)) && !intent.action.Cancel?
    ensures Risk.Recent(s.recentOrderTimes, Risk.WindowStart(config, s.now), s.now) < config.maximumOrdersPerWindow
  {
    hide Risk.Evaluate, Risk.Approved;
    Risk.ApprovedIff(config, intent, s);
  }

  /** The four events, written one after the other, are a chain. */
  lemma ChainFromParts(before: seq<Event>, routed: seq<Event>, log: seq<Event>, intent: Risk.Intent, orderId: string,
                       route: Option<Risk.Route>)
    requires Announced(before, routed, intent.intentId, orderId, route) && Pursued(routed, log, intent, orderId)
    requires route.None? ==> intent.action.Cancel?
    ensures ChainAt(log, |before|, intent, orderId)
  {
    hide IsAttempt;
    var k := |before|;
    assert log[k] == routed[k] == routed[..k + 1][k] && log[k + 1] == routed[k + 1];
  }

  lemma SafetyStopReplays(replayed: State, sequence: nat, e: Event)
    requires e.body.SafetyStop? && e.source.None?
    ensures ReplayRecord(replayed, sequence, e) == Ok(replayed.(safetyStopped := true))
  {
    assert !HoldsEvidence(e) by { QuietHoldsNone(e); }
    hide EvidenceOf, HoldsEvidence;
  }

  lemma ConflictIsRejected(config: Risk.Config, intent: Risk.Intent, s: Risk.Snapshot)
    requires s.idempotency.ConflictingIntent?
    ensures !Risk.Approved(Risk.Evaluate(config, intent, s))
  {
    hide Risk.Evaluate, Risk.Approved;
    Risk.ApprovedIff(config, intent, s);
  }

  lemma AttemptIsAttempt(intent: Risk.Intent, orderId: string, time: int64)
    requires WellFormedIntent(intent)
    ensures var e := AttemptEvent(intent, orderId, time);
            && IsAttempt(e, intent) && e.intentId == Some(intent.intentId) && e.orderId == Some(orderId)
            && e.timestamp == time && e.source.None? && !e.body.IntentReceived? && (TimesAttempt(e) <==> !intent.action.Cancel?)
    ensures forall orders :: AttemptStep(orders, intent, orderId, AttemptEvent(intent, orderId, time)).Some? ==>
              intent.action.Place? || orderId in orders
  {
  }

  predicate Named(intent: IntentState) {
    intent.strategyId != "" && intent.strategyRunId != ""
  }

  /** Every intent names the one strategy and run of the ledger. */
  ghost predicate OneStrategy(intents: Intents) {
    && (forall i :: i in intents ==> intents[i].strategyId != "" && intents[i].strategyRunId != "")
    && (forall i, j :: i in intents && j in intents ==>
          intents[i].strategyId == intents[j].strategyId && intents[i].strategyRunId == intents[j].strategyRunId)
  }

  /** The earliest named intent of each order owns it. */
  method Owners(intents: Intents) returns (owners: map<string, string>)
    ensures forall o :: o in owners ==>
              && owners[o] in intents && intents[owners[o]].orderId == Some(o)
              && forall i :: i in intents && Named(intents[i]) && intents[i].orderId == Some(o) ==>
                   intents[owners[o]].firstSequence <= intents[i].firstSequence
    ensures forall i :: i in intents && Named(intents[i]) && intents[i].orderId.Some? ==> intents[i].orderId.value in owners
  {
    owners := map[];
    var left := intents.Keys;
    while left != {}
      invariant left <= intents.Keys
      invariant forall o :: o in owners ==>
                  && owners[o] in intents && intents[owners[o]].orderId == Some(o)
                  && forall i :: i in intents.Keys - left && Named(intents[i]) && intents[i].orderId == Some(o) ==>
                       intents[owners[o]].firstSequence <= intents[i].firstSequence
      invariant forall i :: i in intents.Keys - left && Named(intents[i]) && intents[i].orderId.Some? ==>
                  intents[i].orderId.value in owners
      decreases left
    {
      var i :| i in left;
      left := left - {i};
      if Named(intents[i]) && intents[i].orderId.Some? {
        var o := intents[i].orderId.value;
        if o !in owners || intents[i].firstSequence < intents[owners[o]].firstSequence {
          owners := owners[o := i];
        }
      }
    }
  }

  /** The strategy of the intents a ledger holds, and whether some of them contradict it. */
  method BoundStrategy(intents: Intents) returns (bound: Option<(string, string)>, conflict: bool)
    ensures bound.None? ==> forall i :: i in intents ==> !Named(intents[i])
    ensures bound.Some? ==> exists i :: i in intents && bound.value == (intents[i].strategyId, intents[i].strategyRunId)
    ensures conflict <==> !OneStrategy(intents)
  {
    bound, conflict := None, false;
    var left := intents.Keys;
    ghost var first := "";
    while left != {}
      invariant left <= intents.Keys
      invariant bound.None? ==> forall i :: i in intents.Keys - left ==> !Named(intents[i])
      invariant bound.Some? ==>
                  first in intents && Named(intents[first]) && bound.value == (intents[first].strategyId, intents[first].strategyRunId)
      invariant !conflict ==>
                  forall i :: i in intents.Keys - left ==>
                    Named(intents[i]) && bound == Some((intents[i].strategyId, intents[i].strategyRunId))
      invariant conflict ==> !OneStrategy(intents)
      decreases left
    {
      var i :| i in left;
      left := left - {i};
      if !Named(intents[i]) {
        conflict := true;
      } else if bound.None? {
        first := i;
        bound := Some((intents[i].strategyId, intents[i].strategyRunId));
      } else if bound.value != (intents[i].strategyId, intents[i].strategyRunId) {
        conflict := true;
      }
    }
  }

  method SomeLater(times: seq<int64>, now: int64) returns (later: bool)
    ensures later <==> exists i :: 0 <= i < |times| && times[i] > now
  {
    for i := 0 to |times|
      invariant forall k :: 0 <= k < i ==> times[k] <= now
    {
      if times[i] > now {
        return true;
      }
    }
    later := false;
  }
}
