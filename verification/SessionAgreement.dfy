/**
 The live state of a session and the state its ledger reconstructs: what it means that they agree, and
 that each thing a session does, with the event it writes, keeps them in agreement.

 Not compared: the bookkeeping of intents beyond their fingerprints, and the fingerprints of updates,
 which replay also keeps for the outcomes of requests.
*/
module SessionAgreement {
  import opened Base
  import OSM = OrderStateMachine
  import opened OrderSimilarity
  import opened Replay
  import opened ReplayBooks

  /** The order an intent places: a digest that contains the intent's id. */
  function OrderIdOf(intentId: string): string {
    intentId + ":internal-order"
  }

  lemma OrderIdIsInjective(i: string, j: string)
    requires OrderIdOf(i) == OrderIdOf(j)
    ensures i == j
  {
    assert OrderIdOf(i)[..|i|] == i && OrderIdOf(j)[..|j|] == j;
  }

  // ---------------------------------------------------------------- agreement

  ghost predicate SameIntents(live: Intents, replayed: Intents) {
    && live.Keys == replayed.Keys
    && forall id :: id in live ==> live[id].fingerprint == replayed[id].fingerprint
  }

  /** Every order was placed by a known intent. */
  ghost predicate Placed(orders: map<string, OSM.Order>, known: set<string>) {
    forall id :: id in orders ==> exists i :: i in known && id == OrderIdOf(i)
  }

  ghost predicate ValidOrders(orders: map<string, OSM.Order>) {
    forall id :: id in orders ==> OSM.ValidTerms(orders[id])
  }

  ghost predicate SameOrders(live: Books, replayed: Books, known: set<string>) {
    && live.orders.Keys == replayed.orders.Keys && Placed(live.orders, known)
    && ValidOrders(live.orders) && ValidOrders(replayed.orders)
    && (forall id :: id in live.orders ==> Similar(live.orders[id], replayed.orders[id], known))
  }

  ghost predicate SameTokens(live: Books, replayed: Books) {
    forall id :: id in live.orders ==>
      id in live.tokens && id in replayed.tokens && live.tokens[id] == replayed.tokens[id]
  }

  ghost predicate SamePositions(live: Books, replayed: Books) {
    && (forall key :: At(live.positions, key) == At(replayed.positions, key))
    && (forall key :: At(live.routePositions, key) == At(replayed.routePositions, key))
  }

  /** Agreement, with the requests of the intents in `known` applied. */
  ghost predicate AgreeOn(live: State, replayed: State, known: set<string>) {
    && SameIntents(live.intents, replayed.intents)
    && SameOrders(live.books, replayed.books, known)
    && SameTokens(live.books, replayed.books) && SamePositions(live.books, replayed.books)
    && live.lastSequence == replayed.lastSequence && live.attempts == replayed.attempts
  }

  ghost predicate Agree(live: State, replayed: State) {
    AgreeOn(live, replayed, live.intents.Keys)
  }

  /** What an intent became is not compared. */
  lemma IntentDetailsAreFree(live: State, replayed: State, known: set<string>, id: string, intent: IntentState)
    requires AgreeOn(live, replayed, known) && id in live.intents && intent.fingerprint == live.intents[id].fingerprint
    ensures AgreeOn(live.(intents := live.intents[id := intent]), replayed, known)
  {
    hide SameOrders, SameTokens, SamePositions;
  }

  /** Nor are the fingerprints of updates. */
  lemma FingerprintsAreFree(live: State, replayed: State, known: set<string>, fingerprints: map<string, string>)
    requires AgreeOn(live, replayed, known)
    ensures AgreeOn(live.(fingerprints := fingerprints), replayed, known)
  {
    hide SameOrders, SameTokens, SamePositions, SameIntents;
  }

  /** Writing an order's token again changes nothing. */
  lemma SameTokenAgain(live: State, replayed: State, known: set<string>, id: string, token: string)
    requires AgreeOn(live, replayed, known) && id in live.books.orders
    requires id in replayed.books.tokens && replayed.books.tokens[id] == token
    ensures id in live.books.tokens && live.books.tokens[id := token] == live.books.tokens
  {
    hide SameOrders, SamePositions, SameIntents;
  }

  lemma KnownToReplay(live: State, replayed: State, known: set<string>, id: string)
    requires AgreeOn(live, replayed, known) && id in live.intents
    ensures id in replayed.intents
  {
  }

  lemma EmptyAgree()
    ensures Agree(EMPTY, EMPTY)
  {
  }

  /** Main result for restarts: what the ledger of a session in agreement reconstructs agrees with itself, so
      the session that starts from it is in agreement from its start. */
  lemma {:induction false} RestartAgrees(live: State, replayed: State)
    requires Agree(live, replayed)
    ensures Agree(replayed, replayed)
  {
    hide OnlyKnownRequests, OSM.ValidTerms, OrderIdOf, At;
    forall id | id in replayed.books.orders
      ensures Similar(replayed.books.orders[id], replayed.books.orders[id], replayed.intents.Keys)
    {
      assert Similar(live.books.orders[id], replayed.books.orders[id], live.intents.Keys);
    }
  }

  // ---------------------------------------------------------------- what replay does with each event

  /** Events that change nothing that is compared. */
  lemma {:induction false} QuietEventAgrees(live: State, replayed: State, known: set<string>, sequence: nat, e: Event)
    requires AgreeOn(live, replayed, known) && e.source.None?
    requires e.body.SafetyStop? || e.body.SessionStarted? || e.body.SessionStopping? || e.body.SessionStopped?
             || e.body.MarketObservationAccepted? || e.body.LedgerRepairRecorded?
             || (e.body.ReconciliationCompleted? && e.orderId.None?)
             || (e.body.ReconciliationRequired? && (e.intentId.Some? ==> e.intentId.value in live.intents))
             || (e.body.MappingRefused? && e.intentId.Some? && e.intentId.value in live.intents)
    ensures ReplayRecord(replayed, sequence, e).Ok? && AgreeOn(live, ReplayRecord(replayed, sequence, e).value, known)
  {
    hide SameOrders, SameTokens, SamePositions, EvidenceOf;
    assert !HoldsEvidence(e) by { QuietHoldsNone(e); }
    hide HoldsEvidence;
  }

  lemma QuietHoldsNone(e: Event)
    ensures (|| e.body.SafetyStop? || e.body.SessionStarted? || e.body.SessionStopping? || e.body.SessionStopped?
             || e.body.MarketObservationAccepted? || e.body.LedgerRepairRecorded? || e.body.ReconciliationRequired?
             || e.body.MappingRefused? || e.body.IntentReceived? || e.body.RiskApproved? || e.body.RiskRejected?
             || e.body.SubmissionStarted? || e.body.MappingValidated?
             || (e.body.ReconciliationCompleted? && e.orderId.None?)) ==>
              !HoldsEvidence(e)
  {
  }

  /** A received intent is new on both sides. */
  lemma {:induction false} ReceivedAgrees(live: State, replayed: State, known: set<string>, sequence: nat, e: Event, intent: IntentState)
    requires AgreeOn(live, replayed, known) && e.source.None? && e.body.IntentReceived?
    requires e.intentId.Some? && e.intentId.value !in live.intents && intent.fingerprint == e.body.fingerprint
    ensures var next := live.(intents := live.intents[e.intentId.value := intent]);
            ReplayRecord(replayed, sequence, e).Ok? && AgreeOn(next, ReplayRecord(replayed, sequence, e).value, known)
    ensures ReplayRecord(replayed, sequence, e).value.intents[e.intentId.value].decision.None?
    ensures ReplayRecord(replayed, sequence, e).value.books == replayed.books
  {
    hide EvidenceOf, SameTokens, SamePositions;
    QuietHoldsNone(e);
    hide SameOrders, HoldsEvidence;
  }

  lemma {:induction false} GrowKnown(live: Books, replayed: Books, known: set<string>, id: string)
    requires SameOrders(live, replayed, known)
    ensures SameOrders(live, replayed, known + {id})
  {
    hide OSM.ValidTerms, Similar, OrderIdOf;
    forall o | o in live.orders ensures Similar(live.orders[o], replayed.orders[o], known + {id}) {
      SimilarGrows(live.orders[o], replayed.orders[o], known, id);
    }
    forall o | o in live.orders ensures exists i :: i in known + {id} && o == OrderIdOf(i) {
      var i :| i in known && o == OrderIdOf(i);
      assert i in known + {id};
    }
  }

  /** A route that does not contradict the one recorded for its order is taken, and is its order's. */
  lemma {:induction false} MappingAgrees(live: State, replayed: State, known: set<string>, sequence: nat, e: Event)
    requires AgreeOn(live, replayed, known) && e.source.None? && e.body.MappingValidated?
    requires e.intentId.Some? && e.intentId.value in live.intents && e.orderId.Some?
    ensures var tokens, id := replayed.books.tokens, e.orderId.value;
            ReplayRecord(replayed, sequence, e).Ok? <==> (id in tokens ==> tokens[id] == e.body.token)
    ensures ReplayRecord(replayed, sequence, e).Ok? ==>
              && AgreeOn(live, ReplayRecord(replayed, sequence, e).value, known)
              && e.orderId.value in ReplayRecord(replayed, sequence, e).value.books.tokens
              && ReplayRecord(replayed, sequence, e).value.books.tokens[e.orderId.value] == e.body.token
  {
    hide EvidenceOf, SamePositions, SameOrders, Told, SameIntents;
    QuietHoldsNone(e);
    ToldKeepsIntents(live.intents, replayed.intents, e, Mapped, false);
    hide HoldsEvidence;
    var routed := Routed(replayed.books, e);
    if routed.Ok? {
      OrdersIgnoreTokens(live.books, replayed.books, routed.value, known);
    }
  }

  lemma ToldKeepsIntents(live: Intents, replayed: Intents, e: Event, disposition: Disposition, ambiguous: bool)
    requires SameIntents(live, replayed) && e.intentId.Some? && e.intentId.value in live
    ensures Told(replayed, e, disposition, ambiguous).Ok?
    ensures SameIntents(live, Told(replayed, e, disposition, ambiguous).value)
  {
  }

  /** A route does not touch decisions. */
  lemma {:induction false} RouteKeepsDecision(replayed: State, sequence: nat, e: Event, id: string)
    requires ReplayRecord(replayed, sequence, e).Ok? && (e.body.MappingValidated? || e.body.MappingRefused?)
    requires id in replayed.intents
    ensures var next := ReplayRecord(replayed, sequence, e).value;
            id in next.intents && next.intents[id].decision == replayed.intents[id].decision
  {
    hide EvidenceOf, Routed;
    QuietHoldsNone(e);
    hide HoldsEvidence;
  }

  lemma OrdersIgnoreTokens(live: Books, replayed: Books, next: Books, known: set<string>)
    requires next == replayed.(tokens := next.tokens)
    ensures SameOrders(live, replayed, known) ==> SameOrders(live, next, known)
    ensures SameTokens(live, replayed) && (forall id :: id in replayed.tokens ==> id in next.tokens && next.tokens[id] == replayed.tokens[id]) ==>
              SameTokens(live, next)
    ensures SamePositions(live, replayed) ==> SamePositions(live, next)
  {
  }

  /** A decision is taken unless replay holds a different one for the intent. */
  lemma {:induction false} DecisionAgrees(live: State, replayed: State, known: set<string>, sequence: nat, e: Event)
    requires AgreeOn(live, replayed, known) && e.source.None? && (e.body.RiskApproved? || e.body.RiskRejected?)
    requires e.intentId.Some? && e.intentId.value in live.intents
    ensures var held := replayed.intents[e.intentId.value].decision;
            ReplayRecord(replayed, sequence, e).Ok? <==> held.None? || held == Some(e.body.decision)
    ensures ReplayRecord(replayed, sequence, e).Ok? ==> AgreeOn(live, ReplayRecord(replayed, sequence, e).value, known)
    ensures ReplayRecord(replayed, sequence, e).Ok? ==> ReplayRecord(replayed, sequence, e).value.books == replayed.books
  {
    hide EvidenceOf, SameOrders, SameTokens, SamePositions, Told, Decided, SameIntents;
    QuietHoldsNone(e);
    hide HoldsEvidence;
    DecidedKeepsIntents(live.intents, replayed.intents, e, e.body.decision);
    var decided := Decided(replayed.intents, e, e.body.decision);
    if decided.Ok? {
      ToldKeepsIntents(live.intents, decided.value, e, if e.body.RiskApproved? then Approved else Declined, false);
    }
  }

  lemma DecidedKeepsIntents(live: Intents, replayed: Intents, e: Event, decision: string)
    requires SameIntents(live, replayed) && e.intentId.Some? && e.intentId.value in live
    ensures var held := replayed[e.intentId.value].decision;
            Decided(replayed, e, decision).Ok? <==> held.None? || held == Some(decision)
    ensures Decided(replayed, e, decision).Ok? ==> SameIntents(live, Decided(replayed, e, decision).value)
  {
  }

  /** The request of an intent counts as known once the intent is. */
  lemma {:induction false} AgreementGrows(live: State, replayed: State, known: set<string>, id: string)
    requires AgreeOn(live, replayed, known)
    ensures AgreeOn(live, replayed, known + {id})
  {
    hide SameIntents, SameTokens, SamePositions, SameOrders;
    GrowKnown(live.books, replayed.books, known, id);
  }

  /** An intent that is not yet known has placed no order. */
  lemma NewIntentHasNoOrder(books: Books, known: set<string>, id: string)
    requires Placed(books.orders, known) && id !in known
    ensures OrderIdOf(id) !in books.orders
  {
    hide OrderIdOf;
    if OrderIdOf(id) in books.orders {
      var i :| i in known && OrderIdOf(id) == OrderIdOf(i);
      OrderIdIsInjective(id, i);
      assert false;
    }
  }

  // ---------------------------------------------------------------- orders

  /** The live books after an order was submitted on a route. */
  function Submitted(books: Books, id: string, order: OSM.Order, token: string): Books {
    books.(orders := books.orders[id := order], tokens := books.tokens[id := token])
  }

  lemma {:induction false} SubmittedIsSimilar(id: string, e: Event, known: set<string>)
    requires e.body.SubmissionStarted? && !Own(e.eventId)
    ensures var r := OSM.ApplyOrderUpdate(Prepared(id, e), OSM.Plain(OSM.SubmissionStartedEvent, e.eventId));
            r.error.None? ==> Similar(r.order, r.order, known) && OSM.ValidTerms(r.order)
  {
    SubmittedOrderIsValid(id, e);
    hide Own, AttemptId, RequestId, OSM.FindEvidence;
    var u := OSM.Plain(OSM.SubmissionStartedEvent, e.eventId);
    NothingRequested(known);
    ForeignItemKeepsSame([], [], OSM.AppliedEvidence(e.eventId, u.Fingerprint()), known);
    assert [] + [OSM.AppliedEvidence(e.eventId, u.Fingerprint())] == [OSM.AppliedEvidence(e.eventId, u.Fingerprint())];
  }

  lemma NothingRequested(known: set<string>)
    ensures OnlyKnownRequests([], known) && SameForeignEvidence([], [])
  {
  }

  lemma BooksIgnoreOrders(live: Books, replayed: Books, l: Books, r: Books)
    requires l.positions == live.positions && l.routePositions == live.routePositions
    requires r.positions == replayed.positions && r.routePositions == replayed.routePositions
    ensures SamePositions(live, replayed) ==> SamePositions(l, r)
    ensures l.tokens == live.tokens && r.tokens == replayed.tokens && l.orders.Keys == live.orders.Keys
            && SameTokens(live, replayed) ==>
              SameTokens(l, r)
  {
    hide At;
  }

  lemma {:induction false} OrdersAfterSubmission(live: Books, replayed: Books, known: set<string>, intentId: string, id: string,
                                                 order: OSM.Order, token: string)
    requires SameOrders(live, replayed, known) && SameTokens(live, replayed) && id == OrderIdOf(intentId)
    requires Similar(order, order, known + {intentId}) && OSM.ValidTerms(order)
    requires id in replayed.tokens && replayed.tokens[id] == token
    ensures var next := replayed.(orders := replayed.orders[id := order]);
            && SameOrders(Submitted(live, id, order, token), next, known + {intentId})
            && SameTokens(Submitted(live, id, order, token), next)
  {
    hide OSM.ValidTerms, Similar, OrderIdOf;
    GrowKnown(live, replayed, known, intentId);
    assert intentId in known + {intentId};
  }

  /** Main step: a submitted order is the same on both sides. */
  lemma {:induction false} SubmissionAgrees(live: State, replayed: State, known: set<string>, sequence: nat, e: Event,
                                            intentId: string, id: string)
    requires AgreeOn(live, replayed, known) && e.source.None? && e.body.SubmissionStarted? && !Own(e.eventId)
    requires e.intentId == Some(intentId) && intentId in live.intents && intentId !in known
    requires e.orderId == Some(id) && id == OrderIdOf(intentId) && id in replayed.books.tokens
    requires OSM.ApplyOrderUpdate(Prepared(id, e), OSM.Plain(OSM.SubmissionStartedEvent, e.eventId)).error.None?
    ensures var order := OSM.ApplyOrderUpdate(Prepared(id, e), OSM.Plain(OSM.SubmissionStartedEvent, e.eventId)).order;
            var next := live.(books := Submitted(live.books, id, order, replayed.books.tokens[id]),
                              attempts := live.attempts + [e.timestamp]);
            ReplayRecord(replayed, sequence, e).Ok? && AgreeOn(next, ReplayRecord(replayed, sequence, e).value, known + {intentId})
  {
    hide EvidenceOf, SamePositions, Told, SameIntents, OSM.ApplyOrderUpdate;
    QuietHoldsNone(e);
    SubmittedIsSimilar(id, e, known + {intentId});
    NewIntentHasNoOrder(replayed.books, known, intentId);
    ToldKeepsIntents(live.intents, replayed.intents, e, Disposition.Submitted, false);
    var order := OSM.ApplyOrderUpdate(Prepared(id, e), OSM.Plain(OSM.SubmissionStartedEvent, e.eventId)).order;
    OrdersAfterSubmission(live.books, replayed.books, known, intentId, id, order, replayed.books.tokens[id]);
    BooksIgnoreOrders(live.books, replayed.books, Submitted(live.books, id, order, replayed.books.tokens[id]),
                      replayed.books.(orders := replayed.books.orders[id := order]));
    hide HoldsEvidence, SameOrders, SameTokens, OrderIdOf, Own;
  }

  lemma {:induction false} ReplaceSimilar(live: Books, replayed: Books, known: set<string>, more: set<string>, id: string,
                                          a: OSM.Order, b: OSM.Order)
    requires SameOrders(live, replayed, known) && id in live.orders && known <= more
    requires Similar(a, b, more) && OSM.ValidTerms(a) && OSM.ValidTerms(b)
    requires forall o :: o in live.orders ==> Similar(live.orders[o], replayed.orders[o], more)
    ensures SameOrders(live.(orders := live.orders[id := a]), replayed.(orders := replayed.orders[id := b]), more)
  {
    hide OSM.ValidTerms, Similar, OrderIdOf;
    forall o | o in live.orders ensures exists i :: i in more && o == OrderIdOf(i) {
      var i :| i in known && o == OrderIdOf(i);
      assert i in more;
    }
  }

  /** A request as the live session applies it. */
  function LiveRequest(body: Body, intentId: string): OSM.Evidence
    requires body.ModifyRequested? || body.CancelRequested?
  {
    if body.ModifyRequested? then OSM.Terms(OSM.ModifyRequested, AttemptId(intentId), body.quantity, body.limitPrice)
    else OSM.Plain(OSM.CancelRequested, AttemptId(intentId))
  }

  /** Main step: a modification or cancellation request, under its own id on each side. */
  lemma {:induction false} RequestAgrees(live: State, replayed: State, known: set<string>, sequence: nat, e: Event,
                                         intentId: string, id: string)
    requires AgreeOn(live, replayed, known) && e.source.None? && (e.body.ModifyRequested? || e.body.CancelRequested?)
    requires e.intentId == Some(intentId) && intentId in live.intents && intentId !in known
    requires e.orderId == Some(id) && id in live.books.orders && e.body.updateId == RequestId(intentId)
    requires OSM.ApplyOrderUpdate(live.books.orders[id], LiveRequest(e.body, intentId)).error.None?
    ensures var order := OSM.ApplyOrderUpdate(live.books.orders[id], LiveRequest(e.body, intentId)).order;
            var next := live.(books := live.books.(orders := live.books.orders[id := order]),
                              attempts := if e.body.ModifyRequested? then live.attempts + [e.timestamp] else live.attempts);
            ReplayRecord(replayed, sequence, e).Ok? && AgreeOn(next, ReplayRecord(replayed, sequence, e).value, known + {intentId})
  {
    hide Told, SameIntents, OSM.ApplyOrderUpdate, OSM.ValidTerms, Similar, AttemptId, RequestId, SamePositions, Placed;
    var u, v := LiveRequest(e.body, intentId), EvidenceOf(e).value;
    var a, b := live.books.orders[id], replayed.books.orders[id];
    SimilarUnderRequest(a, b, u, v, intentId, known);
    var r, q := OSM.ApplyOrderUpdate(a, u), OSM.ApplyOrderUpdate(b, v);
    StepKeepsTerms(a, u);
    StepKeepsTerms(b, v);
    GrowKnown(live.books, replayed.books, known, intentId);
    ReplaceSimilar(live.books, replayed.books, known, known + {intentId}, id, r.order, q.order);
    RequestReplays(replayed, sequence, e, q.order);
    BooksIgnoreOrders(live.books, replayed.books, live.books.(orders := live.books.orders[id := r.order]),
                      replayed.books.(orders := replayed.books.orders[id := q.order]));
    var kind := if e.body.ModifyRequested? then ModifyAsked else CancelAsked;
    ToldKeepsIntents(live.intents, replayed.intents, e, kind, false);
    hide SameOrders, SameTokens, EvidenceOf, ReplayRecord;
  }

  lemma StepKeepsTerms(o: OSM.Order, u: OSM.Evidence)
    requires OSM.ValidTerms(o)
    ensures OSM.ValidTerms(OSM.ApplyOrderUpdate(o, u).order)
  {
    hide OSM.ApplyNew, OSM.ValidTerms;
    OSM.NewStepIsGood(o, u);
  }

  /** What replay makes of a request that its order takes. */
  lemma {:induction false} RequestReplays(replayed: State, sequence: nat, e: Event, order: OSM.Order)
    requires e.source.None? && (e.body.ModifyRequested? || e.body.CancelRequested?) && e.orderId.Some?
    requires e.orderId.value in replayed.books.orders
    requires var step := OSM.ApplyOrderUpdate(replayed.books.orders[e.orderId.value], EvidenceOf(e).value);
             step.error.None? && step.order == order
    ensures var told := Told(replayed.intents, e, if e.body.ModifyRequested? then ModifyAsked else CancelAsked, false);
            told.Ok? ==>
              ReplayRecord(replayed, sequence, e)
              == Ok(replayed.(books := replayed.books.(orders := replayed.books.orders[e.orderId.value := order]),
                              intents := told.value,
                              attempts := if e.body.ModifyRequested? then replayed.attempts + [e.timestamp] else replayed.attempts))
  {
    hide Told, OSM.ApplyOrderUpdate;
  }

  // ---------------------------------------------------------------- outcomes and updates

  predicate Fits(position: int64, delta: int) {
    INT64_MIN <= position + delta <= INT64_MAX
  }

  /** The live books after an order took evidence: the order, and the positions when the fill moved them. */
  function Advanced(books: Books, id: string, r: OSM.Transition): Books {
    var books := books.(orders := books.orders[id := r.order]);
    if r.positionDelta == 0 then books
    else
      var instrument := r.order.instrument;
      var positions := books.positions[instrument := Plus(At(books.positions, instrument), r.positionDelta)];
      if id !in books.tokens then books.(positions := positions)
      else
        var token := books.tokens[id];
        books.(positions := positions,
               routePositions := books.routePositions[token := Plus(At(books.routePositions, token), r.positionDelta)])
  }

  /** The positions an evidence event moves stay in range. */
  predicate PositionsFit(books: Books, id: string, r: OSM.Transition) {
    && Fits(At(books.positions, r.order.instrument), r.positionDelta)
    && (id in books.tokens ==> Fits(At(books.routePositions, books.tokens[id]), r.positionDelta))
  }

  /** An event for one of a broker's answers or updates. */
  predicate FromBroker(e: Event) {
    || e.body.BrokerAcknowledged? || e.body.Filled? || e.body.Modified? || e.body.ModifyRejected?
    || e.body.CancelRejected? || e.body.Cancelled? || e.body.BrokerRejected? || e.body.AmbiguousSubmission?
  }

  lemma AddCheckedIff(positions: map<string, int64>, key: string, delta: int)
    requires -INT64_MAX <= delta <= INT64_MAX
    ensures AddChecked(positions, key, delta).Ok? <==> Fits(At(positions, key), delta)
    ensures Fits(At(positions, key), delta) ==>
              AddChecked(positions, key, delta).value == positions[key := At(positions, key) + delta]
  {
  }

  lemma {:induction false} AddPositionIff(books: Books, e: Event, instrument: string, delta: int)
    requires -INT64_MAX <= delta <= INT64_MAX && e.orderId.Some?
    ensures var id := e.orderId.value;
            var r := AddPosition(books, e, instrument, delta);
            && (r.Ok? <==> Fits(At(books.positions, instrument), delta)
                           && (id in books.tokens ==> Fits(At(books.routePositions, books.tokens[id]), delta)))
            && (r.Ok? ==>
                  && r.value.orders == books.orders && r.value.tokens == books.tokens
                  && (forall key :: At(r.value.positions, key)
                                    == At(books.positions, key) + if key == instrument then delta else 0)
                  && (forall key :: At(r.value.routePositions, key)
                                    == At(books.routePositions, key)
                                       + if id in books.tokens && key == books.tokens[id] then delta else 0))
  {
    hide AddChecked, Fits, At;
    AddCheckedIff(books.positions, instrument, delta);
    if Fits(At(books.positions, instrument), delta) {
      AtAfterSet(books.positions, instrument, delta);
    }
    if e.orderId.value in books.tokens {
      var token := books.tokens[e.orderId.value];
      AddCheckedIff(books.routePositions, token, delta);
      if Fits(At(books.routePositions, token), delta) {
        AtAfterSet(books.routePositions, token, delta);
      }
    }
  }

  lemma AtAfterSet(positions: map<string, int64>, key: string, delta: int)
    requires Fits(At(positions, key), delta)
    ensures forall other :: At(positions[key := At(positions, key) + delta], other)
                            == At(positions, other) + if other == key then delta else 0
  {
  }

  lemma {:induction false} AdvancedAdds(books: Books, id: string, r: OSM.Transition)
    requires PositionsFit(books, id, r)
    ensures var next := Advanced(books, id, r);
            && next.orders == books.orders[id := r.order]
            && PositionsMoved(books, next, id, r.order.instrument, r.positionDelta)
  {
    hide At;
    AtAfterSet(books.positions, r.order.instrument, r.positionDelta);
    if id in books.tokens {
      AtAfterSet(books.routePositions, books.tokens[id], r.positionDelta);
    }
  }

  /** The deltas of the order machine are machine integers. */
  lemma DeltaFits(o: OSM.Order, u: OSM.Evidence)
    requires OSM.ValidTerms(o)
    ensures -INT64_MAX <= OSM.ApplyOrderUpdate(o, u).positionDelta <= INT64_MAX
  {
    hide OSM.FindEvidence, OSM.ApplyNew;
    DeltaFitsNew(o, u);
  }

  lemma DeltaFitsNew(o: OSM.Order, u: OSM.Evidence)
    ensures -INT64_MAX <= OSM.ApplyNew(o, u).positionDelta <= INT64_MAX
  {
    hide OSM.WorkingState, OSM.SettleWorking, OSM.ClearPending;
  }

  /** A broker's update takes the same step on both sides. */
  lemma {:induction false} SameStep(live: Books, replayed: Books, known: set<string>, u: OSM.Evidence, id: string)
    requires SameOrders(live, replayed, known) && !Own(u.updateId) && id in live.orders
    requires OSM.ApplyOrderUpdate(live.orders[id], u).error.None?
    ensures var r, q := OSM.ApplyOrderUpdate(live.orders[id], u), OSM.ApplyOrderUpdate(replayed.orders[id], u);
            && q.error.None? && r.positionDelta == q.positionDelta && r.order.instrument == q.order.instrument
            && -INT64_MAX <= q.positionDelta <= INT64_MAX
            && SameOrders(live.(orders := live.orders[id := r.order]), replayed.(orders := replayed.orders[id := q.order]), known)
  {
    var a, b := live.orders[id], replayed.orders[id];
    var r, q := OSM.ApplyOrderUpdate(a, u), OSM.ApplyOrderUpdate(b, u);
    hide OSM.ApplyOrderUpdate, OSM.ValidTerms, Own, Similar, OrderIdOf;
    SimilarUnderUpdateOf(a, b, u, known);
    StepKeepsTerms(a, u);
    StepKeepsTerms(b, u);
    DeltaFits(b, u);
    ReplaceSimilar(live, replayed, known, known, id, r.order, q.order);
  }

  /** `next` has the positions of `books` moved by a fill of the order `id`. */
  ghost predicate PositionsMoved(books: Books, next: Books, id: string, instrument: string, delta: int) {
    && next.tokens == books.tokens
    && (forall key :: At(next.positions, key) == At(books.positions, key) + if key == instrument then delta else 0)
    && (forall key :: At(next.routePositions, key)
                      == At(books.routePositions, key) + if id in books.tokens && key == books.tokens[id] then delta else 0)
  }

  /** What replay books for an event from the broker. */
  lemma {:induction false} BookedMoves(replayed: Books, e: Event, id: string, q: OSM.Transition)
    requires FromBroker(e) && EvidenceOf(e).Some? && e.orderId == Some(id) && id in replayed.orders
    requires q == OSM.ApplyOrderUpdate(replayed.orders[id], EvidenceOf(e).value) && q.error.None?
    requires -INT64_MAX <= q.positionDelta <= INT64_MAX
    ensures Booked(replayed, e).Ok? <==> PositionsFit(replayed, id, q)
    ensures Booked(replayed, e).Ok? ==>
              && Booked(replayed, e).value.books.orders == replayed.orders[id := q.order]
              && PositionsMoved(replayed, Booked(replayed, e).value.books, id, q.order.instrument, q.positionDelta)
  {
    BrokerEventMoves(e, replayed.orders[id]);
    hide EvidenceOf, OSM.ApplyOrderUpdate, AddPosition, At;
    AddPositionIff(replayed.(orders := replayed.orders[id := q.order]), e, q.order.instrument, q.positionDelta);
  }

  lemma {:induction false} MovedAlike(live: Books, replayed: Books, l: Books, r: Books, id: string, instrument: string, delta: int)
    requires SameTokens(live, replayed) && SamePositions(live, replayed) && id in live.orders
    requires l.orders.Keys == live.orders.Keys
    requires PositionsMoved(live, l, id, instrument, delta) && PositionsMoved(replayed, r, id, instrument, delta)
    ensures SameTokens(l, r) && SamePositions(l, r)
  {
    hide At;
  }

  /** The books on both sides after an event from the broker. */
  lemma {:induction false} BookedAgrees(live: Books, replayed: Books, known: set<string>, e: Event, id: string)
    requires SameOrders(live, replayed, known) && SameTokens(live, replayed) && SamePositions(live, replayed)
    requires FromBroker(e) && EvidenceOf(e).Some? && !Own(EvidenceOf(e).value.updateId)
    requires e.orderId == Some(id) && id in live.orders
    requires OSM.ApplyOrderUpdate(live.orders[id], EvidenceOf(e).value).error.None?
    ensures var r := OSM.ApplyOrderUpdate(live.orders[id], EvidenceOf(e).value);
            var booked := Booked(replayed, e);
            && (booked.Ok? <==> PositionsFit(live, id, r))
            && (booked.Ok? ==>
                  && SameOrders(Advanced(live, id, r), booked.value.books, known)
                  && SameTokens(Advanced(live, id, r), booked.value.books)
                  && SamePositions(Advanced(live, id, r), booked.value.books))
  {
    hide EvidenceOf, OSM.ApplyOrderUpdate, At, FromBroker, Booked, Advanced, PositionsFit, PositionsMoved, Own;
    var u := EvidenceOf(e).value;
    var r, q := OSM.ApplyOrderUpdate(live.orders[id], u), OSM.ApplyOrderUpdate(replayed.orders[id], u);
    SameStep(live, replayed, known, u, id);
    BookedMoves(replayed, e, id, q);
    FitsAlike(live, replayed, id, r, q);
    if PositionsFit(live, id, r) {
      AdvancedAdds(live, id, r);
      var l, b := Advanced(live, id, r), Booked(replayed, e).value.books;
      hide SameOrders;
      MovedAlike(live, replayed, l, b, id, r.order.instrument, r.positionDelta);
      OrdersRead(live.(orders := live.orders[id := r.order]), replayed.(orders := replayed.orders[id := q.order]), l, b, known);
    }
  }

  lemma FitsAlike(live: Books, replayed: Books, id: string, r: OSM.Transition, q: OSM.Transition)
    requires SameTokens(live, replayed) && SamePositions(live, replayed) && id in live.orders
    requires r.positionDelta == q.positionDelta && r.order.instrument == q.order.instrument
    ensures PositionsFit(live, id, r) <==> PositionsFit(replayed, id, q)
  {
    hide At;
  }

  lemma SimilarUnderUpdateOf(a: OSM.Order, b: OSM.Order, u: OSM.Evidence, known: set<string>)
    requires OSM.ValidTerms(a) && OSM.ValidTerms(b) && Similar(a, b, known) && !Own(u.updateId)
    ensures var r, q := OSM.ApplyOrderUpdate(a, u), OSM.ApplyOrderUpdate(b, u);
            && r.error == q.error && r.positionDelta == q.positionDelta && r.order.instrument == q.order.instrument
            && Similar(r.order, q.order, known)
  {
    hide OSM.ApplyOrderUpdate, OSM.ValidTerms, Own, Similar;
    SimilarUnderUpdate(a, b, u, known);
  }

  /** An event from the broker that moves no position leaves its order's fill alone. */
  lemma BrokerEventMoves(e: Event, o: OSM.Order)
    requires FromBroker(e) && EvidenceOf(e).Some?
    ensures !MovesPosition(e) ==> OSM.ApplyOrderUpdate(o, EvidenceOf(e).value).positionDelta == 0
    ensures HoldsEvidence(e)
  {
    hide OSM.ApplyOrderUpdate;
    if !MovesPosition(e) {
      OtherEvidenceMovesNothing(o, EvidenceOf(e).value);
    }
  }

  lemma OrdersRead(live: Books, replayed: Books, l: Books, r: Books, known: set<string>)
    requires l.orders == live.orders && r.orders == replayed.orders
    ensures SameOrders(live, replayed, known) ==> SameOrders(l, r, known)
  {
    hide Similar, OSM.ValidTerms, OrderIdOf;
  }

  /** The source of an event is taken: it repeats no update with other content, and its number is new. */
  predicate SourceFits(replayed: State, source: Source) {
    && (source.updateId in replayed.fingerprints ==> replayed.fingerprints[source.updateId] == source.fingerprint)
    && (source.sequence == 0 || source.sequence > replayed.lastSequence)
  }

  /** The live state after an event from the broker. */
  function AfterBrokerEvent(live: State, id: string, r: OSM.Transition, sequence: uint64): (s: State)
    ensures s.intents == live.intents && s.attempts == live.attempts && (sequence != 0 ==> s.lastSequence == sequence)
  {
    live.(books := Advanced(live.books, id, r), lastSequence := if sequence == 0 then live.lastSequence else sequence)
  }

  lemma {:induction false} InformedKeepsIntents(live: Intents, replayed: Intents, e: Event, order: OSM.Order)
    requires SameIntents(live, replayed) && e.intentId.Some? && e.intentId.value in live && e.source.Some?
    ensures Informed(replayed, e, order).Ok? && SameIntents(live, Informed(replayed, e, order).value)
  {
    hide Told, DispositionOf, LeavesIntentAmbiguous, IsOutcome;
    ToldKeepsIntents(live, replayed, e, DispositionOf(e, order), LeavesIntentAmbiguous(e));
  }

  /** What replay makes of an event from the broker. */
  lemma {:induction false} BrokerEventReplays(replayed: State, sequence: nat, e: Event)
    requires FromBroker(e) && EvidenceOf(e).Some? && e.source.Some? && HoldsEvidence(e)
    requires Booked(replayed.books, e).Ok? ==> Informed(replayed.intents, e, Booked(replayed.books, e).value.order).Ok?
    ensures ReplayRecord(replayed, sequence, e).Ok? <==> SourceFits(replayed, e.source.value) && Booked(replayed.books, e).Ok?
    ensures ReplayRecord(replayed, sequence, e).Ok? ==>
              var next := ReplayRecord(replayed, sequence, e).value;
              && next.books == Booked(replayed.books, e).value.books
              && next.intents == Informed(replayed.intents, e, Booked(replayed.books, e).value.order).value
              && next.attempts == replayed.attempts
              && next.lastSequence == if e.source.value.sequence == 0 then replayed.lastSequence else e.source.value.sequence
  {
    hide Booked, Informed, EvidenceOf, HoldsEvidence;
  }

  /** Main step: replay takes an event from the broker exactly when its source fits and no position leaves
      the machine's range; and then both sides have taken the same step. */
  lemma {:induction false} BrokerEventAgrees(live: State, replayed: State, known: set<string>, sequence: nat, e: Event, id: string)
    requires AgreeOn(live, replayed, known) && FromBroker(e) && EvidenceOf(e).Some? && !Own(EvidenceOf(e).value.updateId)
    requires e.intentId.Some? && e.intentId.value in live.intents && e.source.Some?
    requires e.orderId == Some(id) && id in live.books.orders
    requires OSM.ApplyOrderUpdate(live.books.orders[id], EvidenceOf(e).value).error.None?
    ensures var r := OSM.ApplyOrderUpdate(live.books.orders[id], EvidenceOf(e).value);
            && (ReplayRecord(replayed, sequence, e).Ok? <==>
                SourceFits(replayed, e.source.value) && PositionsFit(live.books, id, r))
            && (ReplayRecord(replayed, sequence, e).Ok? ==>
                  AgreeOn(AfterBrokerEvent(live, id, r, e.source.value.sequence), ReplayRecord(replayed, sequence, e).value, known))
  {
    hide EvidenceOf, OSM.ApplyOrderUpdate, Own, Booked, Informed, ReplayRecord, SameIntents, SameOrders, SameTokens,
         SamePositions, Advanced, HoldsEvidence, PositionsFit, SourceFits;
    BookedAgrees(live.books, replayed.books, known, e, id);
    BrokerEventMoves(e, replayed.books.orders[id]) by { SameKeys(live.books, replayed.books, known); }
    if Booked(replayed.books, e).Ok? {
      InformedKeepsIntents(live.intents, replayed.intents, e, Booked(replayed.books, e).value.order);
    }
    BrokerEventReplays(replayed, sequence, e);
  }

  /** What the live order refuses, replay refuses: the outcome of a request is written even when its order does
      not take it, and the ledger that holds it no longer replays. */
  lemma {:induction false} RefusedOutcomeEndsReplay(live: State, replayed: State, known: set<string>, sequence: nat, e: Event, id: string)
    requires AgreeOn(live, replayed, known) && FromBroker(e) && EvidenceOf(e).Some? && !Own(EvidenceOf(e).value.updateId)
    requires e.orderId == Some(id) && id in live.books.orders
    requires OSM.ApplyOrderUpdate(live.books.orders[id], EvidenceOf(e).value).error.Some?
    ensures ReplayRecord(replayed, sequence, e).Err?
  {
    hide EvidenceOf, OSM.ApplyOrderUpdate, Own, Informed, SameIntents, SameTokens, SamePositions;
    var u := EvidenceOf(e).value;
    SameKeys(live.books, replayed.books, known);
    SimilarUnderUpdateOf(live.books.orders[id], replayed.books.orders[id], u, known);
    BrokerEventMoves(e, replayed.books.orders[id]);
    hide HoldsEvidence;
  }

  /** An order that fills while its modification is at the broker refuses the broker's acceptance; so the
      outcome of that modification is one that ends replay. */
  lemma FillOvertakesModification(o: OSM.Order, fill: OSM.Evidence, answer: OSM.Evidence)
    requires OSM.ValidTerms(o) && OSM.Working(o.state) && o.pending == OSM.ModifyPending
    requires fill.kind.FillUpdate? && fill.cumulativeFilled == Some(o.effectiveQuantity)
    requires o.effectiveQuantity - o.filled <= INT64_MAX && OSM.FindEvidence(o.evidence, fill.updateId).None?
    requires answer.kind.ModifyAccepted? && answer.updateId != fill.updateId
    requires OSM.FindEvidence(o.evidence, answer.updateId).None?
    ensures var filled := OSM.ApplyOrderUpdate(o, fill);
            && filled.error.None? && filled.order.state.Filled?
            && OSM.ApplyOrderUpdate(filled.order, answer).error == Some(OSM.InvalidModifyAck)
  {
    var filled := OSM.ApplyOrderUpdate(o, fill).order;
    NotFoundLater(o.evidence, fill, answer.updateId);
  }

  lemma {:induction false} NotFoundLater(evidence: seq<OSM.AppliedEvidence>, u: OSM.Evidence, updateId: string)
    requires OSM.FindEvidence(evidence, updateId).None? && updateId != u.updateId
    ensures OSM.FindEvidence(evidence + [OSM.AppliedEvidence(u.updateId, u.Fingerprint())], updateId).None?
  {
    var later := evidence + [OSM.AppliedEvidence(u.updateId, u.Fingerprint())];
    if evidence != [] {
      NotFoundLater(evidence[1..], u, updateId);
      assert later[1..] == evidence[1..] + [OSM.AppliedEvidence(u.updateId, u.Fingerprint())];
    } else {
      assert later[1..] == [];
    }
  }

  lemma SameKeys(live: Books, replayed: Books, known: set<string>)
    requires SameOrders(live, replayed, known)
    ensures live.orders.Keys == replayed.orders.Keys
  {
  }
}
