/**
 What the session makes of the broker's words: which event an answer or an update becomes, and what that event does to the
 order and to the mirror, in terms of the fields of intent, answer and update.
*/
module SessionRecords {
  import opened Base
  import OSM = OrderStateMachine
  import OrderTransitions
  import Risk
  import PaperBroker
  import opened Mirror
  import opened Replay
  import ReplayOrders
  import opened Session

  /** Main result: an answer is an acknowledgement, a modification, a cancellation or a refusal of the request exactly when
      it says so in full: an acknowledged placement has an id, an acknowledged modification the terms that were asked for,
      an acknowledged cancellation is final. Everything else is ambiguous. */
  lemma AnswerIsRecorded(intent: Risk.Intent, m: Mutation)
    ensures var id := if m.correlation.Some? then m.correlation.value else "#o" + intent.intentId;
            var body := OutcomeBody(intent, m);
            && (body.BrokerAcknowledged? <==>
                m.verdict == PaperBroker.Acknowledged && intent.action == Risk.Place && m.correlation.Some?)
            && (body.BrokerAcknowledged? ==> body == BrokerAcknowledged(m.correlation.value, m.correlation.value))
            && (body.Modified? <==>
                && m.verdict == PaperBroker.Acknowledged && intent.action == Risk.Modify
                && intent.quantity.Some? && intent.limitPrice.Some?
                && m.acceptedQuantity == intent.quantity && m.acceptedPrice == intent.limitPrice)
            && (body.Modified? ==> body == Modified(id, intent.quantity.value, intent.limitPrice.value))
            && (body == Cancelled(id) <==> m.verdict == PaperBroker.Acknowledged && intent.action == Risk.Cancel && m.terminal)
            && (body == BrokerRejected(id) <==> m.verdict == PaperBroker.Refused && intent.action == Risk.Place)
            && (body == ModifyRejected(id) <==> m.verdict == PaperBroker.Refused && intent.action == Risk.Modify)
            && (body == CancelRejected(id) <==> m.verdict == PaperBroker.Refused && intent.action == Risk.Cancel)
            && (body.BrokerAcknowledged? || body.Modified? || body == Cancelled(id) || body == BrokerRejected(id)
                || body == ModifyRejected(id) || body == CancelRejected(id) || body == AmbiguousSubmission(id))
  {
  }

  /** What a recorded answer does to its order, when the order takes it. */
  lemma AnswerMovesOrder(orders: map<string, OSM.Order>, orderId: string, intent: Risk.Intent, m: Mutation, fingerprint: string, now: int64)
    requires Takes(orders, orderId, OutcomeEvent(intent, orderId, m, fingerprint, now))
    requires ReplayOrders.Unheard(orders[orderId], OutcomeBody(intent, m))
    ensures var e := OutcomeEvent(intent, orderId, m, fingerprint, now);
            EvidenceOf(e).Some?
            && ReplayOrders.Moved(orders[orderId], OSM.ApplyOrderUpdate(orders[orderId], EvidenceOf(e).value).order, OutcomeBody(intent, m))
  {
    var e := OutcomeEvent(intent, orderId, m, fingerprint, now);
    hide OutcomeBody, ReplayOrders.Moved, ReplayOrders.Unheard, OSM.ApplyOrderUpdate;
    ReplayOrders.EvidenceMoves(orders[orderId], e);
  }

  /** Main result: an update that an order takes moves it as its kind says, to what its own fields say. */
  lemma UpdateMovesOrder(o: OSM.Order, u: Update)
    requires 0 < o.originalQuantity && 0 < o.effectiveQuantity && o.filled <= o.effectiveQuantity
    requires u.updateId == "" || forall i :: 0 <= i < |o.evidence| ==> o.evidence[i].updateId != u.updateId
    requires OSM.ApplyOrderUpdate(o, UpdateEvidence(u)).error.None?
    ensures var n := OSM.ApplyOrderUpdate(o, UpdateEvidence(u)).order;
            match u.kind
            case BrokerAcknowledged => n.brokerOrderId == u.brokerOrderId && n.filled == o.filled
            case FillUpdate =>
              && u.cumulative == Some(n.filled) && o.filled <= n.filled <= o.effectiveQuantity
              && OSM.ApplyOrderUpdate(o, UpdateEvidence(u)).positionDelta == (n.filled - o.filled) * (if o.side == OSM.Buy then 1 else -1)
            case ModifyAccepted =>
              && u.acceptedQuantity == Some(n.effectiveQuantity) && u.acceptedLimitPrice == Some(n.limitPrice)
              && n.filled == o.filled && n.pending == OSM.NoMutation
            case ModifyRejected => n.effectiveQuantity == o.effectiveQuantity && n.limitPrice == o.limitPrice && n.pending == OSM.NoMutation
            case CancelAccepted => n.state == (if o.state == OSM.Filled then OSM.Filled else OSM.Cancelled)
            case CancelRejected => n.state == OSM.ReconciliationRequired
            case BrokerRejected => n.state == OSM.Rejected
            case SubmissionAmbiguous => n.state == OSM.AmbiguousSubmission || n.state == OSM.ReconciliationRequired
            case _ => true
  {
    OrderTransitions.MachineIsTheTable(o, UpdateEvidence(u));
    hide OSM.ApplyOrderUpdate;
  }

  /** Main result: an update is recorded exactly when it holds what its kind needs, and as the event of its kind; a fill is
      complete when it leaves nothing. */
  lemma UpdateIsRecorded(u: Update, state: OSM.OrderState)
    ensures var body := UpdateBody(u, state);
            match u.kind
            case BrokerAcknowledged =>
              (body.Some? <==> u.brokerOrderId.Some?)
              && (body.Some? ==> body.value == BrokerAcknowledged(u.updateId, u.brokerOrderId.value))
            case FillUpdate =>
              && (body.Some? <==>
                  && u.cumulative.Some? && u.fillPrice.Some? && u.provenance == Some(true) && u.evidenceTime.Some?
                  && 0 <= u.evidenceTime.value)
              && (body.Some? ==> body.value == Filled(state == OSM.Filled, u.updateId, u.cumulative.value))
            case ModifyAccepted =>
              && (body.Some? <==> u.acceptedQuantity.Some? && u.acceptedLimitPrice.Some?)
              && (body.Some? ==> body.value == Modified(u.updateId, u.acceptedQuantity.value, u.acceptedLimitPrice.value))
            case ModifyRejected => body == Some(ModifyRejected(u.updateId))
            case CancelAccepted => body == Some(Cancelled(u.updateId))
            case CancelRejected => body == Some(CancelRejected(u.updateId))
            case SubmissionAmbiguous => body == Some(AmbiguousSubmission(u.updateId))
            case BrokerRejected => body == Some(BrokerRejected(u.updateId))
            case _ => body == None
  {
  }

  /** The mirrored order at `i` is the first of its id. */
  ghost predicate FirstOf(orders: seq<PaperBroker.OrderSnapshot>, id: string, i: nat) {
    i < |orders| && orders[i].orderId == id && forall j :: 0 <= j < i ==> orders[j].orderId != id
  }

  lemma {:induction false} FindIsFirst(orders: seq<PaperBroker.OrderSnapshot>, id: string, i: nat)
    requires FirstOf(orders, id, i)
    ensures Find(orders, id) == Some(i)
  {
    if i > 0 {
      assert forall j :: 0 < j < |orders| ==> orders[1..][j - 1] == orders[j];
      FindIsFirst(orders[1..], id, i - 1);
    }
  }

  /** What a recorded answer does to the mirror: a new order at work, new terms, or an order cancelled; a refusal does
      nothing. */
  lemma AnswerIsMirrored(session: ExecutionSession, p: Prepared, m: Mutation, i: nat)
    requires WellFormedIntent(p.intent)
    ensures var body, now, was := OutcomeBody(p.intent, m), session.Reflected(p, OutcomeBody(p.intent, m)), session.mirror;
            && now.fills == was.fills && now.positions == was.positions
            && (body.BrokerAcknowledged? && p.route.Some? ==>
                  now.orders == was.orders + [PaperBroker.OrderSnapshot(p.orderId, p.route.value.instrument, p.route.value.token,
                                                                        p.intent.side.value, p.intent.quantity.value,
                                                                        p.intent.limitPrice.value, 0, PaperBroker.Working)])
            && (body.Modified? && FirstOf(was.orders, p.orderId, i) ==>
                  now.orders == was.orders[i := was.orders[i].(quantity := p.intent.quantity.value,
                                                               limitPrice := p.intent.limitPrice.value)])
            && (body.Cancelled? && FirstOf(was.orders, p.orderId, i) ==>
                  now.orders == was.orders[i := was.orders[i].(status := PaperBroker.Cancelled)])
            && (!body.BrokerAcknowledged? && !body.Modified? && !body.Cancelled? ==> now == was)
  {
    AnswerIsRecorded(p.intent, m);
    if FirstOf(session.mirror.orders, p.orderId, i) {
      FindIsFirst(session.mirror.orders, p.orderId, i);
    }
    hide OutcomeBody, Find;
  }
}
