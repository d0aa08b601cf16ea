/**
 What the session's own fields, and the broker's reports, say of the intents that it prepares.
*/
module SessionSafety {
  import opened Base
  import OrderStateMachine
  import opened Risk
  import opened RiskRules
  import opened Session

  /** Main result: what a session must have been, and what the broker must have reported, when the rules approved an
      order or modification, whose approval a ticket needs. */
  lemma ApprovedBySession(session: ExecutionSession, intent: Intent, route: Option<Route>, view: Snapshot, now: instant)
    requires ValidConfig(session.config) && intent.action != Cancel
    requires session.Verdict(intent, route, Some(view), now).Some?
             && Approved(session.Verdict(intent, route, Some(view), now).value)
    ensures session.ready && !session.killSwitch && !session.stopping && !session.safetyStopped
            && !session.reconciliationRequired && !view.reconciliationRequired
    ensures intent.sessionId == session.sessionId
            && (session.strategy.Some? ==> session.strategy.value == (intent.strategyId, intent.strategyRunId))
    ensures intent.createdAt <= now + session.config.maximumClockSkew && now < intent.expiresAt
    ensures route.Some? && route.value.instrument == intent.instrument && view.mapping == Verified && view.routeForToday
    ensures view.health == Ready && view.observation.Some? && view.observation.value.instrument == intent.instrument
            && view.observation.value.fromDhan && !view.observation.value.stale && !view.observation.value.crossed
            && !view.observation.value.unusable
            && (session.config.maximumObservationAge < INT64_MAX ==>
                  0 <= view.observation.value.receiveTime <= now
                  <= view.observation.value.receiveTime + session.config.maximumObservationAge)
  {
    hide Evaluate, Approved;
    var s := Seen(view, session.Knowledge(intent), route, session.orderTimes, now);
    ApprovalIsAuthorized(session.config, intent, s);
    ApprovalIsInformed(session.config, intent, s);
  }

  /** And within which limits. */
  lemma ApprovedWithinLimits(session: ExecutionSession, intent: Intent, route: Option<Route>, view: Snapshot, now: instant)
    requires ValidConfig(session.config) && intent.action != Cancel
    requires session.Verdict(intent, route, Some(view), now).Some?
             && Approved(session.Verdict(intent, route, Some(view), now).value)
    ensures intent.side.Some? && intent.quantity.Some? && intent.limitPrice.Some? && (intent.action == Modify ==> view.target.Some?)
    ensures |set i | 0 <= i < |session.orderTimes| && now - session.config.window < session.orderTimes[i] <= now|
            < session.config.maximumOrdersPerWindow
    ensures |view.workingOrders| <= session.config.maximumOutstanding && view.positionsAuthoritative && view.marksAuthoritative
    ensures var growth := if intent.action == Modify then intent.quantity.value - view.target.value.filled else intent.quantity.value;
            var position := view.instrumentPosition + Moving(intent, view.workingOrders)
                            + if intent.side.value == OrderStateMachine.Buy then growth else -growth;
            var premium := view.currentGross + Premiums(intent, view.workingOrders) + growth * intent.limitPrice.value;
            && 0 < growth <= session.config.maximumQuantity
            && (session.config.maximumPosition < INT64_MAX ==>
                  -session.config.maximumPosition <= position <= session.config.maximumPosition)
            && (session.config.maximumGross < UINT64_MAX ==> premium <= session.config.maximumGross)
            && (intent.side.value == OrderStateMachine.Sell && view.tokenPosition < INT64_MAX ==>
                  view.tokenWorkingSell + growth
                  <= view.tokenPosition + if intent.action == Modify && view.target.value.side == OrderStateMachine.Sell
                                             && view.target.value.remaining <= view.tokenWorkingSell
                                          then view.target.value.remaining else 0)
    ensures view.pnl.Some? && view.pnl.value.dailyLoss <= session.config.maximumDailyLoss
            && view.pnl.value.drawdown <= session.config.maximumDrawdown
            && view.pnl.value.timestamp <= now <= view.pnl.value.timestamp + session.config.maximumObservationAge
  {
    hide Evaluate, Approved, Moving, Premiums;
    ApprovalIsSafe(session.config, intent, Seen(view, session.Knowledge(intent), route, session.orderTimes, now));
  }

  /** A submission whose authority was revoked stops the session without revoking the authority of the others: one
      prepared later is still submitted, by a session under a stop. */
  method RevocationLeavesOthers(session: ExecutionSession, first: nat, second: nat, now: int64)
    requires session.Valid() && session.world.Healthy() && first in session.tickets && first != second
    requires !session.Submits(first) && session.Submits(second)
    modifies session, session.world
    ensures session.Valid() && session.safetyStopped && session.reconciliationRequired
    ensures session.world.calls == old(session.world.calls) && session.Submits(second) && session.world.Healthy()
  {
    hide session.ValidOn, session.AnswerSuits, session.world.Healthy;
    var _ := session.SubmitPrepared(first, None, now);
  }
}
