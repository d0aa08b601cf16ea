/**
 Shutdown over the paper broker: every order seen working is cancelled through its own durable chain of
 events, or accounted for as refused. What the environment decides for an order is a parameter: whether the
 deadline has passed, the route, the snapshot, and whether the ledger boundary was acknowledged.
*/
module Shutdown {
  import opened Base
  import Risk
  import opened PaperBroker
  import PaperAccounting
  import PaperProgram
  import opened Capture
  import opened Replay
  import opened SessionWorld

  datatype Circumstance = Circumstance(
    late: bool, now: Risk.instant, route: Option<Risk.Route>, snapshot: Option<Risk.Snapshot>, boundaryAcknowledged: bool,
    outcomeAcknowledged: bool)

  datatype StopResult = StopResult(seen: nat, attempts: nat, refusals: nat, accounted: nat, confirmed: bool, complete: bool)

  /** The intent of a shutdown cancellation: a digest that contains the session and the order. */
  function ShutdownId(sessionId: string, orderId: string): string {
    sessionId + ":shutdown:" + orderId
  }

  function ShutdownIntent(sessionId: string, strategy: (string, string), order: OrderSnapshot, now: int64): Risk.Intent {
    Risk.Intent(ShutdownId(sessionId, order.orderId), strategy.0, strategy.1, sessionId, now, if now == INT64_MAX then now else now + 1,
                order.instrument, Risk.Cancel, Some(order.orderId), None, None, None, false)
  }

  lemma ShutdownIdIsInjective(sessionId: string, a: string, b: string)
    requires ShutdownId(sessionId, a) == ShutdownId(sessionId, b)
    ensures a == b
  {
    PrefixCancels(sessionId + ":shutdown:", a, b);
  }

  function StatusAt(orders: seq<PaperOrder>, id: string): Option<Status> {
    match FindOrder(orders, id)
    case Some(i) => if i < |orders| then Some(orders[i].snapshot.status) else None
    case None => None
  }

  /** A confirmed cancellation has cancelled its order, and no cancellation revives another. */
  lemma {:induction false} CancelCancels(p: Paper, id: string, other: string)
    requires Sound(p)
    ensures var (q, m) := CancelOrder(p, id);
            && (m.verdict.Acknowledged? ==> m.terminal && StatusAt(q.orders, id) == Some(Status.Cancelled))
            && (StatusAt(p.orders, other) == Some(Status.Cancelled) ==> StatusAt(q.orders, other) == Some(Status.Cancelled))
  {
    var (q, m) := CancelOrder(p, id);
    FindOrderFinds(p.orders, id);
    FindOrderFinds(p.orders, other);
    CancelIsSound(p, id);
    hide FindOrder, PaperId;
    if q.orders != p.orders {
      hide Sound;
      CancelledIsFound(p, q, FindOrder(p.orders, id).value);
      if FindOrder(p.orders, other).Some? {
        CancelledIsFound(p, q, FindOrder(p.orders, other).value);
      }
    }
  }

  /** Orders with the same ids are found at the same places. */
  lemma {:induction false} CancelledIsFound(p: Paper, q: Paper, i: nat)
    requires Sound(q) && i < |p.orders| == |q.orders| && q.orders[i].snapshot.orderId == p.orders[i].snapshot.orderId
    ensures FindOrder(q.orders, p.orders[i].snapshot.orderId) == Some(i)
  {
    FindOrderIs(q.orders, i);
  }

  /** No call was made for a shutdown cancellation of these orders. */
  ghost predicate Uncalled(calls: seq<Call>, sessionId: string, orders: seq<OrderSnapshot>, from_: nat) {
    forall i, k :: 0 <= i < |calls| && from_ <= k < |orders| ==> calls[i].intent.intentId != ShutdownId(sessionId, orders[k].orderId)
  }

  class Stopping {
    const world: World
    const broker: PaperProgram.Broker
    const sessionId: string
    const strategy: (string, string)
    const config: Risk.Config
    var calls: nat
    var refusals: nat
    var accounted: nat
    var attempts: nat
    var allConfirmed: bool

    ghost predicate Valid()
      reads this, world, broker
    {
      && broker.Valid() && Orderly(world.log, world.calls)
      && calls == attempts <= config.maximumOrdersPerWindow
    }

    constructor (world: World, broker: PaperProgram.Broker, sessionId: string, strategy: (string, string), config: Risk.Config)
      requires broker.Valid() && Orderly(world.log, world.calls)
      ensures Valid() && this.world == world && this.broker == broker && this.sessionId == sessionId && this.config == config
      ensures calls == 0 && refusals == 0 && accounted == 0 && attempts == 0 && allConfirmed
    {
      this.world, this.broker, this.sessionId, this.strategy, this.config := world, broker, sessionId, strategy, config;
      calls, refusals, accounted, attempts, allConfirmed := 0, 0, 0, 0, true;
    }

    method Write(e: Event) returns (durable: bool)
      requires Valid()
      modifies world`effects, world`log, world`alive, world`open
      ensures Valid() && (world.log == old(world.log) || world.log == old(world.log) + [e])
      ensures durable ==> world.log == old(world.log) + [e]
    {
      hide WriteAhead, Orderly, PaperAccounting.Books;
      ghost var before := world.log;
      var b := world.Append(e);
      OrderlyGrows(before, e, world.calls);
      durable := b.Durable?;
    }

    /** The order is accounted for as not attempted, when that can be recorded. */
    method Refuse(intent: Risk.Intent, orderId: string, now: int64)
      requires Valid()
      modifies this`refusals, this`accounted, world`effects, world`log, world`alive, world`open
      ensures Valid()
      ensures (refusals == old(refusals) + 1 && accounted == old(accounted) + 1)
              || (refusals == old(refusals) && accounted == old(accounted))
    {
      hide Orderly, PaperAccounting.Books;
      var durable := Write(Event("", now, Some(intent.intentId), Some(orderId), None, ReconciliationRequired));
      if durable {
        refusals := refusals + 1;
        accounted := accounted + 1;
      }
    }

    /** Writes the four events of a cancellation; `chain` is where they start. */
    method WriteChain(intent: Risk.Intent, orderId: string, c: Circumstance) returns (ok: bool, ghost chain: nat)
      requires Valid() && intent.action.Cancel?
      modifies world`effects, world`log, world`alive, world`open
      ensures Valid()
      ensures ok ==> ChainAt(world.log, chain, intent, orderId) && chain + 4 == |world.log|
    {
      hide Orderly, PaperAccounting.Books, Risk.Evaluate, Risk.Approved;
      chain := |world.log|;
      var id := Some(intent.intentId);
      ok := Write(Event("", c.now, id, None, None, IntentReceived("", intent.strategyId, intent.strategyRunId)));
      if !ok || c.route.None? {
        return false, chain;
      }
      ok := Write(Event("", c.now, id, Some(orderId), None, MappingValidated(c.route.value.token)));
      if !ok || c.snapshot.None? {
        return false, chain;
      }
      var audit := Risk.Evaluate(config, intent, c.snapshot.value);
      if !Risk.Approved(audit) {
        return false, chain;
      }
      ok := Write(Event("", c.now, id, Some(orderId), None, RiskApproved("")));
      if !ok {
        return;
      }
      ok := Write(Event("", c.now, id, Some(orderId), None, CancelRequested(intent.intentId + ":cancel-request")));
    }

    /** One order seen working. */
    method CancelOne(order: OrderSnapshot, c: Circumstance)
      requires Valid()
      requires forall i :: 0 <= i < |world.calls| ==> world.calls[i].intent.intentId != ShutdownId(sessionId, order.orderId)
      modifies this`calls, this`refusals, this`accounted, this`attempts, this`allConfirmed, world, broker
      ensures Valid()
      ensures attempts == old(attempts) + 1 || attempts == old(attempts)
      ensures attempts == old(attempts) ==> broker.State() == old(broker.State()) && world.calls == old(world.calls)
      ensures attempts > old(attempts) ==>
                && Sound(old(broker.State())) && broker.State() == CancelOrder(old(broker.State()), order.orderId).0
                && (allConfirmed <==> old(allConfirmed) && CancelOrder(old(broker.State()), order.orderId).1.verdict.Acknowledged?)
      ensures attempts == old(attempts) ==> allConfirmed == old(allConfirmed)
      ensures world.calls == old(world.calls)
              || (|world.calls| == |old(world.calls)| + 1 && world.calls[..|old(world.calls)|] == old(world.calls)
                  && world.calls[|old(world.calls)|].intent.intentId == ShutdownId(sessionId, order.orderId))
    {
      hide Orderly, PaperAccounting.Books, CancelOrder, ChainAt, WriteAhead;
      var intent := ShutdownIntent(sessionId, strategy, order, c.now);
      if c.now == INT64_MAX || c.late || calls >= config.maximumOrdersPerWindow {
        Refuse(intent, order.orderId, c.now);
        return;
      }
      var ok, chain := WriteChain(intent, order.orderId, c);
      if !ok || !c.boundaryAcknowledged {
        Refuse(intent, order.orderId, c.now);
        return;
      }
      calls, attempts := calls + 1, attempts + 1;
      ghost var powers := Powers(sessionId, Some(strategy), false, true, true, false, false);
      ghost var call := Call(intent, order.orderId, chain, |world.log|, 0, 0, powers, false);
      CallIsWritten(call);
      world.CallBroker(call);
      BrokerIsSound();
      CancelCancels(broker.State(), order.orderId, order.orderId);
      var answer := broker.Cancel(order.orderId);
      var confirmed := answer.verdict.Acknowledged? && answer.terminal;
      allConfirmed := allConfirmed && confirmed;
      RecordOutcome(intent, order.orderId, c, answer, confirmed);
    }

    lemma BrokerIsSound()
      requires broker.Valid()
      ensures Sound(broker.State())
    {
    }

    lemma CallIsWritten(c: Call)
      requires ChainAt(world.log, c.chain, c.intent, c.orderId) && c.chain + 4 == c.at == |world.log| && c.prepared == c.called
      requires Permits(c.powers, c.intent) && c.intent.action.Cancel?
      ensures WriteAhead(world.log, c)
    {
      hide ChainAt;
    }

    /** Writes the outcome of a cancellation; what cannot be recorded is refused. */
    method RecordOutcome(intent: Risk.Intent, orderId: string, c: Circumstance, answer: Mutation, confirmed: bool)
      requires Valid()
      modifies this`refusals, this`accounted, world`effects, world`log, world`alive, world`open
      ensures Valid()
    {
      hide Orderly, PaperAccounting.Books;
      var id := answer.correlation.GetOr(intent.intentId + ":outcome");
      var body := if confirmed then Replay.Cancelled(id)
                  else if answer.verdict.Refused? then CancelRejected(id)
                  else AmbiguousSubmission(id);
      var durable := Write(Event("", c.now, Some(intent.intentId), Some(orderId), Some(Source(0, "", id)), body));
      if durable {
        accounted := accounted + 1;
      } else {
        Refuse(intent, orderId, c.now);
      }
    }

    /** Every order processed so far that was seen working is cancelled. */
    ghost predicate CancelledSoFar(orders: seq<OrderSnapshot>, n: nat)
      reads broker
    {
      forall k :: 0 <= k < n && k < |orders| && Live(orders[k].status) ==>
        StatusAt(broker.State().orders, orders[k].orderId) == Some(Status.Cancelled)
    }

    /** Main result: shutdown makes no more broker calls than the rate limit allows, each of them written ahead and
        the first of its intent; and it reports completion only when every order it saw working is cancelled at
        the broker. */
    method CancelWorking(orders: seq<OrderSnapshot>, circumstances: seq<Circumstance>) returns (result: StopResult)
      requires Valid() && attempts == 0 && refusals == 0 && accounted == 0 && allConfirmed
      requires orders == QueryOrders(broker.State()) && |circumstances| == |orders|
      requires Uncalled(world.calls, sessionId, orders, 0)
      modifies this`calls, this`refusals, this`accounted, this`attempts, this`allConfirmed, world, broker
      ensures Valid() && Orderly(world.log, world.calls)
      ensures result.attempts <= config.maximumOrdersPerWindow
      ensures result.complete ==>
                forall i :: 0 <= i < |orders| && Live(orders[i].status) ==>
                  StatusAt(broker.State().orders, orders[i].orderId) == Some(Status.Cancelled)
      ensures result.complete ==> result.attempts == result.seen == result.accounted && result.refusals == 0 && result.confirmed
    {
      hide Orderly, PaperAccounting.Books, CancelOrder, WriteAhead, StatusAt;
      var seen := 0;
      IdsDiffer(orders);
      for i := 0 to |orders|
        invariant Valid() && attempts <= seen && Uncalled(world.calls, sessionId, orders, i)
        invariant attempts == seen && allConfirmed ==> CancelledSoFar(orders, i)
      {
        if Live(orders[i].status) {
          seen := seen + 1;
          ghost var before, made := broker.State(), world.calls;
          CancelOne(orders[i], circumstances[i]);
          StillUncalled(made, orders, i);
          if attempts == seen && allConfirmed {
            StillCancelled(before, orders, i);
          }
        }
      }
      var complete := accounted == seen && refusals == 0 && attempts == seen && allConfirmed;
      result := StopResult(seen, attempts, refusals, accounted, allConfirmed, complete);
    }

    lemma IdsDiffer(orders: seq<OrderSnapshot>)
      requires broker.Valid() && orders == QueryOrders(broker.State())
      ensures forall i, j :: 0 <= i < j < |orders| ==> orders[i].orderId != orders[j].orderId
    {
      BrokerIsSound();
      hide PaperAccounting.Books;
    }

    lemma StillUncalled(made: seq<Call>, orders: seq<OrderSnapshot>, i: nat)
      requires Uncalled(made, sessionId, orders, i) && i < |orders|
      requires forall k, l :: 0 <= k < l < |orders| ==> orders[k].orderId != orders[l].orderId
      requires world.calls == made
               || (|world.calls| == |made| + 1 && world.calls[..|made|] == made
                   && world.calls[|made|].intent.intentId == ShutdownId(sessionId, orders[i].orderId))
      ensures Uncalled(world.calls, sessionId, orders, i + 1)
    {
      hide ShutdownId;
      forall c, k | 0 <= c < |world.calls| && i + 1 <= k < |orders|
        ensures world.calls[c].intent.intentId != ShutdownId(sessionId, orders[k].orderId)
      {
        if c < |made| {
          assert world.calls[c] == made[c];
        } else if ShutdownId(sessionId, orders[i].orderId) == ShutdownId(sessionId, orders[k].orderId) {
          ShutdownIdIsInjective(sessionId, orders[i].orderId, orders[k].orderId);
          assert false;
        }
      }
    }

    lemma StillCancelled(before: Paper, orders: seq<OrderSnapshot>, i: nat)
      requires Sound(before) && i < |orders|
      requires broker.State() == CancelOrder(before, orders[i].orderId).0
      requires CancelOrder(before, orders[i].orderId).1.verdict.Acknowledged?
      requires forall k :: 0 <= k < i && Live(orders[k].status) ==>
                 StatusAt(before.orders, orders[k].orderId) == Some(Status.Cancelled)
      ensures CancelledSoFar(orders, i + 1)
    {
      hide CancelOrder, StatusAt, Sound;
      forall k | 0 <= k < i + 1 && Live(orders[k].status)
        ensures StatusAt(broker.State().orders, orders[k].orderId) == Some(Status.Cancelled)
      {
        CancelCancels(before, orders[i].orderId, orders[k].orderId);
      }
    }
  }
}
