/**
 When a new process starts to trade, from the events of the ledger that it finds.
*/
module SessionStart {
  import opened Base
  import opened Mirror
  import opened Replay
  import opened ReplayHistory
  import opened SessionWorld
  import opened Session
  import opened SessionRuns

  /** The ledger gives a reason not to trade: a stop, or a need to reconcile. */
  ghost predicate Forbids(log: seq<Event>) {
    StopWritten(log) || Required(log) || Outstanding(log)
  }

  /** Main result: a process that finds a ledger starts to trade exactly when the events of the ledger, the broker and the
      routes give no reason against it. */
  method StartsIff(world: World, setting: Setting, mirror: Mirrored, routesUsable: bool, exact: bool, healthy: bool, now: int64)
    returns (session: ExecutionSession, ok: bool)
    requires world.Healthy() && Orderly(world.log, world.calls) && ReplayLedger(world.log).Ok?
    modifies world
    ensures fresh(session) && session.Valid() && session.world == world && world.calls == old(world.calls)
    ensures ok <==> routesUsable && exact && healthy && !session.correlationConflict && !Forbids(old(world.log))
    ensures !ok ==> session.safetyStopped && session.killSwitch && !session.ready
  {
    hide ReplayLedger, session.ValidOn, Required, Outstanding;
    LedgerIsRemembered(world.log);
    session := new ExecutionSession(world, setting.sessionId, setting.config, setting.texts, setting.maximumQueue, mirror, now);
    ok := session.Preflight(routesUsable, exact, healthy, now);
  }

  /** A ledger that leaves an intent in doubt forbids to start. */
  lemma DoubtForbids(log: seq<Event>, id: string)
    requires Doubtful(log, id)
    ensures Forbids(log)
  {
    DoubtIsRequired(log, id);
  }
}
