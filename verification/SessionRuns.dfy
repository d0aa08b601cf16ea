/**
 Whole runs: any sequence of things a session is asked to do, over any number of processes that end at any
 effect and start again from the durable ledger.
*/
module SessionRuns {
  import opened Base
  import OSM = OrderStateMachine
  import Risk
  import opened Mirror
  import opened Replay
  import opened SessionAgreement
  import opened SessionWorld
  import opened Session
  import opened OrderSimilarity
  import opened RateLimit

  datatype Command =
    | Prepare(intent: Risk.Intent, route: Option<Risk.Route>, view: Option<Risk.Snapshot>, time: int64)
    | Submit(ticket: nat, answer: Option<Mutation>)
    | Accept(accepted: Risk.Intent, acceptedRoute: Option<Risk.Route>, acceptedView: Option<Risk.Snapshot>, acceptedTime: int64,
             acceptedAnswer: Option<Mutation>)
    | Receive(update: Update)
    | Drain
    | Kill
    | Start(routesUsable: bool, exact: bool, healthy: bool)
    | Ready
    | Reconnect(agreed: bool, usable: bool)
    | Stop
    | NewProcess(mirror: Mirrored)

  /** What a session is made of, besides its world. */
  datatype Setting = Setting(sessionId: string, config: Risk.Config, texts: Texts, maximumQueue: nat)

  /** What a command needs, of the state that it finds, to be performed without a fault: the route and the owner
      are the ones recorded for the order, the broker answers clearly, under ids of its own and what the order
      takes, and the updates are recorded in full and leave the positions in range. */
  ghost predicate Fits(session: ExecutionSession, command: Command, now: Risk.instant)
    reads session
  {
    match command
    case Prepare(intent, route, _, _) => session.PreparationFits(intent, route, now)
    case Submit(ticket, answer) => session.Submits(ticket) ==> session.AnswerSuits(ticket, answer, now)
    case Accept(intent, route, _, time, answer) =>
      session.PreparationFits(intent, route, now) && session.AcceptanceSuits(intent, time, answer, now)
    case Drain => session.QueueSuits()
    case _ => true
  }

  /** A command that fits every state. */
  predicate AlwaysFits(command: Command) {
    !command.Prepare? && !command.Submit? && !command.Accept? && !command.Drain?
  }

  /** When a command attempts, if it does. */
  function TimeOf(command: Command, now: int64): int64 {
    match command
    case Prepare(_, _, _, time) => time
    case Accept(_, _, _, time, _) => time
    case _ => now
  }

  /** The clock does not run backwards. */
  ghost predicate Steady(commands: seq<Command>, clock: nat -> Risk.instant) {
    forall k: nat :: k < |commands| ==> clock(k) <= TimeOf(commands[k], clock(k)) <= clock(k + 1)
  }

  ghost predicate AtMostOneCall(before: seq<Call>, calls: seq<Call>, intent: Risk.Intent) {
    calls == before || (|calls| == |before| + 1 && calls[..|before|] == before && calls[|before|].intent == intent)
  }

  /** Prepares an intent and submits it at once. */
  method AcceptIntent(session: ExecutionSession, intent: Risk.Intent, route: Option<Risk.Route>, view: Option<Risk.Snapshot>,
                      answer: Option<Mutation>, now: Risk.instant, time: int64) returns (result: Option<IntentResult>)
    requires session.Valid()
    modifies session, session.world
    ensures session.Valid() && session.Onward() && session.queue == old(session.queue)
    ensures old(session.Calm()) && old(session.PreparationFits(intent, route, now))
            && old(session.AcceptanceSuits(intent, time, answer, now)) ==>
              session.Calm()
    ensures Moves(session.config, old(session.PaceNow()), session.PaceNow(), now, time)
    ensures AtMostOneCall(old(session.world.calls), session.world.calls, intent)
    ensures intent.intentId in old(session.store) ==> session.world.calls == old(session.world.calls)
  {
    hide session.Valid, session.Refuses, Risk.Evaluate, Risk.Approved, Moves, OrderFor, WellFormedIntent, AnswerFits,
         Attempting, World.Healthy, AttemptTimes;
    ghost var start := session.PaceNow();
    var p := session.PrepareIntent(intent, route, view, now, time);
    match p
    case Malformed => result := None;
    case Answered(r) => result := Some(r);
    case ToSubmit(ticket) =>
      ghost var prepared := session.PaceNow();
      result := session.SubmitPrepared(ticket, answer, now);
      MovesThenStands(session.config, start, prepared, session.PaceNow(), now, time);
  }

  /** Performs one command. A faultless session with a command that fits is faultless afterwards: its ledger
      replays, to its own state. */
  method Perform(session: ExecutionSession, command: Command, now: Risk.instant)
    requires session.Valid() && !command.NewProcess?
    modifies session, session.world
    ensures session.Valid() && (old(session.faulted) ==> session.faulted)
    ensures old(session.Calm()) && old(Fits(session, command, now)) ==>
              session.Calm() && ReplayLedger(session.world.log).Ok? && Agree(session.live, ReplayLedger(session.world.log).value)
    ensures Moves(session.config, old(session.PaceNow()), session.PaceNow(), now, TimeOf(command, now))
  {
    hide ReplayLedger, Agree, AgreeOn, session.PreparationFits, session.AcceptanceSuits, session.Submits, session.AnswerSuits,
         session.QueueSuits, Moves, session.PaceNow, session.ValidOn;
    if command.Prepare? || command.Submit? || command.Accept? {
      Trade(session, command, now);
    } else {
      Control(session, command, now);
    }
    if session.Calm() {
      SameKnown(session);
    }
  }

  /** What a strategy asks for. */
  method Trade(session: ExecutionSession, command: Command, now: Risk.instant)
    requires session.Valid() && (command.Prepare? || command.Submit? || command.Accept?)
    modifies session, session.world
    ensures session.Valid() && (old(session.faulted) ==> session.faulted)
    ensures old(session.Calm()) && old(Fits(session, command, now)) ==> session.Calm()
    ensures Moves(session.config, old(session.PaceNow()), session.PaceNow(), now, TimeOf(command, now))
  {
    hide session.Valid, session.PreparationFits, session.AcceptanceSuits, session.Submits, session.AnswerSuits, session.Calm,
         Moves, AttemptTimes;
    ghost var start := session.PaceNow();
    match command
    case Prepare(intent, route, view, time) => var _ := session.PrepareIntent(intent, route, view, now, time);
    case Accept(intent, route, view, time, answer) => var _ := AcceptIntent(session, intent, route, view, answer, now, time);
    case Submit(ticket, answer) =>
      var _ := session.SubmitPrepared(ticket, answer, now);
      StandingMoves(session.config, start, session.PaceNow(), now, now);
  }

  /** Updates, and the session's own life. */
  method Control(session: ExecutionSession, command: Command, now: Risk.instant)
    requires session.Valid() && !command.NewProcess? && !command.Prepare? && !command.Submit? && !command.Accept?
    modifies session, session.world
    ensures session.Valid() && (old(session.faulted) ==> session.faulted)
    ensures old(session.Calm()) && old(Fits(session, command, now)) ==> session.Calm()
    ensures Moves(session.config, old(session.PaceNow()), session.PaceNow(), now, TimeOf(command, now))
  {
    hide session.ValidOn, session.Calm, session.QueueSuits, Moves, AttemptTimes;
    ghost var start := session.PaceNow();
    match command {
      case Receive(update) => var _ := session.EnqueueUpdate(update, now);
      case Drain => var _ := session.DrainUpdates(now);
      case Kill => session.ForceSafetyStop(now, None, None, session.store.Keys);
      case Start(routesUsable, exact, healthy) => var _ := session.Preflight(routesUsable, exact, healthy, now);
      case Ready => var _ := session.Activate(true, now);
      case Reconnect(agreed, usable) => var _ := session.Reconnect(agreed, usable, true, now);
      case Stop => var _ := session.BeginStop(now);
    }
    StandingMoves(session.config, start, session.PaceNow(), now, now);
  }

  /** Main result. From an empty ledger, whatever is asked, wherever writes fail and processes end, and whatever
      the broker answers: every call to the broker was written ahead by the authority that prepared it, no
      intent was ever called for twice, and while the clock does not run backwards the attempts in the ledger
      keep the rate limit, even those at which a process ended. And as long as nothing fails and every command
      fits the state that it finds (`fit`), the ledger replays, at every restart and at the end, and the state of
      the session is what it reconstructs. */
  method Life(world: World, setting: Setting, mirror: Mirrored, commands: seq<Command>, clock: nat -> Risk.instant)
    returns (session: ExecutionSession, ended: bool, ghost fit: bool)
    requires world.log == [] && world.calls == [] && world.alive && world.open
    modifies world
    ensures Orderly(world.log, world.calls)
    ensures Risk.ValidConfig(setting.config) && Steady(commands, clock) ==> Limited(setting.config, AttemptTimes(world.log))
    ensures fresh(session) && session.world == world
    ensures old(world.Healthy()) && (forall command <- commands :: AlwaysFits(command)) ==> fit
    ensures fit ==> !ended && session.Valid() && !session.faulted
    ensures fit ==> ReplayLedger(world.log).Ok? && Agree(session.live, ReplayLedger(world.log).value)
  {
    hide ReplayLedger, Agree, Fits, Good, AttemptTimes, Limited;
    NewLedgerIsClean();
    session := new ExecutionSession(world, setting.sessionId, setting.config, setting.texts, setting.maximumQueue, mirror, clock(0));
    ended, fit := false, world.Healthy();
    ghost var steady := Risk.ValidConfig(setting.config) && Steady(commands, clock);
    Started(session, clock(0), Pace([], [], [], true), clock(0), steady) by {
      if steady {
        NothingIsGood(setting.config, clock(0));
      }
    }
    var next := 0;
    while next < |commands|
      invariant next <= |commands| && fresh(session) && session.world == world && session.Valid()
      invariant session.config == setting.config
      invariant fit ==> session.Calm()
      invariant old(world.Healthy()) && (forall command <- commands :: AlwaysFits(command)) ==> fit
      invariant steady ==> Good(setting.config, session.PaceNow(), clock(next))
      decreases |commands| - next
    {
      ghost var fits;
      session, ended, fits := Continue(session, setting, commands[next], clock(next), if steady then clock(next + 1) else clock(next), steady);
      fit := fit && fits;
      if ended {
        return;
      }
      next := next + 1;
    }
    AllLimited(setting.config, session.PaceNow(), clock(next), steady);
    Reopened(session, fit);
  }

  /** Performs a command, or starts a new process; the program is at its end when the ledger does not replay. */
  method Continue(session: ExecutionSession, setting: Setting, command: Command, now: Risk.instant, ghost later: Risk.instant,
                  ghost steady: bool)
    returns (next: ExecutionSession, ended: bool, ghost fits: bool)
    requires session.Valid() && session.config == setting.config
    requires steady ==> Risk.ValidConfig(setting.config) && Good(setting.config, session.PaceNow(), now)
    requires steady ==> now <= TimeOf(command, now) <= later
    modifies session, session.world
    ensures (next == session || fresh(next)) && next.world == session.world && next.config == setting.config
    ensures Orderly(session.world.log, session.world.calls)
    ensures steady ==> Limited(setting.config, AttemptTimes(session.world.log))
    ensures !ended ==> next.Valid() && (steady ==> Good(setting.config, next.PaceNow(), later))
    ensures if command.NewProcess? then fits else fits == old(Fits(session, command, now))
    ensures AlwaysFits(command) ==> fits
    ensures old(session.Calm()) && fits ==> !ended && next.Calm()
  {
    hide ReplayLedger, Agree, Fits, Moves, Good, Restarted, AttemptTimes, Limited, session.ValidOn, Orderly;
    next, ended, fits := session, false, true;
    var world := session.world;
    ghost var before := session.PaceNow();
    if command.NewProcess? {
      Reopened(session, session.Calm());
      AllLimited(setting.config, before, now, steady);
      world.Restart();
      if ReplayLedger(world.log).Err? {
        ended := true;
        return;
      }
      next := new ExecutionSession(world, setting.sessionId, setting.config, setting.texts, setting.maximumQueue, command.mirror, now);
      Started(next, now, before, later, steady);
    } else {
      fits := Fits(session, command, now);
      FitsAnyState(session, command, now);
      Perform(session, command, now);
      Reopened(session, false);
      if steady {
        MoveIsGood(setting.config, before, session.PaceNow(), now, now, TimeOf(command, now));
        GoodLater(setting.config, session.PaceNow(), TimeOf(command, now), later);
      }
      AllLimited(setting.config, session.PaceNow(), later, steady);
    }
  }

  lemma FitsAnyState(session: ExecutionSession, command: Command, now: Risk.instant)
    ensures AlwaysFits(command) ==> Fits(session, command, now)
  {
  }

  /** Accepting a placement fits when nothing is known of the intent and its order, and the broker takes or refuses
      it under an id that is new. */
  lemma {:induction false} PlacementFits(session: ExecutionSession, intent: Risk.Intent, route: Option<Risk.Route>,
                                         view: Option<Risk.Snapshot>, time: int64, answer: Mutation, now: Risk.instant)
    requires WellFormedIntent(intent) && intent.action.Place? && intent.intentId !in session.store
    requires OrderFor(intent) !in session.replayed.books.tokens && OrderFor(intent) !in session.owners
    requires answer.orderId == OrderFor(intent) && (answer.verdict.Refused? || (answer.verdict.Acknowledged? && answer.correlation.Some?))
    requires var id := OutcomeId(intent.intentId, answer);
             !Own(id) && id !in session.replayed.fingerprints && id != SubmissionEventId(intent.intentId) && id != ""
    ensures Fits(session, Accept(intent, route, view, time, Some(answer)), now)
  {
    var orderId, id := OrderFor(intent), OutcomeId(intent.intentId, answer);
    forall orders: map<string, OSM.Order> | Attempting(session.live.books.orders, orders, intent, orderId, time)
      ensures AnswerFits(orders, session.replayed.fingerprints, session.texts, intent, orderId, answer, now)
    {
      assert orders[orderId].evidence[1..] == [];
      assert OSM.FindEvidence(orders[orderId].evidence, id).None?;
    }
  }

  lemma AllLimited(c: Risk.Config, pace: Pace, clock: Risk.instant, steady: bool)
    requires steady ==> Good(c, pace, clock)
    ensures steady ==> Limited(c, pace.recorded)
  {
  }

  /** A new process starts from the attempts in its ledger. */
  lemma Started(session: ExecutionSession, now: Risk.instant, before: Pace, later: Risk.instant, steady: bool)
    requires session.world.alive && session.world.open && ReplayLedger(session.world.log).Ok?
    requires session.live == ReplayLedger(session.world.log).value && before.recorded == AttemptTimes(session.world.log)
    requires session.orderTimes == Within(session.live.attempts, Risk.WindowStart(session.config, now), now)
    requires steady ==> Risk.ValidConfig(session.config) && Good(session.config, before, now) && now <= later
    ensures steady ==> Good(session.config, session.PaceNow(), later)
  {
    hide Good;
    ReplayCountsAttempts(session.world.log);
    if steady {
      RestartIsGood(session.config, before, now, now);
      GoodLater(session.config, session.PaceNow(), now, later);
    }
  }

  /** A repair leaves the state its ledger reconstructs, except that it asks for reconciliation. */
  lemma RepairAsksForReconciliation(log: seq<Event>, repair: Event)
    requires ReplayLedger(log).Ok? && repair.body.LedgerRepairRecorded? && repair.source.None?
    ensures ReplayLedger(log + [repair])
            == Ok(ReplayLedger(log).value.(reconciliationRequired := true, globalReconciliationRequired := true))
  {
    hide ReplayLedger, Told, Decided, Booked, Informed, ReplayEvidence, Completed;
    ReplayGoesOn(log, repair);
    assert !HoldsEvidence(repair) by { QuietHoldsNone(repair); }
    hide EvidenceOf, HoldsEvidence;
  }

  /** A session over a repaired ledger does not start, whatever the broker shows. */
  method StartRepaired(world: World, setting: Setting, mirror: Mirrored, ghost log: seq<Event>, ghost repair: Event,
                       routesUsable: bool, exact: bool, healthy: bool, now: int64)
    returns (session: ExecutionSession, ok: bool)
    requires world.alive && world.open && Orderly(world.log, world.calls) && world.log == log + [repair]
    requires ReplayLedger(log).Ok? && repair.body.LedgerRepairRecorded? && repair.source.None?
    modifies world
    ensures fresh(session) && session.Valid() && !ok && session.safetyStopped && session.killSwitch && !session.ready
    ensures world.calls == old(world.calls)
  {
    hide ReplayLedger, Agree;
    RepairAsksForReconciliation(log, repair);
    session := new ExecutionSession(world, setting.sessionId, setting.config, setting.texts, setting.maximumQueue, mirror, now);
    ok := session.Preflight(routesUsable, exact, healthy, now);
  }

  lemma NewLedgerIsClean()
    ensures ReplayLedger([]) == Ok(EMPTY) && Agree(EMPTY, EMPTY) && AttemptTimes([]) == []
  {
    EmptyAgree();
  }

  /** What a faultless session leaves behind replays, to a state that agrees with its own and with itself. */
  lemma Reopened(session: ExecutionSession, fit: bool)
    requires session.Valid() && (fit ==> session.Calm())
    ensures fit ==> ReplayLedger(session.world.log).Ok? && Agree(session.live, ReplayLedger(session.world.log).value)
    ensures fit ==> var s := ReplayLedger(session.world.log).value; Agree(s, s)
    ensures Orderly(session.world.log, session.world.calls)
  {
    hide Agree, AgreeOn, ReplayLedger;
    if fit {
      SameKnown(session);
      RestartAgrees(session.live, session.replayed);
    }
  }

  lemma SameKnown(session: ExecutionSession)
    requires session.Valid() && !session.faulted
    ensures ReplayLedger(session.world.log) == Ok(session.replayed) && Agree(session.live, session.replayed)
  {
    hide AgreeOn, ReplayLedger;
  }
}
