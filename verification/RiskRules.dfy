/**
 The rules as a table: which rules an intent is checked against, in order, and what each one says of the fields of
 intent, snapshot and configuration, in exact arithmetic. The risk engine is proved to check this table.
*/
module RiskRules {
  import opened Base
  import opened Risk
  import OrderStateMachine

  // ---------------------------------------------------------------- quantities

  /** A modification replaces this order. */
  predicate Replaces(intent: Intent, orderId: string) {
    intent.action == Modify && intent.target == Some(orderId)
  }

  /** What the intent adds to what has filled. */
  function Growth(intent: Intent, s: Snapshot): int {
    var asked := if intent.quantity.Some? then intent.quantity.value else 0;
    if intent.action == Modify && s.target.Some? && asked > s.target.value.filled then asked - s.target.value.filled else asked
  }

  /** A quantity that does not fit a position counts as the largest one. */
  function Signed(side: OrderStateMachine.Side, quantity: int): int {
    if side == OrderStateMachine.Buy then Min(quantity, INT64_MAX) else -Min(quantity, INT64_MAX)
  }

  /** What the other working orders of the instrument would move its position by. */
  function Moving(intent: Intent, orders: seq<WorkingOrder>): int {
    if orders == [] then 0
    else
      var last := orders[|orders| - 1];
      Moving(intent, orders[..|orders| - 1])
      + if last.instrument == intent.instrument && !Replaces(intent, last.orderId) then Signed(last.side, last.remaining) else 0
  }

  /** The premium of the other working orders. */
  function Premiums(intent: Intent, orders: seq<WorkingOrder>): int {
    if orders == [] then 0
    else
      var last := orders[|orders| - 1];
      Premiums(intent, orders[..|orders| - 1]) + if Replaces(intent, last.orderId) then 0 else last.remaining * last.limitPrice
  }

  /** No sum on the way leaves the machine's range. */
  ghost predicate SumsFit(intent: Intent, orders: seq<WorkingOrder>, start: int) {
    forall k :: 0 <= k <= |orders| ==> INT64_MIN <= start + Moving(intent, orders[..k]) <= INT64_MAX
  }

  /** What is promised to sell, without the order that is modified. */
  function Promised(intent: Intent, s: Snapshot): int {
    if intent.action == Modify && s.target.Some? && s.target.value.side == OrderStateMachine.Sell
       && s.target.value.remaining <= s.tokenWorkingSell
    then s.tokenWorkingSell - s.target.value.remaining
    else s.tokenWorkingSell
  }

  /** A magnitude within a limit; at the largest limit the least machine integer, which has no magnitude, is too. */
  predicate Within(value: int, limit: int) {
    INT64_MIN <= value <= INT64_MAX && (-limit <= value <= limit || limit == INT64_MAX)
  }

  predicate GreekFits(c: Config, intent: Intent, s: Snapshot, greek: Greek, limit: int)
    requires intent.side.Some?
  {
    var change := greek.perUnit * Signed(intent.side.value, Growth(intent, s));
    && s.greeks.Some? && s.greeks.value.trusted && s.greeks.value.instrument == intent.instrument
    && 0 <= s.greeks.value.timestamp <= s.now && s.now - s.greeks.value.timestamp <= c.maximumGreekAge
    && INT64_MIN <= change <= INT64_MAX && Within(greek.current + change, limit)
  }

  // ---------------------------------------------------------------- the table

  function Rules(c: Config, intent: Intent): seq<Rule> {
    if intent.action == Cancel then [CancelCorrelation, CancelIdempotency, CancelTarget, CancelSession]
    else AuthorityRules(intent) + MarketRules() + ExposureRules() + EvidenceRules(c)
  }

  function AuthorityRules(intent: Intent): seq<Rule> {
    [Authority, IdempotencyRule, Correlation, Routing, Contract] + if intent.action == Modify then [ModifyTarget] else []
  }

  function MarketRules(): seq<Rule> {
    [Time, BrokerHealth, ObservationRule, Sizing]
  }

  function ExposureRules(): seq<Rule> {
    [OutstandingOrders, OrderRate, PositionAuthority, PositionRule, SellAvailability, GrossPremium]
  }

  function EvidenceRules(c: Config): seq<Rule> {
    (if c.deltaLimit.Some? then [DeltaRule] else []) + (if c.gammaLimit.Some? then [GammaRule] else [])
    + (if c.vegaLimit.Some? then [VegaRule] else []) + [PnlAuthority, DailyLoss, Drawdown]
  }

  /** What a rule says, of an intent for which the rules before it hold. */
  ghost predicate Holds(rule: Rule, c: Config, intent: Intent, s: Snapshot) {
    match rule
    case CancelCorrelation => s.correlated
    case CancelIdempotency => s.idempotency == NewIntent
    case CancelTarget => s.targetKnown && !s.targetTerminal
    case CancelSession => s.health != Lost
    case Authority => !s.killSwitch && s.ready && !s.reconciliationRequired
    case IdempotencyRule => s.idempotency == NewIntent
    case Correlation => s.correlated
    case Routing =>
      && s.mapping == Verified && s.routeForToday && s.route.Some? && s.route.value.instrument == intent.instrument
      && 0 <= s.mappingAge <= s.maximumMappingAge && s.maximumMappingAge > 0
    case Contract =>
      && intent.side.Some? && intent.quantity.Some? && intent.quantity.value != 0 && intent.limitPrice.Some?
      && intent.limitPrice.value != 0 && intent.standardTerms
    case ModifyTarget =>
      && intent.target.Some? && s.targetKnown && !s.targetTerminal && s.target.Some?
      && s.target.value.instrument == intent.instrument && intent.side == Some(s.target.value.side)
      && intent.quantity.Some? && s.target.value.filled < intent.quantity.value
    case Time => intent.createdAt < intent.expiresAt && s.now < intent.expiresAt && intent.createdAt - s.now <= c.maximumClockSkew
    case BrokerHealth => s.health == Ready
    case ObservationRule =>
      s.observation.Some?
      && var o := s.observation.value;
         && o.instrument == intent.instrument && o.fromDhan && !o.stale && !o.crossed && !o.unusable
         && ((0 <= o.receiveTime <= s.now && s.now - o.receiveTime <= c.maximumObservationAge)
             || c.maximumObservationAge == INT64_MAX)
         && (o.exchangeTime.Some? ==>
               && 0 <= o.exchangeTime.value <= o.receiveTime && o.exchangeTime.value <= s.now
               && s.now - o.exchangeTime.value <= c.maximumObservationAge)
    case Sizing =>
      && s.route.Some? && s.route.value.lotSize != 0 && s.route.value.tickSize != 0
      && intent.quantity.Some? && intent.limitPrice.Some?
      && intent.quantity.value % s.route.value.lotSize == 0 && intent.limitPrice.value % s.route.value.tickSize == 0
      && intent.quantity.value <= INT64_MAX && intent.limitPrice.value <= INT64_MAX
      && intent.quantity.value <= c.maximumQuantity
    case OutstandingOrders =>
      |s.workingOrders| - (if exists i :: 0 <= i < |s.workingOrders| && Replaces(intent, s.workingOrders[i].orderId) then 1 else 0)
      < c.maximumOutstanding
    case OrderRate =>
      |set i | 0 <= i < |s.recentOrderTimes| && s.now - c.window < s.recentOrderTimes[i] <= s.now| < c.maximumOrdersPerWindow
    case PositionAuthority => s.positionsAuthoritative && s.marksAuthoritative
    case PositionRule =>
      intent.side.Some? && SumsFit(intent, s.workingOrders, s.instrumentPosition)
      && Within(s.instrumentPosition + Moving(intent, s.workingOrders) + Signed(intent.side.value, Growth(intent, s)),
                c.maximumPosition)
    case SellAvailability =>
      intent.side == Some(OrderStateMachine.Sell) ==>
        || Promised(intent, s) + Growth(intent, s) <= s.tokenPosition
        || (s.tokenPosition == INT64_MAX && Promised(intent, s) <= INT64_MAX)
    case GrossPremium =>
      intent.limitPrice.Some?
      && var working, asked := s.currentGross + Premiums(intent, s.workingOrders), Growth(intent, s) * intent.limitPrice.value;
         || working + asked <= c.maximumGross
         || (c.maximumGross == UINT64_MAX && working <= UINT64_MAX && asked <= UINT64_MAX)
    case DeltaRule =>
      intent.side.Some? && s.greeks.Some? && c.deltaLimit.Some? && GreekFits(c, intent, s, s.greeks.value.delta, c.deltaLimit.value)
    case GammaRule =>
      intent.side.Some? && s.greeks.Some? && c.gammaLimit.Some? && GreekFits(c, intent, s, s.greeks.value.gamma, c.gammaLimit.value)
    case VegaRule =>
      intent.side.Some? && s.greeks.Some? && c.vegaLimit.Some? && GreekFits(c, intent, s, s.greeks.value.vega, c.vegaLimit.value)
    case PnlAuthority => s.pnl.Some? && s.pnl.value.timestamp <= s.now && s.now - s.pnl.value.timestamp <= c.maximumObservationAge
    case DailyLoss => s.pnl.Some? && s.pnl.value.dailyLoss <= c.maximumDailyLoss
    case Drawdown => s.pnl.Some? && s.pnl.value.drawdown <= c.maximumDrawdown
  }

  ghost predicate AllHold(rules: seq<Rule>, c: Config, intent: Intent, s: Snapshot) {
    forall i :: 0 <= i < |rules| ==> Holds(rules[i], c, intent, s)
  }

  /** The audit records the rules in order, each with what it says, up to the first that does not hold; that one is
      the rejection. */
  ghost predicate Audits(a: Audit, rules: seq<Rule>, c: Config, intent: Intent, s: Snapshot) {
    && |a.checks| <= |rules|
    && (forall i :: 0 <= i < |a.checks| ==>
          a.checks[i].rule == rules[i] && (a.checks[i].passed <==> Holds(rules[i], c, intent, s)))
    && (forall i :: 0 <= i < |a.checks| - 1 ==> a.checks[i].passed)
    && (a.rejection.None? ==> |a.checks| == |rules| && AllHold(rules, c, intent, s))
    && (a.rejection.Some? ==>
          && a.checks != [] && !a.checks[|a.checks| - 1].passed && a.rejection.value == rules[|a.checks| - 1])
  }

  // ---------------------------------------------------------------- one rule at a time

  lemma AuditsNext(a: Audit, rules: seq<Rule>, next: seq<Rule>, c: Config, intent: Intent, s: Snapshot, rule: Rule, passed: bool,
                   before: int64, projected: int64, limit: int64)
    requires Audits(a, rules, c, intent, s) && next == rules + [rule]
    requires AllHold(rules, c, intent, s) ==> (passed <==> Holds(rule, c, intent, s))
    ensures Audits(Checked(a, rule, passed, before, projected, limit), next, c, intent, s)
  {
    hide Holds;
    assert next[..|rules|] == rules;
  }

  lemma Replaced(intent: Intent, orderId: string)
    ensures Replaces(intent, orderId) <==> IsTarget(intent, orderId)
  {
  }

  lemma {:induction false} SumsFitOnward(intent: Intent, orders: seq<WorkingOrder>, start: int)
    requires orders != []
    ensures SumsFit(intent, orders, start) <==>
            SumsFit(intent, orders[..|orders| - 1], start) && INT64_MIN <= start + Moving(intent, orders) <= INT64_MAX
  {
    hide Moving;
    var n := |orders| - 1;
    assert forall k :: 0 <= k <= n ==> orders[..n][..k] == orders[..k];
    assert orders[..n + 1] == orders;
  }

  lemma {:induction false} MovingIsProjected(intent: Intent, orders: seq<WorkingOrder>, start: int64)
    ensures var r := ProjectWorking(intent, orders, start);
            && (!r.overflowed <==> SumsFit(intent, orders, start))
            && (!r.overflowed ==> r.position == start + Moving(intent, orders))
  {
    if orders == [] {
      assert forall k :: 0 <= k <= |orders| ==> orders[..k] == [];
    } else {
      MovingIsProjected(intent, orders[..|orders| - 1], start);
      SumsFitOnward(intent, orders, start);
      hide SumsFit;
    }
  }

  lemma {:induction false} PremiumsAreExact(intent: Intent, orders: seq<WorkingOrder>)
    ensures Premiums(intent, orders) == ExactGross(intent, orders)
  {
    if orders != [] {
      PremiumsAreExact(intent, orders[..|orders| - 1]);
    }
  }

  lemma AuthorityRuleHolds(c: Config, intent: Intent, s: Snapshot)
    ensures Holds(Routing, c, intent, s) <==> RouteOk(intent, s)
    ensures Holds(Contract, c, intent, s) <==> ShapeOk(intent)
    ensures Holds(ModifyTarget, c, intent, s) <==> ModifyTargetOk(intent, s)
  {
  }

  lemma MarketRuleHolds(c: Config, intent: Intent, s: Snapshot)
    requires c.maximumClockSkew >= 0
    ensures Holds(Time, c, intent, s) <==> TimeOk(c, intent, s)
    ensures Holds(ObservationRule, c, intent, s) <==> ObservationOk(c, intent, s)
    ensures Holds(Contract, c, intent, s) ==> (Holds(Sizing, c, intent, s) <==> SizingOk(c, intent, s))
  {
  }

  lemma CountRuleHolds(c: Config, intent: Intent, s: Snapshot)
    requires c.window > 0
    ensures Holds(OutstandingOrders, c, intent, s) <==> Outstanding(intent, s) < c.maximumOutstanding
    ensures Holds(OrderRate, c, intent, s) <==>
            Recent(s.recentOrderTimes, Risk.WindowStart(c, s.now), s.now) < c.maximumOrdersPerWindow
  {
    RecentCounts(s.recentOrderTimes, Risk.WindowStart(c, s.now), s.now);
    assert forall i :: 0 <= i < |s.workingOrders| ==>
             (Replaces(intent, s.workingOrders[i].orderId) <==> IsTarget(intent, s.workingOrders[i].orderId));
  }

  lemma GrowthIsProjected(c: Config, intent: Intent, s: Snapshot)
    requires Holds(Contract, c, intent, s) && Holds(Sizing, c, intent, s)
    ensures Growth(intent, s) == ProjectedQuantity(intent, s) <= INT64_MAX
    ensures Signed(intent.side.value, Growth(intent, s)) == NewDelta(intent, s)
    ensures Promised(intent, s) == ReservedSell(intent, s)
  {
  }

  lemma PositionRuleHolds(c: Config, intent: Intent, s: Snapshot)
    requires Holds(Contract, c, intent, s) && Holds(Sizing, c, intent, s)
    ensures Holds(PositionRule, c, intent, s) <==> PositionOk(c, intent, s)
  {
    hide ProjectWorking, Moving, SumsFit, NewDelta, Growth;
    MovingIsProjected(intent, s.workingOrders, s.instrumentPosition);
    GrowthIsProjected(c, intent, s);
  }

  lemma SumRuleHolds(c: Config, intent: Intent, s: Snapshot)
    requires Holds(Contract, c, intent, s) && Holds(Sizing, c, intent, s)
    ensures Holds(SellAvailability, c, intent, s) <==> SellOk(intent, s)
    ensures Holds(GrossPremium, c, intent, s) <==> GrossOk(c, intent, s)
  {
    hide Premiums, ExactGross, ProjectedGross, Growth, ProjectedQuantity, Promised, ReservedSell;
    GrowthIsProjected(c, intent, s);
    PremiumsAreExact(intent, s.workingOrders);
    GrossRuleIsExact(c, intent, s);
    if intent.side == Some(OrderStateMachine.Sell) {
      SellRuleIsExact(intent, s);
    }
  }

  lemma GreekRuleHolds(c: Config, intent: Intent, s: Snapshot, greek: Greek, limit: int64)
    requires Holds(Contract, c, intent, s) && Holds(Sizing, c, intent, s) && limit > 0
    ensures GreekFits(c, intent, s, greek, limit) <==> GreekOk(c, intent, s, greek, limit)
  {
    hide SignedProductOverflows, Growth, NewDelta;
    GrowthIsProjected(c, intent, s);
    SignedProductOverflowsIff(greek.perUnit, NewDelta(intent, s));
  }

  // ---------------------------------------------------------------- the engine checks the table

  lemma CancelTable(c: Config, intent: Intent, s: Snapshot)
    requires intent.action == Cancel
    ensures Audits(Evaluate(c, intent, s), Rules(c, intent), c, intent, s)
  {
    hide Audits, AllHold, Checked;
    var known, filled := s.targetKnown && !s.targetTerminal, Bounded(if s.target.Some? then s.target.value.filled else 0);
    var a0 := NothingAudited(c, intent, s);
    AuditsNext(a0, [], [CancelCorrelation], c, intent, s, CancelCorrelation, s.correlated, 0, Flag(!s.correlated), 0);
    var a1 := Checked(a0, CancelCorrelation, s.correlated, 0, Flag(!s.correlated), 0);
    AuditsNext(a1, [CancelCorrelation], [CancelCorrelation, CancelIdempotency], c, intent, s, CancelIdempotency,
               s.idempotency.NewIntent?, 0, 0, 0);
    var a2 := Checked(a1, CancelIdempotency, s.idempotency.NewIntent?, 0, 0, 0);
    AuditsNext(a2, [CancelCorrelation, CancelIdempotency], [CancelCorrelation, CancelIdempotency, CancelTarget], c, intent, s,
               CancelTarget, known, filled, filled, 0);
    var a3 := Checked(a2, CancelTarget, known, filled, filled, 0);
    AuditsNext(a3, [CancelCorrelation, CancelIdempotency, CancelTarget], Rules(c, intent), c, intent, s, CancelSession,
               !s.health.Lost?, 0, 0, 0);
  }

  lemma AuthorityTable(c: Config, intent: Intent, s: Snapshot)
    ensures Audits(CheckAuthority(c, intent, s), AuthorityRules(intent), c, intent, s)
  {
    hide Audits, AllHold, Checked, RouteOk, ShapeOk, ModifyTargetOk;
    AuthorityRuleHolds(c, intent, s);
    var authority, target := !s.killSwitch && s.ready && !s.reconciliationRequired, ModifyTargetOk(intent, s);
    var a0 := NothingAudited(c, intent, s);
    AuditsNext(a0, [], [Authority], c, intent, s, Authority, authority, Flag(s.killSwitch), Flag(!s.ready), 0);
    var a1 := Checked(a0, Authority, authority, Flag(s.killSwitch), Flag(!s.ready), 0);
    AuditsNext(a1, [Authority], [Authority, IdempotencyRule], c, intent, s, IdempotencyRule, s.idempotency.NewIntent?, 0, 0, 0);
    var a2 := Checked(a1, IdempotencyRule, s.idempotency.NewIntent?, 0, 0, 0);
    AuditsNext(a2, [Authority, IdempotencyRule], [Authority, IdempotencyRule, Correlation], c, intent, s, Correlation,
               s.correlated, 0, Flag(!s.correlated), 0);
    var a3 := Checked(a2, Correlation, s.correlated, 0, Flag(!s.correlated), 0);
    RoutingTable(c, intent, s, a3);
  }

  lemma RoutingTable(c: Config, intent: Intent, s: Snapshot, a3: Audit)
    requires Audits(a3, [Authority, IdempotencyRule, Correlation], c, intent, s)
    ensures var a := Checked(a3, Routing, RouteOk(intent, s), s.mappingAge, s.mappingAge, s.maximumMappingAge);
            var a := Checked(a, Contract, ShapeOk(intent), 0, Flag(!ShapeOk(intent)), 0);
            Audits(if intent.action.Modify? then Checked(a, ModifyTarget, ModifyTargetOk(intent, s), 0, Flag(!ModifyTargetOk(intent, s)), 0)
                   else a, AuthorityRules(intent), c, intent, s)
  {
    hide Audits, AllHold, Checked, RouteOk, ShapeOk, ModifyTargetOk, Holds;
    AuthorityRuleHolds(c, intent, s);
    var first := [Authority, IdempotencyRule, Correlation];
    AuditsNext(a3, first, first + [Routing], c, intent, s, Routing, RouteOk(intent, s), s.mappingAge, s.mappingAge, s.maximumMappingAge);
    var a4 := Checked(a3, Routing, RouteOk(intent, s), s.mappingAge, s.mappingAge, s.maximumMappingAge);
    var all := [Authority, IdempotencyRule, Correlation, Routing, Contract];
    AuditsNext(a4, first + [Routing], all, c, intent, s, Contract, ShapeOk(intent), 0, Flag(!ShapeOk(intent)), 0);
    var a5 := Checked(a4, Contract, ShapeOk(intent), 0, Flag(!ShapeOk(intent)), 0);
    if intent.action.Modify? {
      AuditsNext(a5, all, AuthorityRules(intent), c, intent, s, ModifyTarget, ModifyTargetOk(intent, s), 0,
                 Flag(!ModifyTargetOk(intent, s)), 0);
    } else {
      assert all + [] == all;
    }
  }

  lemma HoldsAmong(rules: seq<Rule>, rule: Rule, c: Config, intent: Intent, s: Snapshot)
    requires AllHold(rules, c, intent, s) && rule in rules
    ensures Holds(rule, c, intent, s)
  {
    hide Holds;
  }

  lemma MarketTable(c: Config, intent: Intent, s: Snapshot, a: Audit, pre: seq<Rule>)
    requires Audits(a, pre, c, intent, s) && Contract in pre && c.maximumClockSkew >= 0
    ensures Audits(CheckMarket(c, intent, s, a), pre + MarketRules(), c, intent, s)
  {
    hide Audits, AllHold, Checked, TimeOk, ObservationOk, SizingOk;
    MarketRuleHolds(c, intent, s);
    if AllHold(pre + [Time, BrokerHealth, ObservationRule], c, intent, s) {
      HoldsAmong(pre + [Time, BrokerHealth, ObservationRule], Contract, c, intent, s);
    }
    assert Holds(BrokerHealth, c, intent, s) <==> s.health.Ready?;
    hide Holds;
    var age, quantity := ObservationAge(s), Bounded(intent.quantity.GetOr(0));
    AuditsNext(a, pre, pre + [Time], c, intent, s, Time, TimeOk(c, intent, s), intent.createdAt, s.now, intent.expiresAt);
    var a1 := Checked(a, Time, TimeOk(c, intent, s), intent.createdAt, s.now, intent.expiresAt);
    AuditsNext(a1, pre + [Time], pre + [Time, BrokerHealth], c, intent, s, BrokerHealth, s.health.Ready?, 0, 0, 0);
    var a2 := Checked(a1, BrokerHealth, s.health.Ready?, 0, 0, 0);
    AuditsNext(a2, pre + [Time, BrokerHealth], pre + [Time, BrokerHealth, ObservationRule], c, intent, s, ObservationRule,
               ObservationOk(c, intent, s), age, age, c.maximumObservationAge);
    var a3 := Checked(a2, ObservationRule, ObservationOk(c, intent, s), age, age, c.maximumObservationAge);
    AuditsNext(a3, pre + [Time, BrokerHealth, ObservationRule], pre + MarketRules(), c, intent, s, Sizing,
               SizingOk(c, intent, s), quantity, quantity, Bounded(c.maximumQuantity));
  }

  lemma ExposureTable(c: Config, intent: Intent, s: Snapshot, a: Audit, pre: seq<Rule>)
    requires Audits(a, pre, c, intent, s) && Contract in pre && Sizing in pre && c.window > 0
    ensures Audits(CheckExposure(c, intent, s, a), pre + ExposureRules(), c, intent, s)
  {
    hide Audits, AllHold, Checked, Outstanding, Recent, PositionOk, SellOk, GrossOk, ProjectedPosition, ProjectedGross,
         GrossWorking, ProjectedQuantity;
    CountRuleHolds(c, intent, s);
    var outstanding, recent := Outstanding(intent, s), Recent(s.recentOrderTimes, Risk.WindowStart(c, s.now), s.now);
    var few, rare := outstanding < c.maximumOutstanding, recent < c.maximumOrdersPerWindow;
    var authority := s.positionsAuthoritative && s.marksAuthoritative;
    assert Holds(PositionAuthority, c, intent, s) <==> authority;
    hide Holds;
    AuditsNext(a, pre, pre + [OutstandingOrders], c, intent, s, OutstandingOrders, few, Min(outstanding, INT64_MAX),
               Min(outstanding + 1, INT64_MAX), Bounded(c.maximumOutstanding));
    var a1 := Checked(a, OutstandingOrders, few, Min(outstanding, INT64_MAX), Min(outstanding + 1, INT64_MAX), Bounded(c.maximumOutstanding));
    AuditsNext(a1, pre + [OutstandingOrders], pre + [OutstandingOrders, OrderRate], c, intent, s, OrderRate, rare,
               Min(recent, INT64_MAX), Min(recent + 1, INT64_MAX), Bounded(c.maximumOrdersPerWindow));
    var a2 := Checked(a1, OrderRate, rare, Min(recent, INT64_MAX), Min(recent + 1, INT64_MAX), Bounded(c.maximumOrdersPerWindow));
    var three := pre + [OutstandingOrders, OrderRate, PositionAuthority];
    AuditsNext(a2, pre + [OutstandingOrders, OrderRate], three, c, intent, s, PositionAuthority, authority, 0, Flag(!authority), 0);
    SumTable(c, intent, s, Checked(a2, PositionAuthority, authority, 0, Flag(!authority), 0), three);
    assert three + [PositionRule, SellAvailability, GrossPremium] == pre + ExposureRules();
  }

  lemma SumTable(c: Config, intent: Intent, s: Snapshot, a: Audit, pre: seq<Rule>)
    requires Audits(a, pre, c, intent, s) && Contract in pre && Sizing in pre
    ensures var a := Checked(a, PositionRule, PositionOk(c, intent, s), s.instrumentPosition,
                             ProjectedPosition(intent, s).position, c.maximumPosition);
            var sell := Bounded(ProjectedQuantity(intent, s));
            var a := Checked(a, SellAvailability, SellOk(intent, s), s.tokenPosition, Max(INT64_MIN, s.tokenPosition - sell), 0);
            Audits(Checked(a, GrossPremium, GrossOk(c, intent, s), Bounded(GrossWorking(intent, s.workingOrders, s.currentGross).total),
                           Bounded(ProjectedGross(intent, s).total), Bounded(c.maximumGross)),
                   pre + [PositionRule, SellAvailability, GrossPremium], c, intent, s)
  {
    hide Audits, AllHold, Checked, PositionOk, SellOk, GrossOk, ProjectedPosition, ProjectedGross, GrossWorking, ProjectedQuantity, Holds;
    var one, two := pre + [PositionRule], pre + [PositionRule, SellAvailability];
    if AllHold(pre, c, intent, s) {
      HoldsAmong(pre, Contract, c, intent, s);
      HoldsAmong(pre, Sizing, c, intent, s);
      PositionRuleHolds(c, intent, s);
      SumRuleHolds(c, intent, s);
    }
    FewerHold(pre, [PositionRule], c, intent, s);
    FewerHold(pre, [PositionRule, SellAvailability], c, intent, s);
    AuditsNext(a, pre, one, c, intent, s, PositionRule, PositionOk(c, intent, s), s.instrumentPosition,
               ProjectedPosition(intent, s).position, c.maximumPosition);
    var a1 := Checked(a, PositionRule, PositionOk(c, intent, s), s.instrumentPosition, ProjectedPosition(intent, s).position, c.maximumPosition);
    var sell := Bounded(ProjectedQuantity(intent, s));
    AuditsNext(a1, one, two, c, intent, s, SellAvailability, SellOk(intent, s), s.tokenPosition, Max(INT64_MIN, s.tokenPosition - sell), 0);
    var a2 := Checked(a1, SellAvailability, SellOk(intent, s), s.tokenPosition, Max(INT64_MIN, s.tokenPosition - sell), 0);
    AuditsNext(a2, two, pre + [PositionRule, SellAvailability, GrossPremium], c, intent, s, GrossPremium, GrossOk(c, intent, s),
               Bounded(GrossWorking(intent, s.workingOrders, s.currentGross).total), Bounded(ProjectedGross(intent, s).total),
               Bounded(c.maximumGross));
  }

  lemma FewerHold(rules: seq<Rule>, more: seq<Rule>, c: Config, intent: Intent, s: Snapshot)
    ensures AllHold(rules + more, c, intent, s) ==> AllHold(rules, c, intent, s)
  {
    hide Holds;
    assert forall i :: 0 <= i < |rules| ==> (rules + more)[i] == rules[i];
  }

  lemma GreekTable(c: Config, intent: Intent, s: Snapshot, a: Audit, pre: seq<Rule>, rule: Rule, greek: Greek, limit: Option<int64>)
    requires Audits(a, pre, c, intent, s) && Contract in pre && Sizing in pre && (limit.Some? ==> limit.value > 0)
    requires limit.Some? ==>
               (Holds(rule, c, intent, s) <==> intent.side.Some? && s.greeks.Some? && GreekFits(c, intent, s, greek, limit.value))
    ensures Audits(GreekCheck(a, c, intent, s, rule, greek, limit), pre + (if limit.Some? then [rule] else []), c, intent, s)
  {
    hide AllHold, GreekOk, Holds, GreekFits, ProjectedGreek;
    if limit.None? {
      assert pre + [] == pre;
    } else {
      if AllHold(pre, c, intent, s) {
        HoldsAmong(pre, Contract, c, intent, s);
        HoldsAmong(pre, Sizing, c, intent, s);
        GreekRuleHolds(c, intent, s, greek, limit.value);
        ContractHasSide(c, intent, s);
        FreshGreeks(c, intent, s, greek, limit.value);
      }
      var projected := ProjectedGreek(intent, s, greek).GetOr(0);
      AuditsNext(a, pre, pre + [rule], c, intent, s, rule, GreekOk(c, intent, s, greek, limit.value), greek.current, projected, limit.value);
    }
  }

  lemma ContractHasSide(c: Config, intent: Intent, s: Snapshot)
    requires Holds(Contract, c, intent, s)
    ensures intent.side.Some?
  {
  }

  lemma FreshGreeks(c: Config, intent: Intent, s: Snapshot, greek: Greek, limit: int64)
    ensures GreekOk(c, intent, s, greek, limit) ==> s.greeks.Some?
  {
  }

  /** What the greek rules say, with a projection of nothing where there is no snapshot. */
  lemma GreekRulesSay(c: Config, intent: Intent, s: Snapshot)
    ensures var none := Greek(0, 0);
            && (c.deltaLimit.Some? ==>
                  (Holds(DeltaRule, c, intent, s) <==>
                   && intent.side.Some? && s.greeks.Some?
                   && GreekFits(c, intent, s, if s.greeks.Some? then s.greeks.value.delta else none, c.deltaLimit.value)))
            && (c.gammaLimit.Some? ==>
                  (Holds(GammaRule, c, intent, s) <==>
                   && intent.side.Some? && s.greeks.Some?
                   && GreekFits(c, intent, s, if s.greeks.Some? then s.greeks.value.gamma else none, c.gammaLimit.value)))
            && (c.vegaLimit.Some? ==>
                  (Holds(VegaRule, c, intent, s) <==>
                   && intent.side.Some? && s.greeks.Some?
                   && GreekFits(c, intent, s, if s.greeks.Some? then s.greeks.value.vega else none, c.vegaLimit.value)))
  {
    hide GreekFits;
  }

  lemma EvidenceTable(c: Config, intent: Intent, s: Snapshot, a: Audit, pre: seq<Rule>)
    requires Audits(a, pre, c, intent, s) && Contract in pre && Sizing in pre && ValidConfig(c)
    ensures Audits(CheckEvidence(c, intent, s, a), pre + EvidenceRules(c), c, intent, s)
  {
    hide Audits, AllHold, Checked, GreekCheck, GreekFits, Holds;
    GreekRulesSay(c, intent, s);
    var none := Greek(0, 0);
    var delta := if s.greeks.Some? then s.greeks.value.delta else none;
    var gamma := if s.greeks.Some? then s.greeks.value.gamma else none;
    var vega := if s.greeks.Some? then s.greeks.value.vega else none;
    var first := pre + if c.deltaLimit.Some? then [DeltaRule] else [];
    var second := first + if c.gammaLimit.Some? then [GammaRule] else [];
    var third := second + if c.vegaLimit.Some? then [VegaRule] else [];
    GreekTable(c, intent, s, a, pre, DeltaRule, delta, c.deltaLimit);
    var a1 := GreekCheck(a, c, intent, s, DeltaRule, delta, c.deltaLimit);
    GreekTable(c, intent, s, a1, first, GammaRule, gamma, c.gammaLimit);
    var a2 := GreekCheck(a1, c, intent, s, GammaRule, gamma, c.gammaLimit);
    GreekTable(c, intent, s, a2, second, VegaRule, vega, c.vegaLimit);
    PnlTable(c, intent, s, GreekCheck(a2, c, intent, s, VegaRule, vega, c.vegaLimit), third);
    assert third + [PnlAuthority, DailyLoss, Drawdown] == pre + EvidenceRules(c);
  }

  lemma PnlTable(c: Config, intent: Intent, s: Snapshot, a: Audit, pre: seq<Rule>)
    requires Audits(a, pre, c, intent, s)
    ensures var a := Checked(a, PnlAuthority, PnlOk(c, s), 0, Flag(!PnlOk(c, s)), 0);
            var a := Checked(a, DailyLoss, Loss(s) <= c.maximumDailyLoss, Bounded(Loss(s)), Bounded(Loss(s)), Bounded(c.maximumDailyLoss));
            Audits(Checked(a, Drawdown, DrawdownOf(s) <= c.maximumDrawdown, Bounded(DrawdownOf(s)), Bounded(DrawdownOf(s)),
                           Bounded(c.maximumDrawdown)),
                   pre + [PnlAuthority, DailyLoss, Drawdown], c, intent, s)
  {
    hide Audits, AllHold, Checked;
    var loss, drawdown := Loss(s), DrawdownOf(s);
    var one, two := pre + [PnlAuthority], pre + [PnlAuthority, DailyLoss];
    assert PnlOk(c, s) <==> Holds(PnlAuthority, c, intent, s);
    if AllHold(one, c, intent, s) {
      HoldsAmong(one, PnlAuthority, c, intent, s);
    }
    FewerHold(one, [DailyLoss], c, intent, s);
    assert one + [DailyLoss] == two;
    AuditsNext(a, pre, one, c, intent, s, PnlAuthority, PnlOk(c, s), 0, Flag(!PnlOk(c, s)), 0);
    var a1 := Checked(a, PnlAuthority, PnlOk(c, s), 0, Flag(!PnlOk(c, s)), 0);
    AuditsNext(a1, one, two, c, intent, s, DailyLoss, loss <= c.maximumDailyLoss, Bounded(loss), Bounded(loss), Bounded(c.maximumDailyLoss));
    var a2 := Checked(a1, DailyLoss, loss <= c.maximumDailyLoss, Bounded(loss), Bounded(loss), Bounded(c.maximumDailyLoss));
    AuditsNext(a2, two, pre + [PnlAuthority, DailyLoss, Drawdown], c, intent, s, Drawdown, drawdown <= c.maximumDrawdown,
               Bounded(drawdown), Bounded(drawdown), Bounded(c.maximumDrawdown));
  }

  lemma NothingAudited(c: Config, intent: Intent, s: Snapshot) returns (a: Audit)
    ensures a == Audit([], None) && Audits(a, [], c, intent, s)
  {
    a := Audit([], None);
  }

  /** Main result: the engine audits exactly the rules of the table, in order, up to the first that does not hold;
      and an intent is approved exactly when all of them hold. */
  lemma EvaluationIsTheTable(c: Config, intent: Intent, s: Snapshot)
    requires ValidConfig(c)
    ensures Audits(Evaluate(c, intent, s), Rules(c, intent), c, intent, s)
    ensures Approved(Evaluate(c, intent, s)) <==> forall i :: 0 <= i < |Rules(c, intent)| ==> Holds(Rules(c, intent)[i], c, intent, s)
  {
    if intent.action == Cancel {
      CancelTable(c, intent, s);
    } else {
      RulesAudited(c, intent, s);
    }
    hide Evaluate, Rules, Holds;
  }

  lemma RulesAudited(c: Config, intent: Intent, s: Snapshot)
    requires ValidConfig(c) && intent.action != Cancel
    ensures Audits(Evaluate(c, intent, s), Rules(c, intent), c, intent, s)
  {
    hide Audits, CheckAuthority, CheckMarket, CheckExposure, CheckEvidence, EvidenceRules;
    AuthorityTable(c, intent, s);
    var a1, first := CheckAuthority(c, intent, s), AuthorityRules(intent);
    assert first[4] == Contract;
    MarketTable(c, intent, s, a1, first);
    var a2, second := CheckMarket(c, intent, s, a1), first + MarketRules();
    assert second[4] == Contract && second[|first| + 3] == Sizing;
    ExposureTable(c, intent, s, a2, second);
    var third := second + ExposureRules();
    assert third[4] == Contract && third[|first| + 3] == Sizing;
    EvidenceTable(c, intent, s, CheckExposure(c, intent, s, a2), third);
  }

  /** A rule that orders and modifications are always checked against. */
  predicate Listed(intent: Intent, rule: Rule) {
    rule in AuthorityRules(intent) || rule in MarketRules() || rule in ExposureRules() || rule in [PnlAuthority, DailyLoss, Drawdown]
  }

  lemma ApprovedHolds(c: Config, intent: Intent, s: Snapshot, rule: Rule)
    requires ValidConfig(c) && intent.action != Cancel && Approved(Evaluate(c, intent, s)) && Listed(intent, rule)
    ensures Holds(rule, c, intent, s)
  {
    hide Evaluate, Holds, Approved, AuthorityRules, MarketRules, ExposureRules, Audits;
    EvaluationIsTheTable(c, intent, s);
    var rules := Rules(c, intent);
    assert rule in rules;
    var i :| 0 <= i < |rules| && rules[i] == rule;
  }

  /** Who may trade what, and when: what the fields say of an approved order or modification. */
  lemma ApprovalIsAuthorized(c: Config, intent: Intent, s: Snapshot)
    requires ValidConfig(c) && intent.action != Cancel && Approved(Evaluate(c, intent, s))
    ensures !s.killSwitch && s.ready && !s.reconciliationRequired && s.idempotency == NewIntent && s.correlated
    ensures intent.createdAt <= s.now + c.maximumClockSkew && s.now < intent.expiresAt
    ensures s.route.Some? && s.mapping == Verified && s.routeForToday && s.route.value.instrument == intent.instrument
            && s.mappingAge <= s.maximumMappingAge
    ensures intent.action == Modify ==>
              && s.targetKnown && !s.targetTerminal && s.target.Some? && s.target.value.instrument == intent.instrument
              && Some(s.target.value.side) == intent.side && s.target.value.filled < intent.quantity.GetOr(0)
  {
    hide Evaluate, Approved;
    ApprovedHolds(c, intent, s, Authority);
    ApprovedHolds(c, intent, s, IdempotencyRule);
    ApprovedHolds(c, intent, s, Correlation);
    ApprovedHolds(c, intent, s, Routing);
    if intent.action == Modify {
      ApprovedHolds(c, intent, s, ModifyTarget);
    }
    ApprovedHolds(c, intent, s, Time);
  }

  /** On which market evidence, and of which size. */
  lemma ApprovalIsInformed(c: Config, intent: Intent, s: Snapshot)
    requires ValidConfig(c) && intent.action != Cancel && Approved(Evaluate(c, intent, s))
    ensures s.health == Ready && s.observation.Some? && s.observation.value.instrument == intent.instrument
            && s.observation.value.fromDhan && !s.observation.value.stale && !s.observation.value.crossed
            && !s.observation.value.unusable
            && (c.maximumObservationAge < INT64_MAX ==>
                  0 <= s.observation.value.receiveTime <= s.now <= s.observation.value.receiveTime + c.maximumObservationAge)
  {
    hide Evaluate, Approved;
    ApprovedHolds(c, intent, s, BrokerHealth);
    ApprovedHolds(c, intent, s, ObservationRule);
  }

  /** After which losses. */
  lemma ApprovalIsSolvent(c: Config, intent: Intent, s: Snapshot)
    requires ValidConfig(c) && intent.action != Cancel && Approved(Evaluate(c, intent, s))
    ensures s.pnl.Some? && s.pnl.value.dailyLoss <= c.maximumDailyLoss && s.pnl.value.drawdown <= c.maximumDrawdown
            && s.pnl.value.timestamp <= s.now <= s.pnl.value.timestamp + c.maximumObservationAge
  {
    hide Evaluate, Approved;
    ApprovedHolds(c, intent, s, PnlAuthority);
    ApprovedHolds(c, intent, s, DailyLoss);
    ApprovedHolds(c, intent, s, Drawdown);
  }

  /** Of which size and price. */
  lemma ApprovalIsSized(c: Config, intent: Intent, s: Snapshot)
    requires ValidConfig(c) && intent.action != Cancel && Approved(Evaluate(c, intent, s))
    ensures s.route.Some? && s.route.value.lotSize > 0 && s.route.value.tickSize > 0
    ensures intent.side.Some? && intent.quantity.Some? && intent.limitPrice.Some? && intent.standardTerms
            && 0 < intent.quantity.value <= c.maximumQuantity && intent.quantity.value % s.route.value.lotSize == 0
            && 0 < intent.limitPrice.value && intent.limitPrice.value % s.route.value.tickSize == 0
  {
    hide Evaluate, Approved;
    ApprovedHolds(c, intent, s, Contract);
    ApprovedHolds(c, intent, s, Sizing);
  }

  /** Main result: what an approved order or modification guarantees of rate, exposure and loss, in exact arithmetic. */
  lemma ApprovalIsSafe(c: Config, intent: Intent, s: Snapshot)
    requires ValidConfig(c) && intent.action != Cancel && Approved(Evaluate(c, intent, s))
    ensures intent.side.Some? && intent.quantity.Some? && intent.limitPrice.Some? && (intent.action == Modify ==> s.target.Some?)
    ensures |set i | 0 <= i < |s.recentOrderTimes| && s.now - c.window < s.recentOrderTimes[i] <= s.now| < c.maximumOrdersPerWindow
    ensures |s.workingOrders| <= c.maximumOutstanding && (intent.action != Modify ==> |s.workingOrders| < c.maximumOutstanding)
    ensures s.positionsAuthoritative && s.marksAuthoritative
    ensures var growth := if intent.action == Modify then intent.quantity.value - s.target.value.filled else intent.quantity.value;
            var position := s.instrumentPosition + Moving(intent, s.workingOrders)
                            + if intent.side.value == OrderStateMachine.Buy then growth else -growth;
            var premium := s.currentGross + Premiums(intent, s.workingOrders) + growth * intent.limitPrice.value;
            && 0 < growth <= c.maximumQuantity
            && (c.maximumPosition < INT64_MAX ==> -c.maximumPosition <= position <= c.maximumPosition)
            && (c.maximumGross < UINT64_MAX ==> premium <= c.maximumGross)
            && (intent.side.value == OrderStateMachine.Sell && s.tokenPosition < INT64_MAX ==>
                  Promised(intent, s) + growth <= s.tokenPosition)
    ensures s.pnl.Some? && s.pnl.value.dailyLoss <= c.maximumDailyLoss && s.pnl.value.drawdown <= c.maximumDrawdown
            && s.pnl.value.timestamp <= s.now <= s.pnl.value.timestamp + c.maximumObservationAge
  {
    hide Evaluate, Approved, Moving, Premiums, Promised, SumsFit, Recent;
    ApprovalIsAuthorized(c, intent, s);
    ApprovalIsSolvent(c, intent, s);
    ApprovalIsSized(c, intent, s);
    ApprovalIsBounded(c, intent, s);
    ApprovedHolds(c, intent, s, OutstandingOrders);
    ApprovedHolds(c, intent, s, OrderRate);
    ApprovedHolds(c, intent, s, PositionAuthority);
  }

  lemma ApprovalIsBounded(c: Config, intent: Intent, s: Snapshot)
    requires ValidConfig(c) && intent.action != Cancel && Approved(Evaluate(c, intent, s))
    requires intent.side.Some? && intent.quantity.Some? && intent.limitPrice.Some?
    requires intent.action == Modify ==> s.target.Some? && s.target.value.filled < intent.quantity.value
    ensures var growth := if intent.action == Modify then intent.quantity.value - s.target.value.filled else intent.quantity.value;
            var position := s.instrumentPosition + Moving(intent, s.workingOrders)
                            + if intent.side.value == OrderStateMachine.Buy then growth else -growth;
            var premium := s.currentGross + Premiums(intent, s.workingOrders) + growth * intent.limitPrice.value;
            && (c.maximumPosition < INT64_MAX ==> -c.maximumPosition <= position <= c.maximumPosition)
            && (c.maximumGross < UINT64_MAX ==> premium <= c.maximumGross)
            && (intent.side.value == OrderStateMachine.Sell && s.tokenPosition < INT64_MAX ==>
                  Promised(intent, s) + growth <= s.tokenPosition)
  {
    hide Evaluate, Approved, Moving, Premiums, Promised, SumsFit;
    ApprovedHolds(c, intent, s, Sizing);
    ApprovedHolds(c, intent, s, PositionRule);
    ApprovedHolds(c, intent, s, SellAvailability);
    ApprovedHolds(c, intent, s, GrossPremium);
  }
}
