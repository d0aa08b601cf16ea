/**
 The risk engine: the rules an intent must pass, in order, over 64-bit arithmetic that is checked,
 saturating or bounded, and what approval means over unbounded integers.

 Signed overflow that the program leaves undefined is not modelled: differences of timestamps are exact.
*/
module Risk {
  import opened Base
  import opened OrderStateMachine

  /** Clock readings are not negative. */
  type instant = x: int | 0 <= x <= INT64_MAX

  // ---------------------------------------------------------------- machine arithmetic

  /** Division of the machine, which truncates toward zero. */
  function Quotient(a: int, b: int): int
    requires b != 0
  {
    if a >= 0 && b > 0 then a / b
    else if a >= 0 then -(a / -b)
    else if b > 0 then -(-a / b)
    else -a / -b
  }

  /** The sum, or nothing when it overflows. */
  function CheckedAdd(left: int64, right: int64): Option<int64> {
    if (right > 0 && left > INT64_MAX - right) || (right < 0 && left < INT64_MIN - right) then None
    else Some(left + right)
  }

  predicate ProductOverflows(left: uint64, right: uint64) {
    left != 0 && right > Quotient(UINT64_MAX, left)
  }

  predicate SignedProductOverflows(left: int64, right: int64) {
    if left == 0 || right == 0 then false
    else if (left == -1 && right == INT64_MIN) || (right == -1 && left == INT64_MIN) then true
    else if left > 0 then
      (right > 0 && left > Quotient(INT64_MAX, right)) || (right < 0 && right < Quotient(INT64_MIN, left))
    else
      (right > 0 && left < Quotient(INT64_MIN, right)) || (right < 0 && left < Quotient(INT64_MAX, right))
  }

  function CheckedMultiply(left: uint64, right: uint64): Option<uint64> {
    if ProductOverflows(left, right) then None
    else
      ProductOverflowsIff(left, right);
      Some(left * right)
  }

  function SignedCheckedMultiply(left: int64, right: int64): Option<int64> {
    if SignedProductOverflows(left, right) then None
    else
      SignedProductOverflowsIff(left, right);
      Some(left * right)
  }

  function Bounded(value: uint64): int64 {
    if value > INT64_MAX then INT64_MAX else value
  }

  function AbsoluteSaturated(value: int64): int64 {
    if value == INT64_MIN then INT64_MAX else if value < 0 then -value else value
  }

  /** Of two factors, the product passes a bound exactly when one passes the bound's quotient. */
  lemma QuotientBounds(bound: nat, a: nat, b: nat)
    requires a > 0
    ensures b > bound / a <==> a * b > bound
  {
    var q, r := bound / a, bound % a;
    assert bound == a * q + r && r < a;
    if b > q {
      MultiplyMonotone(a, q + 1, b);
    } else {
      MultiplyMonotone(a, b, q);
    }
  }

  lemma MultiplyMonotone(a: nat, b: nat, c: nat)
    requires b <= c
    ensures a * b <= a * c
  {
  }

  lemma ProductOverflowsIff(left: uint64, right: uint64)
    ensures ProductOverflows(left, right) <==> left * right > UINT64_MAX
  {
    if left > 0 {
      QuotientBounds(UINT64_MAX, left, right);
    }
  }

  lemma PositiveProduct(left: int, right: int)
    requires 0 < left <= INT64_MAX && 0 < right
    ensures left > Quotient(INT64_MAX, right) <==> left * right > INT64_MAX
    ensures left * right > 0
  {
    QuotientBounds(INT64_MAX, right, left);
  }

  lemma NegativeProduct(left: int, right: int)
    requires 0 < left && right < 0
    ensures right < Quotient(INT64_MIN, left) <==> left * right < INT64_MIN
    ensures left * right < 0
  {
    var size: int := -right;
    QuotientBounds(-INT64_MIN, left, size);
    assert left * right == -(left * size);
  }

  lemma ProductOfNegatives(left: int, right: int)
    requires left < 0 && right < 0
    ensures left < Quotient(INT64_MAX, right) <==> left * right > INT64_MAX
    ensures left * right > 0
  {
    var a: int, b: int := -left, -right;
    QuotientBounds(INT64_MAX, b, a);
    assert left * right == b * a;
  }

  /** The signed test is exact in every combination of signs. */
  lemma SignedProductOverflowsIff(left: int64, right: int64)
    ensures SignedProductOverflows(left, right) <==> !(INT64_MIN <= left * right <= INT64_MAX)
  {
    if left > 0 && right > 0 {
      PositiveProduct(left, right);
    } else if left > 0 && right < 0 {
      NegativeProduct(left, right);
    } else if left < 0 && right > 0 {
      NegativeProduct(right, left);
      assert left * right == right * left;
    } else if left < 0 && right < 0 {
      ProductOfNegatives(left, right);
    }
  }

  // ---------------------------------------------------------------- entities

  datatype Action = Place | Modify | Cancel

  datatype Intent = Intent(
    intentId: string,
    strategyId: string,
    strategyRunId: string,
    sessionId: string,
    createdAt: int64,
    expiresAt: int64,
    instrument: string,
    action: Action,
    target: Option<string>,
    side: Option<Side>,
    quantity: Option<uint64>,
    limitPrice: Option<uint64>,
    standardTerms: bool)  // product NRML, time in force DAY

  datatype Route = Route(instrument: string, token: string, lotSize: uint64, tickSize: uint64)

  datatype Observation = Observation(
    instrument: string,
    bestBid: Option<uint64>,
    bestAsk: Option<uint64>,
    lastTrade: Option<uint64>,
    volume: uint64,
    exchangeTime: Option<int64>,
    receiveTime: int64,
    fromDhan: bool,
    observed: bool,
    stale: bool,
    crossed: bool,
    unusable: bool)

  datatype WorkingOrder = WorkingOrder(
    orderId: string,
    instrument: string,
    token: string,
    side: Side,
    remaining: uint64,
    limitPrice: uint64,
    filled: uint64)

  datatype Health = Ready | Lost | Unknown

  datatype MappingState = Verified | Missing | Ambiguous

  datatype Idempotency = NewIntent | DuplicateIntent | ConflictingIntent | NeedsReconciliation

  datatype Greek = Greek(current: int64, perUnit: int64)

  datatype GreekSnapshot = GreekSnapshot(
    instrument: string, trusted: bool, timestamp: int64, delta: Greek, gamma: Greek, vega: Greek)

  datatype Pnl = Pnl(dailyLoss: uint64, drawdown: uint64, timestamp: int64)

  datatype Config = Config(
    maximumObservationAge: int64,
    maximumGreekAge: int64,
    maximumClockSkew: int64,
    maximumQuantity: uint64,
    maximumPosition: int64,
    maximumGross: uint64,
    maximumOutstanding: uint64,
    maximumOrdersPerWindow: uint64,
    window: int64,
    maximumDailyLoss: uint64,
    maximumDrawdown: uint64,
    deltaLimit: Option<int64>,
    gammaLimit: Option<int64>,
    vegaLimit: Option<int64>)

  /** The limits the engine's constructor insists on. */
  predicate ValidConfig(c: Config) {
    && c.maximumObservationAge >= 0 && c.maximumGreekAge >= 0 && c.maximumClockSkew >= 0
    && c.maximumQuantity > 0 && c.maximumPosition > 0 && c.maximumGross > 0 && c.maximumOutstanding > 0
    && c.maximumOrdersPerWindow > 0 && c.window > 0 && c.maximumDailyLoss > 0 && c.maximumDrawdown > 0
    && (c.deltaLimit.Some? ==> c.deltaLimit.value > 0) && (c.gammaLimit.Some? ==> c.gammaLimit.value > 0)
    && (c.vegaLimit.Some? ==> c.vegaLimit.value > 0)
  }

  datatype Snapshot = Snapshot(
    now: instant,
    killSwitch: bool,
    ready: bool,
    reconciliationRequired: bool,
    idempotency: Idempotency,
    correlated: bool,
    mapping: MappingState,
    route: Option<Route>,
    routeForToday: bool,
    mappingAge: int64,
    maximumMappingAge: int64,
    health: Health,
    observation: Option<Observation>,
    instrumentPosition: int64,
    tokenPosition: int64,
    tokenWorkingSell: uint64,
    currentGross: uint64,
    positionsAuthoritative: bool,
    marksAuthoritative: bool,
    workingOrders: seq<WorkingOrder>,
    recentOrderTimes: seq<int64>,
    greeks: Option<GreekSnapshot>,
    pnl: Option<Pnl>,
    targetKnown: bool,
    targetTerminal: bool,
    target: Option<WorkingOrder>)

  datatype Rule =
    | CancelCorrelation | CancelIdempotency | CancelTarget | CancelSession
    | Authority | IdempotencyRule | Correlation | Routing | Contract | ModifyTarget | Time | BrokerHealth
    | ObservationRule | Sizing | OutstandingOrders | OrderRate | PositionAuthority | PositionRule
    | SellAvailability | GrossPremium | DeltaRule | GammaRule | VegaRule | PnlAuthority | DailyLoss | Drawdown

  datatype RuleCheck = RuleCheck(rule: Rule, passed: bool, before: int64, projected: int64, limit: int64)

  /** The rules checked so far and the rule, if any, that rejected the intent. */
  datatype Audit = Audit(checks: seq<RuleCheck>, rejection: Option<Rule>)

  /** Checking stops at the first rule that fails, and that rule is the rejection. */
  ghost predicate FirstFailure(a: Audit) {
    && (forall i :: 0 <= i < |a.checks| - 1 ==> a.checks[i].passed)
    && (a.rejection.None? ==> forall i :: 0 <= i < |a.checks| ==> a.checks[i].passed)
    && (a.rejection.Some? ==>
          a.checks != [] && !a.checks[|a.checks| - 1].passed && a.checks[|a.checks| - 1].rule == a.rejection.value)
  }

  /** Checks one more rule, unless one has failed already. */
  function Checked(a: Audit, rule: Rule, passed: bool, before: int64, projected: int64, limit: int64): (r: Audit)
    ensures FirstFailure(a) ==> FirstFailure(r) && (Approved(r) <==> Approved(a) && passed)
  {
    if a.rejection.Some? then a
    else Audit(a.checks + [RuleCheck(rule, passed, before, projected, limit)], if passed then None else Some(rule))
  }

  predicate Approved(a: Audit) {
    a.rejection.None?
  }

  function Flag(b: bool): int64 {
    if b then 1 else 0
  }

  // ---------------------------------------------------------------- rules

  predicate IsTarget(intent: Intent, orderId: string) {
    intent.action.Modify? && intent.target == Some(orderId)
  }

  predicate RouteOk(intent: Intent, s: Snapshot) {
    && s.mapping.Verified? && s.route.Some? && s.routeForToday && s.route.value.instrument == intent.instrument
    && s.mappingAge >= 0 && s.maximumMappingAge > 0 && s.mappingAge <= s.maximumMappingAge
  }

  predicate ShapeOk(intent: Intent) {
    && intent.side.Some? && intent.quantity.Some? && intent.quantity.value > 0
    && intent.limitPrice.Some? && intent.limitPrice.value > 0 && intent.standardTerms
  }

  predicate ModifyTargetOk(intent: Intent, s: Snapshot) {
    && intent.target.Some? && s.targetKnown && !s.targetTerminal && s.target.Some?
    && s.target.value.instrument == intent.instrument && Some(s.target.value.side) == intent.side
    && intent.quantity.Some? && intent.quantity.value > s.target.value.filled
  }

  /** The latest creation time allowed, saturated. */
  function LatestCreated(c: Config, s: Snapshot): int {
    if c.maximumClockSkew <= INT64_MAX - s.now then s.now + c.maximumClockSkew else INT64_MAX
  }

  predicate TimeOk(c: Config, intent: Intent, s: Snapshot) {
    intent.expiresAt > intent.createdAt && s.now < intent.expiresAt && intent.createdAt <= LatestCreated(c, s)
  }

  function ObservationAge(s: Snapshot): int64 {
    if s.observation.Some? && 0 <= s.observation.value.receiveTime <= s.now
    then s.now - s.observation.value.receiveTime
    else INT64_MAX
  }

  predicate Unhealthy(o: Observation) {
    o.stale || o.crossed || o.unusable
  }

  predicate ObservationOk(c: Config, intent: Intent, s: Snapshot) {
    && s.observation.Some?
    && var o := s.observation.value;
       && o.instrument == intent.instrument && o.fromDhan && !Unhealthy(o)
       && ObservationAge(s) <= c.maximumObservationAge
       && (o.exchangeTime.Some? ==>
             && 0 <= o.exchangeTime.value <= o.receiveTime && o.exchangeTime.value <= s.now
             && s.now - o.exchangeTime.value <= c.maximumObservationAge)
  }

  /** The quantity that can still fill: what a modification asks beyond what its target has filled. */
  function ProjectedQuantity(intent: Intent, s: Snapshot): uint64 {
    var quantity := intent.quantity.GetOr(0);
    if intent.action.Modify? && s.target.Some? && quantity > s.target.value.filled
    then quantity - s.target.value.filled
    else quantity
  }

  predicate SizingOk(c: Config, intent: Intent, s: Snapshot) {
    && s.route.Some? && s.route.value.lotSize > 0 && s.route.value.tickSize > 0
    && var quantity, price := intent.quantity.GetOr(0), intent.limitPrice.GetOr(0);
       && quantity > 0 && quantity % s.route.value.lotSize == 0
       && price > 0 && price % s.route.value.tickSize == 0
       && quantity <= INT64_MAX && price <= INT64_MAX && quantity <= c.maximumQuantity
  }

  function Outstanding(intent: Intent, s: Snapshot): nat {
    if exists i :: 0 <= i < |s.workingOrders| && IsTarget(intent, s.workingOrders[i].orderId)
    then |s.workingOrders| - 1
    else |s.workingOrders|
  }

  function WindowStart(c: Config, now: int64): int {
    if now < INT64_MIN + c.window then INT64_MIN else now - c.window
  }

  function Recent(times: seq<int64>, start: int, now: int64): nat {
    if times == [] then 0
    else
      var last := times[|times| - 1];
      Recent(times[..|times| - 1], start, now) + (if start < last <= now then 1 else 0)
  }

  /** A running sum and whether some addition to it overflowed and was skipped. */
  datatype Running = Running(position: int64, overflowed: bool)

  function Add(r: Running, delta: int64): Running {
    match CheckedAdd(r.position, delta)
    case Some(sum) => Running(sum, r.overflowed)
    case None => r.(overflowed := true)
  }

  predicate Projects(intent: Intent, order: WorkingOrder) {
    order.instrument == intent.instrument && !IsTarget(intent, order.orderId)
  }

  function ProjectWorking(intent: Intent, orders: seq<WorkingOrder>, start: int64): Running {
    if orders == [] then Running(start, false)
    else
      var before, last := ProjectWorking(intent, orders[..|orders| - 1], start), orders[|orders| - 1];
      if Projects(intent, last) then Add(before, SignedDelta(last.side, Bounded(last.remaining))) else before
  }

  function NewDelta(intent: Intent, s: Snapshot): int64 {
    SignedDelta(intent.side.GetOr(Sell), Bounded(ProjectedQuantity(intent, s)))
  }

  function ProjectedPosition(intent: Intent, s: Snapshot): Running {
    Add(ProjectWorking(intent, s.workingOrders, s.instrumentPosition), NewDelta(intent, s))
  }

  /** Sell quantity already promised for the token, without the order being modified. */
  function ReservedSell(intent: Intent, s: Snapshot): uint64 {
    if intent.action.Modify? && s.target.Some? && s.target.value.side.Sell?
       && s.tokenWorkingSell >= s.target.value.remaining
    then s.tokenWorkingSell - s.target.value.remaining
    else s.tokenWorkingSell
  }

  function RequiredSell(intent: Intent, s: Snapshot): int64 {
    var reserved, sell := ReservedSell(intent, s), Bounded(ProjectedQuantity(intent, s));
    if reserved <= INT64_MAX && sell <= INT64_MAX - reserved then reserved + sell else INT64_MAX
  }

  predicate SellOk(intent: Intent, s: Snapshot) {
    intent.side != Some(Sell)
    || (ReservedSell(intent, s) <= INT64_MAX && s.tokenPosition >= RequiredSell(intent, s))
  }

  datatype Gross = Gross(total: uint64, overflowed: bool)

  function AddPremium(g: Gross, quantity: uint64, price: uint64): Gross {
    match CheckedMultiply(quantity, price)
    case None => g.(overflowed := true)
    case Some(premium) =>
      if g.total > UINT64_MAX - premium then g.(overflowed := true) else Gross(g.total + premium, g.overflowed)
  }

  function GrossWorking(intent: Intent, orders: seq<WorkingOrder>, start: uint64): Gross {
    if orders == [] then Gross(start, false)
    else
      var before, last := GrossWorking(intent, orders[..|orders| - 1], start), orders[|orders| - 1];
      if IsTarget(intent, last.orderId) then before else AddPremium(before, last.remaining, last.limitPrice)
  }

  /** The projected gross premium; only the last addition saturates without being refused. */
  function ProjectedGross(intent: Intent, s: Snapshot): Gross {
    var working := GrossWorking(intent, s.workingOrders, s.currentGross);
    match CheckedMultiply(ProjectedQuantity(intent, s), intent.limitPrice.GetOr(0))
    case None => Gross(UINT64_MAX, true)
    case Some(premium) =>
      if working.overflowed || working.total > UINT64_MAX - premium then Gross(UINT64_MAX, working.overflowed)
      else Gross(working.total + premium, false)
  }

  predicate GrossOk(c: Config, intent: Intent, s: Snapshot) {
    !ProjectedGross(intent, s).overflowed && ProjectedGross(intent, s).total <= c.maximumGross
  }

  predicate PositionOk(c: Config, intent: Intent, s: Snapshot) {
    var projected := ProjectedPosition(intent, s);
    !projected.overflowed && AbsoluteSaturated(projected.position) <= c.maximumPosition
  }

  function ProjectedGreek(intent: Intent, s: Snapshot, greek: Greek): Option<int64> {
    match SignedCheckedMultiply(greek.perUnit, NewDelta(intent, s))
    case None => None
    case Some(change) => CheckedAdd(greek.current, change)
  }

  predicate GreeksFresh(c: Config, intent: Intent, s: Snapshot) {
    && s.greeks.Some? && s.greeks.value.trusted && s.greeks.value.instrument == intent.instrument
    && 0 <= s.greeks.value.timestamp <= s.now && s.now - s.greeks.value.timestamp <= c.maximumGreekAge
  }

  predicate GreekOk(c: Config, intent: Intent, s: Snapshot, greek: Greek, limit: int64) {
    && GreeksFresh(c, intent, s) && ProjectedGreek(intent, s, greek).Some?
    && AbsoluteSaturated(ProjectedGreek(intent, s, greek).value) <= limit
  }

  function GreekCheck(a: Audit, c: Config, intent: Intent, s: Snapshot, rule: Rule, greek: Greek, limit: Option<int64>): Audit {
    if limit.None? || a.rejection.Some? then a
    else
      Checked(a, rule, GreekOk(c, intent, s, greek, limit.value), greek.current,
              ProjectedGreek(intent, s, greek).GetOr(0), limit.value)
  }

  predicate PnlOk(c: Config, s: Snapshot) {
    s.pnl.Some? && s.pnl.value.timestamp <= s.now && s.now - s.pnl.value.timestamp <= c.maximumObservationAge
  }

  function Loss(s: Snapshot): uint64 {
    if s.pnl.Some? then s.pnl.value.dailyLoss else UINT64_MAX
  }

  function DrawdownOf(s: Snapshot): uint64 {
    if s.pnl.Some? then s.pnl.value.drawdown else UINT64_MAX
  }

  // ---------------------------------------------------------------- the decision

  function EvaluateCancel(intent: Intent, s: Snapshot): Audit {
    var a := Audit([], None);
    var a := Checked(a, CancelCorrelation, s.correlated, 0, Flag(!s.correlated), 0);
    var a := Checked(a, CancelIdempotency, s.idempotency.NewIntent?, 0, 0, 0);
    var filled := Bounded(if s.target.Some? then s.target.value.filled else 0);
    var a := Checked(a, CancelTarget, s.targetKnown && !s.targetTerminal, filled, filled, 0);
    Checked(a, CancelSession, !s.health.Lost?, 0, 0, 0)
  }

  /** The rules of who may ask, where it routes and when. */
  function CheckAuthority(c: Config, intent: Intent, s: Snapshot): Audit {
    var a := Audit([], None);
    var a := Checked(a, Authority, !s.killSwitch && s.ready && !s.reconciliationRequired,
                     Flag(s.killSwitch), Flag(!s.ready), 0);
    var a := Checked(a, IdempotencyRule, s.idempotency.NewIntent?, 0, 0, 0);
    var a := Checked(a, Correlation, s.correlated, 0, Flag(!s.correlated), 0);
    var a := Checked(a, Routing, RouteOk(intent, s), s.mappingAge, s.mappingAge, s.maximumMappingAge);
    var a := Checked(a, Contract, ShapeOk(intent), 0, Flag(!ShapeOk(intent)), 0);
    if intent.action.Modify?
    then Checked(a, ModifyTarget, ModifyTargetOk(intent, s), 0, Flag(!ModifyTargetOk(intent, s)), 0)
    else a
  }

  /** The rules of time, market and size. */
  function CheckMarket(c: Config, intent: Intent, s: Snapshot, a: Audit): Audit {
    var a := Checked(a, Time, TimeOk(c, intent, s), intent.createdAt, s.now, intent.expiresAt);
    var a := Checked(a, BrokerHealth, s.health.Ready?, 0, 0, 0);
    var age := ObservationAge(s);
    var a := Checked(a, ObservationRule, ObservationOk(c, intent, s), age, age, c.maximumObservationAge);
    var quantity := Bounded(intent.quantity.GetOr(0));
    Checked(a, Sizing, SizingOk(c, intent, s), quantity, quantity, Bounded(c.maximumQuantity))
  }

  /** The rules of exposure. Counts of orders are bounded like every other quantity. */
  function CheckExposure(c: Config, intent: Intent, s: Snapshot, a: Audit): Audit {
    var outstanding, recent := Outstanding(intent, s), Recent(s.recentOrderTimes, WindowStart(c, s.now), s.now);
    var a := Checked(a, OutstandingOrders, outstanding < c.maximumOutstanding, Min(outstanding, INT64_MAX),
                     Min(outstanding + 1, INT64_MAX), Bounded(c.maximumOutstanding));
    var a := Checked(a, OrderRate, recent < c.maximumOrdersPerWindow, Min(recent, INT64_MAX),
                     Min(recent + 1, INT64_MAX), Bounded(c.maximumOrdersPerWindow));
    var authority := s.positionsAuthoritative && s.marksAuthoritative;
    var a := Checked(a, PositionAuthority, authority, 0, Flag(!authority), 0);
    var a := Checked(a, PositionRule, PositionOk(c, intent, s), s.instrumentPosition,
                     ProjectedPosition(intent, s).position, c.maximumPosition);
    var sell := Bounded(ProjectedQuantity(intent, s));
    var a := Checked(a, SellAvailability, SellOk(intent, s), s.tokenPosition,
                     Max(INT64_MIN, s.tokenPosition - sell), 0);
    var gross := ProjectedGross(intent, s).total;
    Checked(a, GrossPremium, GrossOk(c, intent, s),
            Bounded(GrossWorking(intent, s.workingOrders, s.currentGross).total), Bounded(gross),
            Bounded(c.maximumGross))
  }

  /** The rules of greeks, loss and drawdown. */
  function CheckEvidence(c: Config, intent: Intent, s: Snapshot, a: Audit): Audit {
    var none := Greek(0, 0);
    var a := GreekCheck(a, c, intent, s, DeltaRule, if s.greeks.Some? then s.greeks.value.delta else none, c.deltaLimit);
    var a := GreekCheck(a, c, intent, s, GammaRule, if s.greeks.Some? then s.greeks.value.gamma else none, c.gammaLimit);
    var a := GreekCheck(a, c, intent, s, VegaRule, if s.greeks.Some? then s.greeks.value.vega else none, c.vegaLimit);
    var a := Checked(a, PnlAuthority, PnlOk(c, s), 0, Flag(!PnlOk(c, s)), 0);
    var a := Checked(a, DailyLoss, Loss(s) <= c.maximumDailyLoss, Bounded(Loss(s)), Bounded(Loss(s)),
                     Bounded(c.maximumDailyLoss));
    Checked(a, Drawdown, DrawdownOf(s) <= c.maximumDrawdown, Bounded(DrawdownOf(s)), Bounded(DrawdownOf(s)),
            Bounded(c.maximumDrawdown))
  }

  function Evaluate(c: Config, intent: Intent, s: Snapshot): Audit {
    if intent.action.Cancel? then EvaluateCancel(intent, s)
    else CheckEvidence(c, intent, s, CheckExposure(c, intent, s, CheckMarket(c, intent, s, CheckAuthority(c, intent, s))))
  }

  // ---------------------------------------------------------------- the program

  method Evaluated(c: Config, intent: Intent, s: Snapshot) returns (a: Audit)
    ensures a == Evaluate(c, intent, s)
  {
    hide Checked, GreekCheck;
    if intent.action.Cancel? {
      a := EvaluateCancel(intent, s);
      return;
    }
    a := CheckAuthority(c, intent, s);
    a := CheckMarket(c, intent, s, a);
    a := ExposureChecked(c, intent, s, a);
    a := CheckEvidence(c, intent, s, a);
  }

  /** The exposure rules, with the loops over working orders and recent order times. */
  method ExposureChecked(c: Config, intent: Intent, s: Snapshot, before: Audit) returns (a: Audit)
    ensures a == CheckExposure(c, intent, s, before)
  {
    hide Checked, ProjectWorking, GrossWorking, Recent, FirstFailure, Approved, SellOk, NewDelta, CheckedMultiply, ProductOverflows,
         ProjectedQuantity, WindowStart, Add;
    var outstanding: nat := |s.workingOrders|;
    var amongThem := false;
    for i := 0 to |s.workingOrders|
      invariant amongThem <==> exists k :: 0 <= k < i && IsTarget(intent, s.workingOrders[k].orderId)
    {
      if IsTarget(intent, s.workingOrders[i].orderId) {
        amongThem := true;
      }
    }
    if amongThem {
      outstanding := outstanding - 1;
    }
    a := Checked(before, OutstandingOrders, outstanding < c.maximumOutstanding, Min(outstanding, INT64_MAX),
                 Min(outstanding + 1, INT64_MAX), Bounded(c.maximumOutstanding));
    var recent := CountRecent(s.recentOrderTimes, WindowStart(c, s.now), s.now);
    a := Checked(a, OrderRate, recent < c.maximumOrdersPerWindow, Min(recent, INT64_MAX),
                 Min(recent + 1, INT64_MAX), Bounded(c.maximumOrdersPerWindow));
    var authority := s.positionsAuthoritative && s.marksAuthoritative;
    a := Checked(a, PositionAuthority, authority, 0, Flag(!authority), 0);
    var projected := SumWorking(intent, s.workingOrders, s.instrumentPosition);
    projected := Add(projected, NewDelta(intent, s));
    a := Checked(a, PositionRule,
                 !projected.overflowed && AbsoluteSaturated(projected.position) <= c.maximumPosition,
                 s.instrumentPosition, projected.position, c.maximumPosition);
    var sell := Bounded(ProjectedQuantity(intent, s));
    a := Checked(a, SellAvailability, SellOk(intent, s), s.tokenPosition, Max(INT64_MIN, s.tokenPosition - sell), 0);
    var working := SumGross(intent, s.workingOrders, s.currentGross);
    var premium := CheckedMultiply(ProjectedQuantity(intent, s), intent.limitPrice.GetOr(0));
    var overflowed := working.overflowed || premium.None?;
    var gross: uint64 := if overflowed || working.total > UINT64_MAX - premium.value then UINT64_MAX
                         else working.total + premium.value;
    a := Checked(a, GrossPremium, !overflowed && gross <= c.maximumGross, Bounded(working.total), Bounded(gross),
                 Bounded(c.maximumGross));
  }

  method CountRecent(times: seq<int64>, start: int, now: int64) returns (count: nat)
    ensures count == Recent(times, start, now)
  {
    count := 0;
    for i := 0 to |times|
      invariant count == Recent(times[..i], start, now)
    {
      assert times[..i + 1][..i] == times[..i];
      if start < times[i] <= now {
        count := count + 1;
      }
    }
    assert times[..|times|] == times;
  }

  method SumWorking(intent: Intent, orders: seq<WorkingOrder>, start: int64) returns (r: Running)
    ensures r == ProjectWorking(intent, orders, start)
  {
    r := Running(start, false);
    for i := 0 to |orders|
      invariant r == ProjectWorking(intent, orders[..i], start)
    {
      assert orders[..i + 1][..i] == orders[..i];
      if orders[i].instrument == intent.instrument && !IsTarget(intent, orders[i].orderId) {
        var quantity := Bounded(orders[i].remaining);
        r := Add(r, if orders[i].side.Buy? then quantity else -quantity);
      }
    }
    assert orders[..|orders|] == orders;
  }

  method SumGross(intent: Intent, orders: seq<WorkingOrder>, start: uint64) returns (g: Gross)
    ensures g == GrossWorking(intent, orders, start)
  {
    g := Gross(start, false);
    for i := 0 to |orders|
      invariant g == GrossWorking(intent, orders[..i], start)
    {
      assert orders[..i + 1][..i] == orders[..i];
      if !IsTarget(intent, orders[i].orderId) {
        g := AddPremium(g, orders[i].remaining, orders[i].limitPrice);
      }
    }
    assert orders[..|orders|] == orders;
  }

  // ---------------------------------------------------------------- exact sums

  /** The signed quantity that the intent's instrument would move by if every other working order filled. */
  function ExactWorking(intent: Intent, orders: seq<WorkingOrder>): int {
    if orders == [] then 0
    else
      var last := orders[|orders| - 1];
      ExactWorking(intent, orders[..|orders| - 1])
      + (if Projects(intent, last) then SignedDelta(last.side, last.remaining) else 0)
  }

  function ExactGross(intent: Intent, orders: seq<WorkingOrder>): nat {
    if orders == [] then 0
    else
      var last := orders[|orders| - 1];
      ExactGross(intent, orders[..|orders| - 1])
      + (if IsTarget(intent, last.orderId) then 0 else last.remaining * last.limitPrice)
  }

  /** Every partial sum of the working orders is a machine integer. */
  ghost predicate PartialSumsFit(intent: Intent, orders: seq<WorkingOrder>, start: int64) {
    forall k :: 0 <= k <= |orders| ==> INT64_MIN <= start + ExactWorking(intent, orders[..k]) <= INT64_MAX
  }

  predicate SmallRemainders(orders: seq<WorkingOrder>) {
    forall i :: 0 <= i < |orders| ==> orders[i].remaining <= INT64_MAX
  }

  /** The running position flags an overflow exactly when some partial sum leaves the machine's range,
      and is otherwise the exact sum. */
  lemma {:induction false} WorkingSumIsExact(intent: Intent, orders: seq<WorkingOrder>, start: int64)
    requires SmallRemainders(orders)
    ensures var r := ProjectWorking(intent, orders, start);
            && (!r.overflowed <==> PartialSumsFit(intent, orders, start))
            && (!r.overflowed ==> r.position == start + ExactWorking(intent, orders))
  {
    if orders == [] {
      assert forall k :: 0 <= k <= |orders| ==> orders[..k] == [];
    } else {
      var n := |orders| - 1;
      WorkingSumIsExact(intent, orders[..n], start);
      assert forall k :: 0 <= k <= n ==> orders[..n][..k] == orders[..k];
      assert orders[..n + 1] == orders;
      assert PartialSumsFit(intent, orders, start) <==>
             PartialSumsFit(intent, orders[..n], start)
             && INT64_MIN <= start + ExactWorking(intent, orders) <= INT64_MAX;
    }
  }

  /** Main result: the position rule passes exactly when no partial sum leaves the machine's range and the
      exact net position, were every order filled, is within the limit. */
  lemma {:induction false} PositionRuleIsExact(c: Config, intent: Intent, s: Snapshot)
    requires SmallRemainders(s.workingOrders) && ProjectedQuantity(intent, s) <= INT64_MAX
    requires c.maximumPosition < INT64_MAX
    ensures var exact := s.instrumentPosition + ExactWorking(intent, s.workingOrders)
                         + SignedDelta(intent.side.GetOr(Sell), ProjectedQuantity(intent, s));
            PositionOk(c, intent, s) <==>
            PartialSumsFit(intent, s.workingOrders, s.instrumentPosition)
            && exact <= c.maximumPosition && -exact <= c.maximumPosition
  {
    hide PartialSumsFit, ProjectWorking, ExactWorking;
    WorkingSumIsExact(intent, s.workingOrders, s.instrumentPosition);
  }

  lemma {:induction false} WorkingGrossIsExact(intent: Intent, orders: seq<WorkingOrder>, start: uint64)
    ensures var g := GrossWorking(intent, orders, start);
            && (!g.overflowed <==> start + ExactGross(intent, orders) <= UINT64_MAX)
            && (!g.overflowed ==> g.total == start + ExactGross(intent, orders))
  {
    if orders != [] {
      var n := |orders| - 1;
      var last := orders[n];
      WorkingGrossIsExact(intent, orders[..n], start);
      ProductOverflowsIff(last.remaining, last.limitPrice);
      hide ProductOverflows;
    }
  }

  /** Main result: the gross premium rule passes exactly when the exact sum of current, working and new
      premium is within the limit; at the largest limit the last addition also passes when it saturates. */
  lemma {:induction false} GrossRuleIsExact(c: Config, intent: Intent, s: Snapshot)
    ensures var working := s.currentGross + ExactGross(intent, s.workingOrders);
            var premium := ProjectedQuantity(intent, s) * intent.limitPrice.GetOr(0);
            GrossOk(c, intent, s) <==>
            || working + premium <= c.maximumGross
            || (c.maximumGross == UINT64_MAX && working <= UINT64_MAX && premium <= UINT64_MAX)
  {
    hide GrossWorking, ExactGross, ProductOverflows;
    WorkingGrossIsExact(intent, s.workingOrders, s.currentGross);
    ProductOverflowsIff(ProjectedQuantity(intent, s), intent.limitPrice.GetOr(0));
  }

  /** The sell rule passes exactly when the token's position covers what is promised and what is asked; a
      position at the top of the range passes whatever is asked. */
  lemma SellRuleIsExact(intent: Intent, s: Snapshot)
    requires ProjectedQuantity(intent, s) <= INT64_MAX && intent.side == Some(Sell)
    ensures SellOk(intent, s) <==>
            || ReservedSell(intent, s) + ProjectedQuantity(intent, s) <= s.tokenPosition
            || (s.tokenPosition == INT64_MAX && ReservedSell(intent, s) <= INT64_MAX)
  {
  }

  /** The creation time rule is exact although the latest allowed time saturates. */
  lemma TimeRuleIsExact(c: Config, intent: Intent, s: Snapshot)
    requires c.maximumClockSkew >= 0
    ensures TimeOk(c, intent, s) <==>
            intent.createdAt < intent.expiresAt && s.now < intent.expiresAt
            && intent.createdAt <= s.now + c.maximumClockSkew
  {
  }

  /** The times the rate rule counts: those in the window that ends now. */
  lemma {:induction false} RecentCounts(times: seq<int64>, start: int, now: int64)
    ensures Recent(times, start, now) == |set i | 0 <= i < |times| && start < times[i] <= now|
  {
    var here := set i | 0 <= i < |times| && start < times[i] <= now;
    if times == [] {
      assert here == {};
    } else {
      var n := |times| - 1;
      RecentCounts(times[..n], start, now);
      var before := set i | 0 <= i < n && start < times[..n][i] <= now;
      assert here == before + if start < times[n] <= now then {n} else {};
    }
  }

  /** A greek rule passes exactly when the snapshot is fresh, no step overflows, and the exact projection is
      within the limit. */
  lemma GreekRuleIsExact(c: Config, intent: Intent, s: Snapshot, greek: Greek, limit: int64)
    requires ProjectedQuantity(intent, s) <= INT64_MAX && limit < INT64_MAX
    ensures var change := greek.perUnit * SignedDelta(intent.side.GetOr(Sell), ProjectedQuantity(intent, s));
            var projected := greek.current + change;
            GreekOk(c, intent, s, greek, limit) <==>
            && GreeksFresh(c, intent, s) && INT64_MIN <= change <= INT64_MAX
            && projected <= limit && -projected <= limit
  {
    hide SignedProductOverflows, GreeksFresh;
    SignedProductOverflowsIff(greek.perUnit, NewDelta(intent, s));
  }

  // ---------------------------------------------------------------- approval

  predicate AuthorityOk(intent: Intent, s: Snapshot) {
    && !s.killSwitch && s.ready && !s.reconciliationRequired && s.idempotency.NewIntent? && s.correlated
    && RouteOk(intent, s) && ShapeOk(intent) && (intent.action.Modify? ==> ModifyTargetOk(intent, s))
  }

  predicate MarketOk(c: Config, intent: Intent, s: Snapshot) {
    TimeOk(c, intent, s) && s.health.Ready? && ObservationOk(c, intent, s) && SizingOk(c, intent, s)
  }

  predicate ExposureOk(c: Config, intent: Intent, s: Snapshot) {
    && Outstanding(intent, s) < c.maximumOutstanding
    && Recent(s.recentOrderTimes, WindowStart(c, s.now), s.now) < c.maximumOrdersPerWindow
    && s.positionsAuthoritative && s.marksAuthoritative
    && PositionOk(c, intent, s) && SellOk(intent, s) && GrossOk(c, intent, s)
  }

  predicate GreekLimitOk(c: Config, intent: Intent, s: Snapshot, greek: Greek, limit: Option<int64>) {
    limit.Some? ==> GreekOk(c, intent, s, greek, limit.value)
  }

  predicate EvidenceOk(c: Config, intent: Intent, s: Snapshot) {
    var none := Greek(0, 0);
    && GreekLimitOk(c, intent, s, if s.greeks.Some? then s.greeks.value.delta else none, c.deltaLimit)
    && GreekLimitOk(c, intent, s, if s.greeks.Some? then s.greeks.value.gamma else none, c.gammaLimit)
    && GreekLimitOk(c, intent, s, if s.greeks.Some? then s.greeks.value.vega else none, c.vegaLimit)
    && PnlOk(c, s) && Loss(s) <= c.maximumDailyLoss && DrawdownOf(s) <= c.maximumDrawdown
  }

  lemma AuthorityStage(c: Config, intent: Intent, s: Snapshot)
    ensures var a := CheckAuthority(c, intent, s);
            FirstFailure(a) && (Approved(a) <==> AuthorityOk(intent, s))
  {
    hide Checked, FirstFailure, Approved, RouteOk, ShapeOk, ModifyTargetOk;
    assert FirstFailure(Audit([], None)) && Approved(Audit([], None)) by { NothingFailed(); }
  }

  lemma CancelStage(intent: Intent, s: Snapshot)
    ensures var a := EvaluateCancel(intent, s);
            FirstFailure(a) && (Approved(a) <==> CancelOk(s))
  {
    hide Checked, FirstFailure, Approved;
    assert FirstFailure(Audit([], None)) && Approved(Audit([], None)) by { NothingFailed(); }
  }

  lemma NothingFailed()
    ensures FirstFailure(Audit([], None)) && Approved(Audit([], None))
  {
  }

  lemma MarketStage(c: Config, intent: Intent, s: Snapshot, a: Audit)
    requires FirstFailure(a)
    ensures var r := CheckMarket(c, intent, s, a);
            FirstFailure(r) && (Approved(r) <==> Approved(a) && MarketOk(c, intent, s))
  {
    hide Checked, FirstFailure, Approved, TimeOk, ObservationOk, SizingOk;
  }

  lemma ExposureStage(c: Config, intent: Intent, s: Snapshot, a: Audit)
    requires FirstFailure(a)
    ensures var r := CheckExposure(c, intent, s, a);
            FirstFailure(r) && (Approved(r) <==> Approved(a) && ExposureOk(c, intent, s))
  {
    hide Checked, FirstFailure, Approved, Outstanding, Recent, PositionOk, SellOk, GrossOk, ProjectedPosition,
         ProjectedGross, GrossWorking;
  }

  lemma GreekStage(c: Config, intent: Intent, s: Snapshot, a: Audit, rule: Rule, greek: Greek, limit: Option<int64>)
    requires FirstFailure(a)
    ensures var r := GreekCheck(a, c, intent, s, rule, greek, limit);
            FirstFailure(r) && (Approved(r) <==> Approved(a) && GreekLimitOk(c, intent, s, greek, limit))
  {
    hide Checked, FirstFailure, GreekOk, ProjectedGreek;
  }

  lemma EvidenceStage(c: Config, intent: Intent, s: Snapshot, a: Audit)
    requires FirstFailure(a)
    ensures var r := CheckEvidence(c, intent, s, a);
            FirstFailure(r) && (Approved(r) <==> Approved(a) && EvidenceOk(c, intent, s))
  {
    hide Checked, FirstFailure, Approved, GreekCheck, GreekLimitOk, PnlOk;
    var none := Greek(0, 0);
    var delta := if s.greeks.Some? then s.greeks.value.delta else none;
    var gamma := if s.greeks.Some? then s.greeks.value.gamma else none;
    var vega := if s.greeks.Some? then s.greeks.value.vega else none;
    GreekStage(c, intent, s, a, DeltaRule, delta, c.deltaLimit);
    var a1 := GreekCheck(a, c, intent, s, DeltaRule, delta, c.deltaLimit);
    GreekStage(c, intent, s, a1, GammaRule, gamma, c.gammaLimit);
    var a2 := GreekCheck(a1, c, intent, s, GammaRule, gamma, c.gammaLimit);
    GreekStage(c, intent, s, a2, VegaRule, vega, c.vegaLimit);
  }

  predicate CancelOk(s: Snapshot) {
    s.correlated && s.idempotency.NewIntent? && s.targetKnown && !s.targetTerminal && !s.health.Lost?
  }

  /** An intent is approved exactly when every rule passes; a refusal names the first rule that failed, and
      no later rule is recorded. */
  lemma ApprovedIff(c: Config, intent: Intent, s: Snapshot)
    ensures FirstFailure(Evaluate(c, intent, s))
    ensures intent.action.Cancel? ==> (Approved(Evaluate(c, intent, s)) <==> CancelOk(s))
    ensures !intent.action.Cancel? ==>
              (Approved(Evaluate(c, intent, s)) <==>
               && AuthorityOk(intent, s) && MarketOk(c, intent, s) && ExposureOk(c, intent, s)
               && EvidenceOk(c, intent, s))
  {
    hide CheckAuthority, CheckMarket, CheckExposure, CheckEvidence, EvaluateCancel, AuthorityOk, MarketOk,
         ExposureOk, EvidenceOk, CancelOk, FirstFailure, Approved;
    CancelStage(intent, s);
    AuthorityStage(c, intent, s);
    var a := CheckAuthority(c, intent, s);
    MarketStage(c, intent, s, a);
    var m := CheckMarket(c, intent, s, a);
    ExposureStage(c, intent, s, m);
    EvidenceStage(c, intent, s, CheckExposure(c, intent, s, m));
  }

  /** The rules of a cancellation never look at its instrument, even to compare it with the target's. */
  lemma CancelIgnoresInstrument(c: Config, intent: Intent, other: string, s: Snapshot)
    requires intent.action.Cancel?
    ensures Evaluate(c, intent.(instrument := other), s) == Evaluate(c, intent, s)
  {
  }
}
