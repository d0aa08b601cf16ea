/**
 The paper broker: orders, fills, positions, cash and peak equity, as functions on its state and as the
 class that updates it in place; and the exactness of its profit and loss.

 `std::map` is a sequence sorted by key. The 64-bit correlation counter does not wrap here.
*/
module PaperBroker {
  import opened Base
  import opened Risk
  import OrderStateMachine

  type Side = OrderStateMachine.Side

  /** `Unreported` is any state name of the order machine that no broker reports. */
  datatype Status = Working | PartiallyFilled | Filled | Cancelled | Rejected | Undecided | Unreported

  datatype OrderSnapshot = OrderSnapshot(
    orderId: string, instrument: string, token: string, side: Side,
    quantity: uint64, limitPrice: uint64, filled: uint64, status: Status)

  datatype Request = Request(
    orderId: string, intentId: string, route: Route, side: Side,
    quantity: uint64, limitPrice: uint64, submittedAt: int64, baseline: uint64)

  datatype PaperOrder = PaperOrder(
    request: Request, snapshot: OrderSnapshot, observedVolume: uint64, volumeReset: bool, awaitingBaseline: bool)

  datatype Fill = Fill(
    fillId: string, orderId: string, instrument: string, token: string,
    cumulative: uint64, last: uint64, price: uint64, timestamp: int64)

  datatype Position = Position(instrument: string, quantity: int64)

  datatype Mark = Mark(bid: Option<uint64>, ask: Option<uint64>, lastTrade: Option<uint64>, timestamp: int64)

  datatype ErrorCode =
    | SessionUnavailable | PlaceRejected | ModifyRejected | UnknownTarget | TerminalTarget | OtherError

  datatype Verdict = Acknowledged | Refused | Unclear

  /** The broker's answer to a request. */
  datatype Mutation = Mutation(
    verdict: Verdict, orderId: string, correlation: Option<string>, error: Option<ErrorCode>,
    terminal: bool, acceptedQuantity: Option<uint64>, acceptedPrice: Option<uint64>)

  /** The peak starts at zero and never falls. */
  type peak64 = x: int | 0 <= x <= INT64_MAX

  datatype Paper = Paper(
    scripted: bool, health: Health, sequence: nat, orders: seq<PaperOrder>, fills: seq<Fill>,
    positions: seq<Position>, scriptUpdates: seq<string>, marks: map<string, Mark>,
    cash: int64, peak: peak64, latest: int64, pnlValid: bool)

  function EmptyPaper(scripted: bool): Paper {
    Paper(scripted, Ready, 0, [], [], [], [], map[], 0, 0, 0, true)
  }

  predicate Ended(status: Status) {
    status.Filled? || status.Cancelled? || status.Rejected?
  }

  // ---------------------------------------------------------------- correlation ids

  function Digits(n: nat): string {
    (if n < 10 then "" else Digits(n / 10)) + ['0' + (n % 10) as char]
  }

  function Zeros(n: int): string
    decreases n
  {
    if n <= 0 then "" else ['0'] + Zeros(n - 1)
  }

  /** The decimal number a text of digits denotes. */
  function DigitsValue(s: string): int {
    if s == "" then 0 else DigitsValue(s[..|s| - 1]) * 10 + (s[|s| - 1] as int - '0' as int)
  }

  function PaperId(n: nat): string {
    "paper-" + (Zeros(8 - |Digits(n)|) + Digits(n))
  }

  lemma {:induction false} DigitsDenote(zeros: int, n: nat)
    ensures DigitsValue(Zeros(zeros) + Digits(n)) == n
    decreases n
  {
    var s := Zeros(zeros) + Digits(n);
    assert s[|s| - 1] == '0' + (n % 10) as char;
    if n < 10 {
      assert s[..|s| - 1] == Zeros(zeros);
      ZerosDenoteNothing(zeros);
    } else {
      assert s[..|s| - 1] == Zeros(zeros) + Digits(n / 10);
      DigitsDenote(zeros, n / 10);
    }
  }

  lemma {:induction false} ZerosDenoteNothing(zeros: int)
    ensures DigitsValue(Zeros(zeros)) == 0
  {
    if zeros > 0 {
      ZerosDenoteNothing(zeros - 1);
      ZerosCommute(zeros - 1);
      assert Zeros(zeros)[..|Zeros(zeros)| - 1] == Zeros(zeros - 1);
    }
  }

  lemma {:induction false} ZerosCommute(zeros: int)
    requires zeros >= 0
    ensures ['0'] + Zeros(zeros) == Zeros(zeros) + ['0']
  {
    if zeros > 0 {
      ZerosCommute(zeros - 1);
    }
  }

  lemma PrefixCancels(prefix: string, a: string, b: string)
    requires prefix + a == prefix + b
    ensures a == b
  {
    assert a == (prefix + a)[|prefix|..] && b == (prefix + b)[|prefix|..];
  }

  /** Two correlation ids are equal only when their numbers are. */
  lemma PaperIdIsInjective(m: nat, n: nat)
    requires PaperId(m) == PaperId(n)
    ensures m == n
  {
    hide Zeros, Digits;
    PrefixCancels("paper-", Zeros(8 - |Digits(m)|) + Digits(m), Zeros(8 - |Digits(n)|) + Digits(n));
    DigitsDenote(8 - |Digits(m)|, m);
    DigitsDenote(8 - |Digits(n)|, n);
  }

  // ---------------------------------------------------------------- sorted maps

  predicate Before(a: string, b: string) {
    if a == "" then b != ""
    else if b == "" then false
    else if a[0] != b[0] then a[0] < b[0]
    else Before(a[1..], b[1..])
  }

  function FindOrder(orders: seq<PaperOrder>, id: string): Option<nat> {
    if orders == [] then None
    else if orders[0].snapshot.orderId == id then Some(0)
    else
      match FindOrder(orders[1..], id)
      case Some(i) => Some(i + 1)
      case None => None
  }

  function InsertOrder(orders: seq<PaperOrder>, order: PaperOrder): seq<PaperOrder> {
    if orders == [] || Before(order.snapshot.orderId, orders[0].snapshot.orderId) then [order] + orders
    else [orders[0]] + InsertOrder(orders[1..], order)
  }

  function FindPosition(positions: seq<Position>, instrument: string): Option<nat> {
    if positions == [] then None
    else if positions[0].instrument == instrument then Some(0)
    else
      match FindPosition(positions[1..], instrument)
      case Some(i) => Some(i + 1)
      case None => None
  }

  function InsertPosition(positions: seq<Position>, position: Position): seq<Position> {
    if positions == [] || Before(position.instrument, positions[0].instrument) then [position] + positions
    else [positions[0]] + InsertPosition(positions[1..], position)
  }

  /** A missing position is zero. */
  function Quantity(positions: seq<Position>, instrument: string): int64 {
    match FindPosition(positions, instrument)
    case Some(i) => if i < |positions| then positions[i].quantity else 0
    case None => 0
  }

  /** The positions with the one of `instrument` set, created where it is missing. */
  function SetQuantity(positions: seq<Position>, instrument: string, quantity: int64): seq<Position> {
    match FindPosition(positions, instrument)
    case Some(i) => if i < |positions| then positions[i := Position(instrument, quantity)] else positions
    case None => InsertPosition(positions, Position(instrument, quantity))
  }

  // ---------------------------------------------------------------- requests

  function Error(p: Paper, verdict: Verdict, id: string, code: ErrorCode): (Paper, Mutation) {
    (p.(sequence := p.sequence + 1), Mutation(verdict, id, None, Some(code), false, None, None))
  }

  function PlaceOrder(p: Paper, r: Request): (Paper, Mutation) {
    if !p.health.Ready? then Error(p, Unclear, r.orderId, SessionUnavailable)
    else if r.orderId == "" || r.quantity == 0 || r.quantity > INT64_MAX || r.limitPrice == 0
            || r.route.instrument == "" || FindOrder(p.orders, r.orderId).Some? then
      Error(p, Refused, r.orderId, PlaceRejected)
    else
      var snapshot := OrderSnapshot(r.orderId, r.route.instrument, r.route.token, r.side, r.quantity,
                                    r.limitPrice, 0, Working);
      (p.(sequence := p.sequence + 1,
          orders := InsertOrder(p.orders, PaperOrder(r, snapshot, r.baseline, false, false))),
       Mutation(Acknowledged, r.orderId, Some(PaperId(p.sequence + 1)), None, false, None, None))
  }

  function ModifyOrder(p: Paper, id: string, quantity: uint64, limitPrice: uint64): (Paper, Mutation) {
    if !p.health.Ready? then Error(p, Unclear, id, SessionUnavailable)
    else
      var found := FindOrder(p.orders, id);
      if found.None? || found.value >= |p.orders| || Ended(p.orders[found.value].snapshot.status)
         || quantity < p.orders[found.value].snapshot.filled || quantity == 0 || quantity > INT64_MAX
         || limitPrice == 0 then
        Error(p, Refused, id, ModifyRejected)
      else
        var order := p.orders[found.value];
        var next := order.(request := order.request.(quantity := quantity, limitPrice := limitPrice),
                           snapshot := order.snapshot.(quantity := quantity, limitPrice := limitPrice));
        (p.(sequence := p.sequence + 1, orders := p.orders[found.value := next]),
         Mutation(Acknowledged, id, Some(PaperId(p.sequence + 1)), None, false, Some(quantity), Some(limitPrice)))
  }

  function CancelOrder(p: Paper, id: string): (Paper, Mutation) {
    if !p.health.Ready? then Error(p, Unclear, id, SessionUnavailable)
    else
      var found := FindOrder(p.orders, id);
      if found.None? || found.value >= |p.orders| then Error(p, Refused, id, UnknownTarget)
      else
        var order := p.orders[found.value];
        if order.snapshot.status.Cancelled? then
          (p.(sequence := p.sequence + 1),
           Mutation(Acknowledged, id, Some(PaperId(p.sequence + 1)), None, true, None, None))
        else if Ended(order.snapshot.status) then Error(p, Refused, id, TerminalTarget)
        else
          var next := order.(snapshot := order.snapshot.(status := Cancelled));
          (p.(sequence := p.sequence + 1, orders := p.orders[found.value := next]),
           Mutation(Acknowledged, id, Some(PaperId(p.sequence + 1)), None, true, None, None))
  }

  // ---------------------------------------------------------------- equity

  /** The notional as a machine integer, or nothing when it does not fit. */
  function Notional(quantity: uint64, price: uint64): (r: Option<int64>)
    ensures r == if quantity * price <= INT64_MAX && quantity <= INT64_MAX then Some(quantity * price) else None
  {
    if quantity > INT64_MAX || (quantity != 0 && price > INT64_MAX / quantity) then
      NotionalIsExact(quantity, price);
      None
    else
      NotionalIsExact(quantity, price);
      Some(quantity * price)
  }

  lemma NotionalIsExact(quantity: uint64, price: uint64)
    ensures quantity != 0 ==> (price > INT64_MAX / quantity <==> quantity * price > INT64_MAX)
  {
    if quantity != 0 {
      QuotientBounds(INT64_MAX, quantity, price);
    }
  }

  function Price(mark: Mark, quantity: int64): uint64 {
    var lastTrade := mark.lastTrade.GetOr(0);
    if quantity > 0 then mark.bid.GetOr(lastTrade) else mark.ask.GetOr(lastTrade)
  }

  function Absolute(quantity: int64): uint64 {
    if quantity == INT64_MIN then UINT64_MAX else if quantity < 0 then -quantity else quantity
  }

  /** `equity` plus the marked value of the positions, when every one has a price and no sum overflows. */
  function AddValues(positions: seq<Position>, marks: map<string, Mark>, equity: int64): Option<int64>
    decreases |positions|
  {
    if positions == [] then Some(equity)
    else
      var quantity, instrument := positions[0].quantity, positions[0].instrument;
      if quantity == 0 then AddValues(positions[1..], marks, equity)
      else if instrument !in marks || Price(marks[instrument], quantity) == 0 then None
      else
        match Notional(Absolute(quantity), Price(marks[instrument], quantity))
        case None => None
        case Some(notional) =>
          match CheckedAdd(equity, if quantity > 0 then notional else -notional)
          case None => None
          case Some(sum) => AddValues(positions[1..], marks, sum)
  }

  function Equity(p: Paper): Option<int64> {
    if p.pnlValid then AddValues(p.positions, p.marks, p.cash) else None
  }

  function UpdatePeak(p: Paper): Paper {
    match Equity(p)
    case Some(equity) => p.(peak := Max(p.peak, equity))
    case None => p
  }

  // ---------------------------------------------------------------- fills

  function SignedFill(side: Side, quantity: uint64): int {
    if side.Buy? then quantity else -(quantity as int)
  }

  /** The cash and position of one fill. */
  function Settle(p: Paper, instrument: string, side: Side, quantity: uint64, price: uint64): Paper
    requires quantity <= INT64_MAX
  {
    match CheckedAdd(Quantity(p.positions, instrument), SignedFill(side, quantity))
    case None =>
      p.(health := Lost, pnlValid := false, positions := SetQuantity(p.positions, instrument, Quantity(p.positions, instrument)))
    case Some(position) =>
      var moved := p.(positions := SetQuantity(p.positions, instrument, position));
      match Notional(quantity, price)
      case None => moved.(pnlValid := false)
      case Some(notional) =>
        match CheckedAdd(p.cash, if side.Buy? then -notional else notional)
        case None => moved.(pnlValid := false)
        case Some(cash) => moved.(cash := cash)
  }

  /** What the order at `i` can still fill. */
  function Remaining(order: PaperOrder): int {
    order.snapshot.quantity - order.snapshot.filled
  }

  function FillOf(p: Paper, order: PaperOrder, cumulative: uint64, timestamp: int64): Fill
    requires order.snapshot.filled <= cumulative
  {
    var s := order.snapshot;
    Fill(PaperId(p.sequence + 1), s.orderId, s.instrument, s.token, cumulative, cumulative - s.filled, s.limitPrice, timestamp)
  }

  function FillAt(p: Paper, i: nat, requested: uint64, timestamp: int64): (Paper, Fill)
    requires i < |p.orders| && p.orders[i].snapshot.filled <= p.orders[i].snapshot.quantity <= INT64_MAX
    requires p.orders[i].snapshot.filled <= requested
  {
    var order := p.orders[i];
    var s := order.snapshot;
    var cumulative := Min(requested, s.quantity);
    var fill := FillOf(p, order, cumulative, timestamp);
    var next := order.(snapshot := s.(filled := cumulative, status := if cumulative == s.quantity then Filled else PartiallyFilled));
    var settled := Settle(p.(sequence := p.sequence + 1, orders := p.orders[i := next]),
                          s.instrument, s.side, fill.last, fill.price);
    (UpdatePeak(settled.(fills := p.fills + [fill])), fill)
  }

  // ---------------------------------------------------------------- observations

  predicate Usable(o: Observation) {
    && o.fromDhan && o.observed && o.receiveTime >= 0
    && (o.exchangeTime.Some? ==> 0 <= o.exchangeTime.value <= o.receiveTime)
    && (o.bestBid.Some? && o.bestAsk.Some? ==> o.bestBid.value <= o.bestAsk.value)
    && !Unhealthy(o)
  }

  function Marked(p: Paper, o: Observation): Paper {
    var mark := Mark(o.bestBid, o.bestAsk, o.lastTrade, o.receiveTime);
    p.(latest := Max(p.latest, o.receiveTime),
       marks := if o.instrument !in p.marks || o.receiveTime >= p.marks[o.instrument].timestamp
                then p.marks[o.instrument := mark] else p.marks)
  }

  predicate Concerns(order: PaperOrder, o: Observation) {
    && !Ended(order.snapshot.status) && order.snapshot.instrument == o.instrument
    && o.receiveTime > order.request.submittedAt
    && (o.exchangeTime.Some? ==> order.request.submittedAt < o.exchangeTime.value <= o.receiveTime)
  }

  predicate Crosses(order: PaperOrder, o: Observation, price: Option<uint64>) {
    price.Some? && if order.snapshot.side.Buy? then price.value <= order.snapshot.limitPrice
                   else price.value >= order.snapshot.limitPrice
  }

  predicate Trades(order: PaperOrder, o: Observation) {
    && o.volume > order.observedVolume
    && (Crosses(order, o, if order.snapshot.side.Buy? then o.bestAsk else o.bestBid) || Crosses(order, o, o.lastTrade))
  }

  /** The order at `i` sees an observation that concerns it. */
  function ObserveOrder(p: Paper, i: nat, o: Observation): (Paper, Option<Fill>)
    requires Sound(p) && i < |p.orders|
  {
    var order := p.orders[i];
    if !Concerns(order, o) then (p, None)
    else if order.awaitingBaseline then
      (p.(orders := p.orders[i := order.(observedVolume := o.volume, volumeReset := false, awaitingBaseline := false)]), None)
    else if o.volume < order.observedVolume then
      (p.(orders := p.orders[i := order.(observedVolume := o.volume, volumeReset := true)]), None)
    else
      var seen := p.(orders := p.orders[i := order.(observedVolume := o.volume, volumeReset := false)]);
      if Trades(order, o) && Remaining(order) > 0 then
        var (filled, fill) := FillAt(seen, i, order.snapshot.quantity, o.receiveTime);
        (filled, Some(fill))
      else (seen, None)
  }

  function ObserveOrders(p: Paper, i: nat, o: Observation, generated: seq<Fill>): (Paper, seq<Fill>)
    requires Sound(p) && i <= |p.orders|
    decreases |p.orders| - i
  {
    if i == |p.orders| then (UpdatePeak(p), generated)
    else
      var (next, fill) := ObserveOrder(p, i, o);
      ObserveOrderIsSound(p, i, o);
      ObserveOrders(next, i + 1, o, if fill.Some? then generated + [fill.value] else generated)
  }

  function Observe(p: Paper, o: Observation): (Paper, seq<Fill>)
    requires Sound(p)
  {
    if !p.health.Ready? || !Usable(o) then (p, [])
    else
      var marked := Marked(p, o);
      if p.scripted then (UpdatePeak(marked), []) else ObserveOrders(marked, 0, o, [])
  }

  // ---------------------------------------------------------------- scripted events

  datatype ScriptKind = PartialFill | CompleteFill | Reject | SessionLoss | Ambiguity

  datatype ScriptEvent = ScriptEvent(
    kind: ScriptKind, updateId: string, orderId: string, cumulative: uint64, timestamp: int64)

  /** What one scripted event leaves behind; `failed` when it throws. */
  datatype ScriptStep = ScriptStep(paper: Paper, fill: Option<Fill>, failed: bool)

  function ApplyScript(p: Paper, event: ScriptEvent): ScriptStep
    requires Sound(p)
  {
    if event.updateId == "" || |event.updateId| > 64 || event.orderId == "" || event.timestamp < 0 then
      ScriptStep(p, None, true)
    else if event.updateId in p.scriptUpdates then ScriptStep(p, None, false)
    else
      var noted := p.(scriptUpdates := p.scriptUpdates + [event.updateId]);
      if event.kind.SessionLoss? then ScriptStep(noted.(health := Lost), None, false)
      else
        var at := FindOrder(p.orders, event.orderId);
        FindOrderFinds(p.orders, event.orderId);
        if at.None? || Ended(p.orders[at.value].snapshot.status) then ScriptStep(noted, None, false)
        else ApplyScriptTo(noted, at.value, event)
  }

  function WithStatus(p: Paper, i: nat, status: Status): Paper
    requires i < |p.orders|
  {
    p.(orders := p.orders[i := p.orders[i].(snapshot := p.orders[i].snapshot.(status := status))])
  }

  /** A scripted event for the order at `i`, which has not ended. */
  function ApplyScriptTo(p: Paper, i: nat, event: ScriptEvent): ScriptStep
    requires Sound(p) && i < |p.orders|
  {
    var order := p.orders[i].snapshot;
    if event.kind.Reject? then ScriptStep(WithStatus(p, i, Rejected), None, false)
    else if event.kind.Ambiguity? then ScriptStep(WithStatus(p, i, Undecided).(health := Unknown), None, false)
    else if event.cumulative > order.quantity then ScriptStep(p, None, true)
    else if event.cumulative > order.filled then
      var (filled, fill) := FillAt(p, i, event.cumulative, event.timestamp);
      ScriptStep(filled, Some(fill), false)
    else ScriptStep(p, None, false)
  }

  // ---------------------------------------------------------------- the shape every reachable state has

  predicate SoundOrder(order: PaperOrder) {
    && order.request.orderId == order.snapshot.orderId
    && order.snapshot.filled <= order.snapshot.quantity && 0 < order.snapshot.quantity <= INT64_MAX
    && (order.snapshot.status.Filled? ==> order.snapshot.filled == order.snapshot.quantity)
  }

  ghost predicate UniqueOrders(orders: seq<PaperOrder>) {
    forall i, j :: 0 <= i < j < |orders| ==> orders[i].snapshot.orderId != orders[j].snapshot.orderId
  }

  ghost predicate UniquePositions(positions: seq<Position>) {
    forall i, j :: 0 <= i < j < |positions| ==> positions[i].instrument != positions[j].instrument
  }

  ghost predicate Sound(p: Paper) {
    && (forall i :: 0 <= i < |p.orders| ==> SoundOrder(p.orders[i]))
    && UniqueOrders(p.orders) && UniquePositions(p.positions)
  }

  lemma {:induction false} FindOrderFinds(orders: seq<PaperOrder>, id: string)
    ensures var r := FindOrder(orders, id);
            && (r.Some? ==> r.value < |orders| && orders[r.value].snapshot.orderId == id)
            && (r.None? ==> forall i :: 0 <= i < |orders| ==> orders[i].snapshot.orderId != id)
  {
    if orders != [] {
      FindOrderFinds(orders[1..], id);
      assert forall i :: 0 < i < |orders| ==> orders[i] == orders[1..][i - 1];
    }
  }

  lemma {:induction false} FindOrderIs(orders: seq<PaperOrder>, i: nat)
    requires UniqueOrders(orders) && i < |orders|
    ensures FindOrder(orders, orders[i].snapshot.orderId) == Some(i)
  {
    FindOrderFinds(orders, orders[i].snapshot.orderId);
  }

  /** Insertion puts the order somewhere among the others. */
  lemma {:induction false} InsertOrderPlaces(orders: seq<PaperOrder>, order: PaperOrder) returns (k: nat)
    ensures k <= |orders| && InsertOrder(orders, order) == orders[..k] + [order] + orders[k..]
  {
    k := 0;
    if orders != [] && !Before(order.snapshot.orderId, orders[0].snapshot.orderId) {
      var j := InsertOrderPlaces(orders[1..], order);
      k := j + 1;
      assert orders[..k] == [orders[0]] + orders[1..][..j] && orders[k..] == orders[1..][j..];
    }
  }

  lemma InsertedAt(orders: seq<PaperOrder>, order: PaperOrder, k: nat, i: nat)
    requires k <= |orders| && i <= |orders|
    ensures (orders[..k] + [order] + orders[k..])[i] == if i < k then orders[i] else if i == k then order else orders[i - 1]
  {
  }

  lemma {:induction false} InsertKeepsUnique(orders: seq<PaperOrder>, order: PaperOrder)
    requires UniqueOrders(orders) && FindOrder(orders, order.snapshot.orderId).None?
    ensures UniqueOrders(InsertOrder(orders, order))
    ensures forall x :: x in InsertOrder(orders, order) <==> x in orders || x == order
  {
    FindOrderFinds(orders, order.snapshot.orderId);
    var k := InsertOrderPlaces(orders, order);
    assert orders == orders[..k] + orders[k..];
  }

  lemma {:induction false} FindPositionFinds(positions: seq<Position>, instrument: string)
    ensures var r := FindPosition(positions, instrument);
            && (r.Some? ==> r.value < |positions| && positions[r.value].instrument == instrument)
            && (r.None? ==> forall i :: 0 <= i < |positions| ==> positions[i].instrument != instrument)
  {
    if positions != [] {
      FindPositionFinds(positions[1..], instrument);
      assert forall i :: 0 < i < |positions| ==> positions[i] == positions[1..][i - 1];
    }
  }

  lemma {:induction false} InsertPositionPlaces(positions: seq<Position>, position: Position) returns (k: nat)
    ensures k <= |positions| && InsertPosition(positions, position) == positions[..k] + [position] + positions[k..]
  {
    k := 0;
    if positions != [] && !Before(position.instrument, positions[0].instrument) {
      var j := InsertPositionPlaces(positions[1..], position);
      k := j + 1;
      assert positions[..k] == [positions[0]] + positions[1..][..j] && positions[k..] == positions[1..][j..];
    }
  }

  lemma {:induction false} QuantityIs(positions: seq<Position>, i: nat)
    requires UniquePositions(positions) && i < |positions|
    ensures Quantity(positions, positions[i].instrument) == positions[i].quantity
  {
    FindPositionFinds(positions, positions[i].instrument);
  }

  lemma {:induction false} InsertPositionIsNew(positions: seq<Position>, position: Position)
    requires UniquePositions(positions) && FindPosition(positions, position.instrument).None?
    ensures UniquePositions(InsertPosition(positions, position))
    ensures forall x :: x in InsertPosition(positions, position) <==> x in positions || x == position
  {
    FindPositionFinds(positions, position.instrument);
    var k := InsertPositionPlaces(positions, position);
    hide FindPosition, InsertPosition;
    PlacedIsNew(positions, position, k);
  }

  lemma PlacedIsNew(positions: seq<Position>, position: Position, k: nat)
    requires UniquePositions(positions) && k <= |positions|
    requires forall i :: 0 <= i < |positions| ==> positions[i].instrument != position.instrument
    ensures UniquePositions(positions[..k] + [position] + positions[k..])
    ensures forall x :: x in positions[..k] + [position] + positions[k..] <==> x in positions || x == position
  {
    PlacedIsUnique(positions, position, k);
    hide UniquePositions;
    assert positions == positions[..k] + positions[k..];
  }

  lemma PlacedIsUnique(positions: seq<Position>, position: Position, k: nat)
    requires UniquePositions(positions) && k <= |positions|
    requires forall i :: 0 <= i < |positions| ==> positions[i].instrument != position.instrument
    ensures UniquePositions(positions[..k] + [position] + positions[k..])
  {
    var all := positions[..k] + [position] + positions[k..];
    assert forall i :: 0 <= i < |all| ==> all[i] == (if i < k then positions[i] else if i == k then position else positions[i - 1]);
  }

  lemma {:induction false} QuantityOf(positions: seq<Position>, instrument: string)
    requires UniquePositions(positions)
    ensures forall x :: x in positions && x.instrument == instrument ==> Quantity(positions, instrument) == x.quantity
    ensures (forall x :: x in positions ==> x.instrument != instrument) ==> Quantity(positions, instrument) == 0
  {
    FindPositionFinds(positions, instrument);
  }

  /** Setting a quantity changes that quantity and no other, and keeps instruments distinct. */
  lemma {:induction false} SetQuantitySets(positions: seq<Position>, instrument: string, quantity: int64)
    requires UniquePositions(positions)
    ensures var r := SetQuantity(positions, instrument, quantity);
            && UniquePositions(r)
            && (forall other :: Quantity(r, other) == if other == instrument then quantity else Quantity(positions, other))
  {
    hide Quantity;
    var r := SetQuantity(positions, instrument, quantity);
    FindPositionFinds(positions, instrument);
    if FindPosition(positions, instrument).None? {
      InsertPositionIsNew(positions, Position(instrument, quantity));
    }
    forall other ensures Quantity(r, other) == if other == instrument then quantity else Quantity(positions, other) {
      QuantityOf(positions, other);
      QuantityOf(r, other);
      FindPositionFinds(positions, other);
      var at := FindPosition(positions, instrument);
      if at.Some? {
        assert r[at.value] == Position(instrument, quantity);
      }
      if other != instrument && FindPosition(positions, other).Some? {
        var i := FindPosition(positions, other).value;
        assert positions[i] in positions;
        assert at.Some? ==> r[i] == positions[i];
      }
    }
  }

  // ---------------------------------------------------------------- every operation keeps the shape

  lemma {:induction false} SettleKeeps(p: Paper, instrument: string, side: Side, quantity: uint64, price: uint64)
    requires quantity <= INT64_MAX && UniquePositions(p.positions)
    ensures var r := Settle(p, instrument, side, quantity, price);
            && UniquePositions(r.positions)
            && r == p.(positions := r.positions, cash := r.cash, health := r.health, pnlValid := r.pnlValid)
  {
    hide Quantity, SetQuantity;
    SetQuantitySets(p.positions, instrument, Quantity(p.positions, instrument));
    var moved := CheckedAdd(Quantity(p.positions, instrument), SignedFill(side, quantity));
    if moved.Some? {
      SetQuantitySets(p.positions, instrument, moved.value);
    }
  }

  lemma PeakKeeps(p: Paper)
    ensures UpdatePeak(p) == p.(peak := UpdatePeak(p).peak) && UpdatePeak(p).peak >= p.peak
  {
  }

  lemma {:induction false} FillIsSound(p: Paper, i: nat, requested: uint64, timestamp: int64)
    requires Sound(p) && i < |p.orders| && p.orders[i].snapshot.filled <= requested
    ensures var (r, fill) := FillAt(p, i, requested, timestamp);
            && Sound(r) && |r.orders| == |p.orders| && r.fills == p.fills + [fill] && r.scripted == p.scripted
            && r.orders == p.orders[i := r.orders[i]]
            && r.orders[i].request == p.orders[i].request
            && r.orders[i].snapshot == p.orders[i].snapshot.(filled := fill.cumulative, status := r.orders[i].snapshot.status)
            && fill.cumulative == Min(requested, p.orders[i].snapshot.quantity)
            && fill.last == fill.cumulative - p.orders[i].snapshot.filled
  {
    hide Settle, UpdatePeak;
    var order := p.orders[i];
    var s := order.snapshot;
    var cumulative := Min(requested, s.quantity);
    var next := order.(snapshot := s.(filled := cumulative, status := if cumulative == s.quantity then Filled else PartiallyFilled));
    var moved := p.(sequence := p.sequence + 1, orders := p.orders[i := next]);
    SettleKeeps(moved, s.instrument, s.side, cumulative - s.filled, s.limitPrice);
    var settled := Settle(moved, s.instrument, s.side, cumulative - s.filled, s.limitPrice);
    PeakKeeps(settled.(fills := p.fills + [FillOf(p, order, cumulative, timestamp)]));
  }

  lemma {:induction false} ObserveOrderIsSound(p: Paper, i: nat, o: Observation)
    requires Sound(p) && i < |p.orders|
    ensures var r := ObserveOrder(p, i, o).0; Sound(r) && |r.orders| == |p.orders| && r.scripted == p.scripted
  {
    hide FillAt;
    var order := p.orders[i];
    var seen := p.(orders := p.orders[i := order.(observedVolume := o.volume, volumeReset := false)]);
    if Trades(order, o) && Remaining(order) > 0 {
      FillIsSound(seen, i, order.snapshot.quantity, o.receiveTime);
    }
  }

  lemma {:induction false} ObserveOrdersIsSound(p: Paper, i: nat, o: Observation, generated: seq<Fill>)
    requires Sound(p) && i <= |p.orders|
    ensures Sound(ObserveOrders(p, i, o, generated).0)
    decreases |p.orders| - i
  {
    hide ObserveOrder, UpdatePeak;
    if i == |p.orders| {
      PeakKeeps(p);
    } else {
      ObserveOrderIsSound(p, i, o);
      var (next, fill) := ObserveOrder(p, i, o);
      ObserveOrdersIsSound(next, i + 1, o, if fill.Some? then generated + [fill.value] else generated);
    }
  }

  lemma {:induction false} ObserveIsSound(p: Paper, o: Observation)
    requires Sound(p)
    ensures Sound(Observe(p, o).0)
  {
    hide ObserveOrders;
    if p.health.Ready? && Usable(o) {
      PeakKeeps(Marked(p, o));
      if !p.scripted {
        ObserveOrdersIsSound(Marked(p, o), 0, o, []);
      }
    }
  }

  lemma {:induction false} PlaceIsSound(p: Paper, r: Request)
    requires Sound(p)
    ensures Sound(PlaceOrder(p, r).0)
  {
    hide FindOrder, InsertOrder;
    if FindOrder(p.orders, r.orderId).None? {
      var snapshot := OrderSnapshot(r.orderId, r.route.instrument, r.route.token, r.side, r.quantity, r.limitPrice, 0, Working);
      var order := PaperOrder(r, snapshot, r.baseline, false, false);
      InsertKeepsUnique(p.orders, order);
      var longer := InsertOrder(p.orders, order);
      assert forall i :: 0 <= i < |longer| ==> longer[i] in longer;
    }
  }

  lemma {:induction false} ModifyIsSound(p: Paper, id: string, quantity: uint64, limitPrice: uint64)
    requires Sound(p)
    ensures Sound(ModifyOrder(p, id, quantity, limitPrice).0)
  {
    hide FindOrder;
    FindOrderFinds(p.orders, id);
  }

  lemma {:induction false} CancelIsSound(p: Paper, id: string)
    requires Sound(p)
    ensures Sound(CancelOrder(p, id).0)
  {
    hide FindOrder;
    FindOrderFinds(p.orders, id);
  }
}
