/**
 The paper broker's books: cash and positions are the exact sums of the fills, peak equity is never below
 equity, and the profit and loss reported from them is exact.
*/
module PaperAccounting {
  import opened Base
  import opened Risk
  import opened PaperBroker
  import OrderStateMachine

  // ---------------------------------------------------------------- exact sums over fills

  function SideOf(orders: seq<PaperOrder>, id: string): Option<Side> {
    match FindOrder(orders, id)
    case Some(i) => if i < |orders| then Some(orders[i].snapshot.side) else None
    case None => None
  }

  /** The cash one fill moves. */
  function CashOf(orders: seq<PaperOrder>, fill: Fill): int {
    if SideOf(orders, fill.orderId) == Some(OrderStateMachine.Buy) then -(fill.last * fill.price) else fill.last * fill.price
  }

  function FillCash(orders: seq<PaperOrder>, fills: seq<Fill>): int {
    if fills == [] then 0
    else FillCash(orders, fills[..|fills| - 1]) + CashOf(orders, fills[|fills| - 1])
  }

  function FillPosition(orders: seq<PaperOrder>, fills: seq<Fill>, instrument: string): int {
    if fills == [] then 0
    else
      var last := fills[|fills| - 1];
      FillPosition(orders, fills[..|fills| - 1], instrument)
      + (if last.instrument != instrument then 0
         else if SideOf(orders, last.orderId) == Some(OrderStateMachine.Buy) then last.last else -(last.last as int))
  }

  /** What the fills of one order add up to. */
  function FilledQuantity(fills: seq<Fill>, id: string): nat {
    if fills == [] then 0
    else
      var last := fills[|fills| - 1];
      FilledQuantity(fills[..|fills| - 1], id) + (if last.orderId == id then last.last else 0)
  }

  /** A long position is worth the bid and a short one the ask, or the last trade where there is none. */
  function Worth(mark: Mark, long: bool): int {
    match if long then mark.bid else mark.ask
    case Some(price) => price
    case None =>
      match mark.lastTrade
      case Some(price) => price
      case None => 0
  }

  /** The value of the positions at their marks. */
  function MarkedValue(positions: seq<Position>, marks: map<string, Mark>): int
    decreases |positions|
  {
    if positions == [] then 0
    else
      ValueOf(positions[0], marks) + MarkedValue(positions[1..], marks)
  }

  /** Checked equity, when there is one, is the exact sum. */
  lemma {:induction false} EquityIsExact(positions: seq<Position>, marks: map<string, Mark>, start: int64)
    ensures var r := AddValues(positions, marks, start);
            r.Some? ==> r.value == start + MarkedValue(positions, marks)
    decreases |positions|
  {
    if positions != [] {
      var head := positions[0];
      if head.quantity != 0 && head.instrument in marks {
        var price := Price(marks[head.instrument], head.quantity);
        var notional := Notional(Absolute(head.quantity), price);
        if notional.Some? {
          SignedValue(head.quantity, price);
          var sum := CheckedAdd(start, if head.quantity > 0 then notional.value else -notional.value);
          if sum.Some? {
            EquityIsExact(positions[1..], marks, sum.value);
          }
        }
      } else {
        EquityIsExact(positions[1..], marks, start);
      }
    }
  }

  /** The position is closed, or has a price at which its value is a machine integer. */
  predicate Valued(x: Position, marks: map<string, Mark>) {
    x.quantity != 0 ==>
      && x.instrument in marks && 0 < Worth(marks[x.instrument], x.quantity > 0)
      && -INT64_MAX <= x.quantity * Worth(marks[x.instrument], x.quantity > 0) <= INT64_MAX
  }

  ghost predicate AllValued(positions: seq<Position>, marks: map<string, Mark>) {
    forall i :: 0 <= i < |positions| ==> Valued(positions[i], marks)
  }

  ghost predicate Fits(positions: seq<Position>, marks: map<string, Mark>, start: int, k: nat)
    requires k <= |positions|
  {
    INT64_MIN <= start + MarkedValue(positions[..k], marks) <= INT64_MAX
  }

  /** No sum on the way leaves the machine's range. */
  ghost predicate AllFit(positions: seq<Position>, marks: map<string, Mark>, start: int) {
    forall k :: 0 <= k <= |positions| ==> Fits(positions, marks, start, k)
  }

  /** Equity can be computed exactly when every open position has a price and a value, and no sum on the way leaves the
      machine's range. */
  lemma {:induction false} EquityIff(positions: seq<Position>, marks: map<string, Mark>, start: int64)
    ensures AddValues(positions, marks, start).Some? <==> AllValued(positions, marks) && AllFit(positions, marks, start)
    decreases |positions|
  {
    if positions == [] {
      assert forall k :: 0 <= k <= |positions| ==> positions[..k] == [];
    } else {
      var head, rest := positions[0], positions[1..];
      var value := ValueOf(head, marks);
      FirstAdds(head, rest, marks, start);
      assert [head] + rest == positions;
      AllOfFirst(positions, marks);
      FitsFirst(positions, marks, start);
      if INT64_MIN <= start + value <= INT64_MAX {
        EquityIff(rest, marks, start + value);
      } else {
        NoneFit(rest, marks, start + value);
      }
      hide AddValues, AllFit, AllValued, Valued, ValueOf;
    }
  }

  /** What a position adds to the equity. */
  function ValueOf(x: Position, marks: map<string, Mark>): int {
    if x.quantity == 0 || x.instrument !in marks then 0 else x.quantity * Worth(marks[x.instrument], x.quantity > 0)
  }

  lemma NoneFit(positions: seq<Position>, marks: map<string, Mark>, start: int)
    requires !(INT64_MIN <= start <= INT64_MAX)
    ensures !AllFit(positions, marks, start)
  {
    assert positions[..0] == [];
    assert !Fits(positions, marks, start, 0);
  }

  lemma AllOfFirst(positions: seq<Position>, marks: map<string, Mark>)
    requires positions != []
    ensures AllValued(positions, marks) <==> Valued(positions[0], marks) && AllValued(positions[1..], marks)
  {
    hide Valued;
    assert forall i :: 0 < i < |positions| ==> positions[i] == positions[1..][i - 1];
    assert forall i :: 0 <= i < |positions| - 1 ==> positions[1..][i] == positions[i + 1];
  }

  lemma {:induction false} FitsFirst(positions: seq<Position>, marks: map<string, Mark>, start: int64)
    requires positions != []
    ensures AllFit(positions, marks, start) <==> AllFit(positions[1..], marks, start + ValueOf(positions[0], marks))
  {
    var rest, later: int := positions[1..], start + ValueOf(positions[0], marks);
    assert positions[..0] == [];
    assert Fits(positions, marks, start, 0);
    hide Fits, ValueOf;
    if AllFit(rest, marks, later) {
      forall k | 0 <= k <= |positions| ensures Fits(positions, marks, start, k) {
        if k > 0 {
          assert Fits(rest, marks, later, k - 1);
          FitsNext(positions, marks, start, k - 1);
        }
      }
    }
    if AllFit(positions, marks, start) {
      forall k | 0 <= k <= |rest| ensures Fits(rest, marks, later, k) {
        assert Fits(positions, marks, start, k + 1);
        FitsNext(positions, marks, start, k);
      }
    }
  }

  lemma FitsNext(positions: seq<Position>, marks: map<string, Mark>, start: int64, k: nat)
    requires k < |positions|
    ensures Fits(positions, marks, start, k + 1) <==> Fits(positions[1..], marks, start + ValueOf(positions[0], marks), k)
  {
    hide ValueOf;
    assert positions[..k + 1][1..] == positions[1..][..k];
  }

  /** One position is added, when it has a value and the sum fits. */
  lemma FirstAdds(head: Position, rest: seq<Position>, marks: map<string, Mark>, start: int64)
    ensures AddValues([head] + rest, marks, start).Some? <==>
            && Valued(head, marks) && INT64_MIN <= start + ValueOf(head, marks) <= INT64_MAX
            && AddValues(rest, marks, start + ValueOf(head, marks)).Some?
  {
    assert ([head] + rest)[1..] == rest;
    if head.quantity != 0 && head.instrument in marks {
      SignedValue(head.quantity, Price(marks[head.instrument], head.quantity));
    }
  }

  lemma SignedValue(quantity: int64, price: uint64)
    ensures quantity < 0 && quantity != INT64_MIN ==> -(Absolute(quantity) * price) == quantity * price
  {
  }

  // ---------------------------------------------------------------- profit and loss

  datatype PnlReport = PnlReport(loss: uint64, drawdown: uint64, timestamp: int64)

  /** The oldest mark of a held position, or the latest observation. */
  function EvidenceTime(positions: seq<Position>, marks: map<string, Mark>, latest: int64): Option<int64>
    decreases |positions|
  {
    if positions == [] then Some(latest)
    else if positions[0].quantity == 0 then EvidenceTime(positions[1..], marks, latest)
    else if positions[0].instrument !in marks then None
    else EvidenceTime(positions[1..], marks, Min(latest, marks[positions[0].instrument].timestamp))
  }

  function QueryPnl(p: Paper): Option<PnlReport> {
    if !p.health.Ready? || p.latest <= 0 then None
    else
      match Equity(p)
      case None => None
      case Some(equity) =>
        if p.peak < equity then None
        else
          var loss: uint64 := if equity < 0 then -(equity + 1) + 1 else 0;
          var drawdown: uint64 := if equity >= 0 then p.peak - equity else p.peak + loss;
          match EvidenceTime(p.positions, p.marks, p.latest)
          case None => None
          case Some(timestamp) => Some(PnlReport(loss, drawdown, timestamp))
  }

  /** The time of the evidence: no mark of an open position, nor the latest observation, is older. */
  lemma {:induction false} EvidenceIsOldest(positions: seq<Position>, marks: map<string, Mark>, latest: int64)
    ensures var r := EvidenceTime(positions, marks, latest);
            && (r.Some? <==> forall i :: 0 <= i < |positions| && positions[i].quantity != 0 ==> positions[i].instrument in marks)
            && (r.Some? ==>
                  && r.value <= latest
                  && (forall i :: 0 <= i < |positions| && positions[i].quantity != 0 ==>
                        r.value <= marks[positions[i].instrument].timestamp)
                  && (r.value == latest || exists i :: 0 <= i < |positions| && positions[i].quantity != 0
                                                       && r.value == marks[positions[i].instrument].timestamp))
    decreases |positions|
  {
    if positions != [] {
      var head, rest := positions[0], positions[1..];
      assert forall i :: 0 < i < |positions| ==> positions[i] == rest[i - 1];
      if head.quantity == 0 {
        EvidenceIsOldest(rest, marks, latest);
      } else if head.instrument in marks {
        EvidenceIsOldest(rest, marks, Min(latest, marks[head.instrument].timestamp));
      }
    }
  }

  /** A report is given exactly when the broker is up, has observed something, and can compute its equity; its time is
      that of the oldest evidence. */
  lemma {:induction false} ReportedIff(p: Paper)
    requires Books(p)
    ensures QueryPnl(p).Some? <==> p.health.Ready? && p.latest > 0 && Equity(p).Some?
    ensures QueryPnl(p).Some? ==>
              var t := QueryPnl(p).value.timestamp;
              && t <= p.latest
              && (forall i :: 0 <= i < |p.positions| && p.positions[i].quantity != 0 ==>
                    p.positions[i].instrument in p.marks && t <= p.marks[p.positions[i].instrument].timestamp)
              && (t == p.latest || exists i :: 0 <= i < |p.positions| && p.positions[i].quantity != 0
                                               && p.positions[i].instrument in p.marks
                                               && t == p.marks[p.positions[i].instrument].timestamp)
  {
    EvidenceIsOldest(p.positions, p.marks, p.latest);
    EquityIff(p.positions, p.marks, p.cash);
    hide AddValues, EvidenceTime, MarkedValue, Worth, Ledgered;
  }

  /** Main result: a reported loss and drawdown are those of the exact equity, in unbounded integers. */
  lemma {:induction false} PnlIsExact(p: Paper)
    requires Books(p) && QueryPnl(p).Some?
    ensures var equity := FillCash(p.orders, p.fills) + MarkedValue(p.positions, p.marks);
            var r := QueryPnl(p).value;
            && r.loss == Max(0, -equity) && r.drawdown == p.peak - equity && equity <= p.peak
            && forall instrument :: Quantity(p.positions, instrument) == FillPosition(p.orders, p.fills, instrument)
  {
    hide FillCash, MarkedValue, FillPosition, Quantity, AddValues, EvidenceTime;
    EquityIsExact(p.positions, p.marks, p.cash);
  }

  // ---------------------------------------------------------------- the books

  /** Every fill is of a known order of its instrument. */
  ghost predicate KnownFills(orders: seq<PaperOrder>, fills: seq<Fill>) {
    forall k :: 0 <= k < |fills| ==>
      FindOrder(orders, fills[k].orderId).Some? && InstrumentOf(orders, fills[k].orderId) == Some(fills[k].instrument)
  }

  function InstrumentOf(orders: seq<PaperOrder>, id: string): Option<string> {
    match FindOrder(orders, id)
    case Some(i) => if i < |orders| then Some(orders[i].snapshot.instrument) else None
    case None => None
  }

  /** Cash and positions are the sums of the fills, unless a sum once overflowed. */
  ghost predicate Balanced(p: Paper) {
    p.pnlValid ==>
      && p.cash == FillCash(p.orders, p.fills)
      && forall instrument :: Quantity(p.positions, instrument) == FillPosition(p.orders, p.fills, instrument)
  }

  /** Each order has filled what its fills add up to. */
  ghost predicate Accounted(p: Paper) {
    forall i :: 0 <= i < |p.orders| ==>
      p.orders[i].snapshot.filled == FilledQuantity(p.fills, p.orders[i].snapshot.orderId)
  }

  ghost predicate Ledgered(p: Paper) {
    Sound(p) && KnownFills(p.orders, p.fills) && Balanced(p) && Accounted(p)
  }

  ghost predicate BelowPeak(p: Paper) {
    Equity(p).Some? ==> Equity(p).value <= p.peak
  }

  ghost predicate Books(p: Paper) {
    Ledgered(p) && BelowPeak(p)
  }

  lemma EmptyBooks(scripted: bool)
    ensures Books(EmptyPaper(scripted))
  {
  }

  // ---------------------------------------------------------------- what other orders do to the sums

  /** The same orders as far as fills are concerned. */
  ghost predicate SameTerms(a: seq<PaperOrder>, b: seq<PaperOrder>, fills: seq<Fill>) {
    forall k :: 0 <= k < |fills| ==>
      && SideOf(a, fills[k].orderId) == SideOf(b, fills[k].orderId)
      && InstrumentOf(a, fills[k].orderId) == InstrumentOf(b, fills[k].orderId)
      && FindOrder(a, fills[k].orderId).Some? == FindOrder(b, fills[k].orderId).Some?
  }

  lemma {:induction false} SumsIgnoreTheRest(a: seq<PaperOrder>, b: seq<PaperOrder>, fills: seq<Fill>, instrument: string)
    requires SameTerms(a, b, fills)
    ensures FillCash(a, fills) == FillCash(b, fills)
    ensures FillPosition(a, fills, instrument) == FillPosition(b, fills, instrument)
  {
    hide SideOf, InstrumentOf, FindOrder;
    if fills != [] {
      var n := |fills| - 1;
      assert forall k :: 0 <= k < n ==> fills[..n][k] == fills[k];
      SumsIgnoreTheRest(a, b, fills[..n], instrument);
      assert SideOf(a, fills[n].orderId) == SideOf(b, fills[n].orderId);
    }
  }

  lemma {:induction false} BalancedIgnoresTheRest(p: Paper, q: Paper)
    requires SameTerms(p.orders, q.orders, p.fills) && q.fills == p.fills
    requires q.cash == p.cash && q.positions == p.positions && q.pnlValid == p.pnlValid
    requires Balanced(p) && KnownFills(p.orders, p.fills)
    ensures Balanced(q) && KnownFills(q.orders, q.fills)
  {
    hide SideOf, FindOrder, Quantity, FillCash, FillPosition, InstrumentOf;
    if q.pnlValid {
      SumsIgnoreTheRest(p.orders, q.orders, p.fills, "");
      forall instrument ensures Quantity(q.positions, instrument) == FillPosition(q.orders, q.fills, instrument) {
        SumsIgnoreTheRest(p.orders, q.orders, p.fills, instrument);
      }
    }
  }

  /** Replacing an order by one of the same id, side and instrument. */
  lemma {:induction false} UpdateKeepsTerms(orders: seq<PaperOrder>, i: nat, next: PaperOrder, fills: seq<Fill>)
    requires UniqueOrders(orders) && i < |orders|
    requires next.snapshot.orderId == orders[i].snapshot.orderId
    requires next.snapshot.side == orders[i].snapshot.side && next.snapshot.instrument == orders[i].snapshot.instrument
    ensures SameTerms(orders, orders[i := next], fills)
  {
    forall id ensures SideOf(orders, id) == SideOf(orders[i := next], id)
      ensures InstrumentOf(orders, id) == InstrumentOf(orders[i := next], id)
      ensures FindOrder(orders, id).Some? == FindOrder(orders[i := next], id).Some?
    {
      FindOrderFinds(orders, id);
      FindOrderFinds(orders[i := next], id);
      hide FindOrder;
      var at, then_ := FindOrder(orders, id), FindOrder(orders[i := next], id);
      assert forall k :: 0 <= k < |orders| ==> orders[i := next][k].snapshot.orderId == orders[k].snapshot.orderId;
      assert at.Some? ==> orders[i := next][at.value].snapshot.orderId == id;
      assert then_.Some? ==> orders[then_.value].snapshot.orderId == id;
    }
  }

  /** A new order does not disturb the orders that are there. */
  lemma {:induction false} InsertKeepsTerms(orders: seq<PaperOrder>, order: PaperOrder, fills: seq<Fill>)
    requires UniqueOrders(orders) && FindOrder(orders, order.snapshot.orderId).None? && KnownFills(orders, fills)
    ensures SameTerms(orders, InsertOrder(orders, order), fills)
  {
    hide FindOrder, InsertOrder;
    var longer := InsertOrder(orders, order);
    InsertKeepsUnique(orders, order);
    forall k | 0 <= k < |fills|
      ensures SideOf(orders, fills[k].orderId) == SideOf(longer, fills[k].orderId)
      ensures InstrumentOf(orders, fills[k].orderId) == InstrumentOf(longer, fills[k].orderId)
      ensures FindOrder(longer, fills[k].orderId).Some?
    {
      var id := fills[k].orderId;
      FindOrderFinds(orders, id);
      FindOrderFinds(longer, id);
      FindOrderFinds(orders, order.snapshot.orderId);
      var x := orders[FindOrder(orders, id).value];
      assert x in longer;
      var j :| 0 <= j < |longer| && longer[j] == x;
      FindOrderIs(longer, j);
    }
  }

  // ---------------------------------------------------------------- every operation keeps the books

  lemma {:induction false} PlaceKeepsBooks(p: Paper, r: Request)
    requires Books(p)
    ensures Books(PlaceOrder(p, r).0)
  {
    hide FindOrder, InsertOrder, Balanced, KnownFills, SameTerms, Sound, FilledQuantity, AddValues, BelowPeak;
    var q := PlaceOrder(p, r).0;
    PlaceIsSound(p, r);
    PeakIgnoresOrders(p, q);
    if q.orders == p.orders {
      SameOrdersSameTerms(p.orders, p.fills);
      BalancedIgnoresTheRest(p, q);
    } else {
      var order := PaperOrder(r, OrderSnapshot(r.orderId, r.route.instrument, r.route.token, r.side, r.quantity,
                                               r.limitPrice, 0, Working), r.baseline, false, false);
      InsertKeepsTermsOfBooks(p, order);
      BalancedIgnoresTheRest(p, q);
      NewOrderIsAccounted(p, order);
    }
  }

  lemma PeakIgnoresOrders(p: Paper, q: Paper)
    requires q.pnlValid == p.pnlValid && q.positions == p.positions && q.marks == p.marks && q.cash == p.cash
    requires q.peak == p.peak && BelowPeak(p)
    ensures BelowPeak(q)
  {
  }

  lemma SameOrdersSameTerms(orders: seq<PaperOrder>, fills: seq<Fill>)
    ensures SameTerms(orders, orders, fills)
  {
  }

  lemma {:induction false} InsertKeepsTermsOfBooks(p: Paper, order: PaperOrder)
    requires Ledgered(p) && FindOrder(p.orders, order.snapshot.orderId).None?
    ensures SameTerms(p.orders, InsertOrder(p.orders, order), p.fills)
  {
    hide FindOrder, InsertOrder, SameTerms, KnownFills, Balanced, Accounted;
    InsertKeepsTerms(p.orders, order, p.fills);
  }

  /** Nothing was filled under an id that no order has. */
  lemma {:induction false} UnknownIsUnfilled(orders: seq<PaperOrder>, fills: seq<Fill>, id: string)
    requires KnownFills(orders, fills) && FindOrder(orders, id).None?
    ensures FilledQuantity(fills, id) == 0
  {
    hide FindOrder, InstrumentOf;
    if fills != [] {
      var n := |fills| - 1;
      assert forall k :: 0 <= k < n ==> fills[..n][k] == fills[k];
      UnknownIsUnfilled(orders, fills[..n], id);
      assert FindOrder(orders, fills[n].orderId).Some?;
    }
  }

  lemma {:induction false} NewOrderIsAccounted(p: Paper, order: PaperOrder)
    requires Ledgered(p) && FindOrder(p.orders, order.snapshot.orderId).None? && order.snapshot.filled == 0
    ensures Accounted(p.(orders := InsertOrder(p.orders, order)))
  {
    hide FindOrder, InsertOrder, KnownFills, Balanced, FilledQuantity;
    UnknownIsUnfilled(p.orders, p.fills, order.snapshot.orderId);
    InsertKeepsUnique(p.orders, order);
    var longer := InsertOrder(p.orders, order);
    forall i | 0 <= i < |longer| ensures longer[i].snapshot.filled == FilledQuantity(p.fills, longer[i].snapshot.orderId) {
      assert longer[i] in longer;
    }
  }

  /** An order is replaced by one that has filled as much. */
  lemma {:induction false} ReplaceKeepsBooks(p: Paper, q: Paper, i: nat, next: PaperOrder)
    requires Ledgered(p) && i < |p.orders| && q.orders == p.orders[i := next] && Sound(q)
    requires next.snapshot.orderId == p.orders[i].snapshot.orderId && next.snapshot.filled == p.orders[i].snapshot.filled
    requires next.snapshot.side == p.orders[i].snapshot.side && next.snapshot.instrument == p.orders[i].snapshot.instrument
    requires q.fills == p.fills && q.cash == p.cash && q.positions == p.positions && q.pnlValid == p.pnlValid
    ensures Ledgered(q)
  {
    hide FindOrder, Balanced, KnownFills, SameTerms, FilledQuantity;
    UpdateKeepsTerms(p.orders, i, next, p.fills);
    BalancedIgnoresTheRest(p, q);
  }

  lemma {:induction false} ModifyKeepsBooks(p: Paper, id: string, quantity: uint64, limitPrice: uint64)
    requires Books(p)
    ensures Books(ModifyOrder(p, id, quantity, limitPrice).0)
  {
    hide FindOrder, Ledgered, Sound, BelowPeak;
    var q := ModifyOrder(p, id, quantity, limitPrice).0;
    FindOrderFinds(p.orders, id);
    ModifyIsSound(p, id, quantity, limitPrice) by { LedgeredIsSound(p); }
    PeakIgnoresOrders(p, q);
    if q.orders == p.orders {
      SequenceIsFree(p, q.sequence);
    } else {
      var i := FindOrder(p.orders, id).value;
      ReplaceKeepsBooks(p, q, i, q.orders[i]);
    }
  }

  lemma LedgeredIsSound(p: Paper)
    requires Ledgered(p)
    ensures Sound(p)
  {
  }

  lemma BooksAreLedgered(p: Paper)
    requires Books(p)
    ensures Ledgered(p)
  {
  }

  lemma SequenceIsFree(p: Paper, sequence: nat)
    requires Ledgered(p)
    ensures Ledgered(p.(sequence := sequence))
  {
  }

  lemma {:induction false} CancelKeepsBooks(p: Paper, id: string)
    requires Books(p)
    ensures Books(CancelOrder(p, id).0)
  {
    hide FindOrder, Ledgered, Sound, BelowPeak;
    var q := CancelOrder(p, id).0;
    FindOrderFinds(p.orders, id);
    CancelIsSound(p, id) by { LedgeredIsSound(p); }
    PeakIgnoresOrders(p, q);
    if q.orders == p.orders {
      SequenceIsFree(p, q.sequence);
    } else {
      var i := FindOrder(p.orders, id).value;
      ReplaceKeepsBooks(p, q, i, q.orders[i]);
    }
  }

  // ---------------------------------------------------------------- a fill

  /** Settling is exact, or marks the books as unusable. */
  lemma {:induction false} SettleIsExact(p: Paper, instrument: string, side: Side, quantity: uint64, price: uint64)
    requires quantity <= INT64_MAX && UniquePositions(p.positions)
    ensures var r := Settle(p, instrument, side, quantity, price);
            r.pnlValid ==>
              && p.pnlValid && r.cash == p.cash - SignedFill(side, quantity) * price
              && forall other :: Quantity(r.positions, other)
                                 == Quantity(p.positions, other) + if other == instrument then SignedFill(side, quantity) else 0
  {
    hide Quantity, SetQuantity;
    var moved := CheckedAdd(Quantity(p.positions, instrument), SignedFill(side, quantity));
    if moved.Some? {
      SetQuantitySets(p.positions, instrument, moved.value);
    }
    assert -(quantity as int) * price == -(quantity * price);
  }

  /** The last fill counts once, and the sums over the others are unchanged. */
  lemma {:induction false} SumsGrow(orders: seq<PaperOrder>, fills: seq<Fill>, fill: Fill, instrument: string, side: Side)
    requires SideOf(orders, fill.orderId) == Some(side)
    ensures FillCash(orders, fills + [fill]) == FillCash(orders, fills) - SignedFill(side, fill.last) * fill.price
    ensures FillPosition(orders, fills + [fill], instrument)
            == FillPosition(orders, fills, instrument) + if fill.instrument == instrument then SignedFill(side, fill.last) else 0
  {
    assert (fills + [fill])[..|fills|] == fills;
    assert -(fill.last as int) * fill.price == -(fill.last * fill.price);
  }

  lemma {:induction false} FilledGrows(fills: seq<Fill>, fill: Fill, id: string)
    ensures FilledQuantity(fills + [fill], id) == FilledQuantity(fills, id) + if fill.orderId == id then fill.last else 0
  {
    assert (fills + [fill])[..|fills|] == fills;
  }

  /** The state a fill settles from: the order has advanced. */
  lemma {:induction false} BalancedAfterFill(p: Paper, q: Paper, i: nat, fill: Fill)
    requires Ledgered(p) && i < |p.orders| == |q.orders| && Sound(q)
    requires q.orders == p.orders[i := q.orders[i]] && q.fills == p.fills + [fill]
    requires q.orders[i].snapshot.orderId == p.orders[i].snapshot.orderId == fill.orderId
    requires q.orders[i].snapshot.instrument == p.orders[i].snapshot.instrument == fill.instrument
    requires q.orders[i].snapshot.side == p.orders[i].snapshot.side
    requires q.orders[i].snapshot.filled == p.orders[i].snapshot.filled + fill.last
    requires var side := p.orders[i].snapshot.side;
             q.pnlValid ==>
               && p.pnlValid && q.cash == p.cash - SignedFill(side, fill.last) * fill.price
               && forall other :: Quantity(q.positions, other)
                                  == Quantity(p.positions, other)
                                     + if other == fill.instrument then SignedFill(side, fill.last) else 0
    ensures Ledgered(q)
  {
    hide Quantity, FillCash, FillPosition, FindOrder, SameTerms, FilledQuantity, SignedFill;
    var side := p.orders[i].snapshot.side;
    UpdateKeepsTerms(p.orders, i, q.orders[i], p.fills);
    FindOrderIs(q.orders, i);
    KnownFillsGrow(p, q, fill);
    if q.pnlValid {
      SumsIgnoreTheRest(p.orders, q.orders, p.fills, "");
      SumsGrow(q.orders, p.fills, fill, "", side);
      forall other ensures Quantity(q.positions, other) == FillPosition(q.orders, q.fills, other) {
        SumsIgnoreTheRest(p.orders, q.orders, p.fills, other);
        SumsGrow(q.orders, p.fills, fill, other, side);
      }
    }
    forall j | 0 <= j < |q.orders| ensures q.orders[j].snapshot.filled == FilledQuantity(q.fills, q.orders[j].snapshot.orderId) {
      FilledGrows(p.fills, fill, q.orders[j].snapshot.orderId);
      assert p.orders[j].snapshot.orderId == q.orders[j].snapshot.orderId;
      assert j != i ==> q.orders[j] == p.orders[j];
      assert j < i ==> q.orders[j].snapshot.orderId != q.orders[i].snapshot.orderId;
      assert j > i ==> q.orders[i].snapshot.orderId != q.orders[j].snapshot.orderId;
    }
  }

  lemma {:induction false} KnownFillsGrow(p: Paper, q: Paper, fill: Fill)
    requires SameTerms(p.orders, q.orders, p.fills) && KnownFills(p.orders, p.fills)
    requires FindOrder(q.orders, fill.orderId).Some? && InstrumentOf(q.orders, fill.orderId) == Some(fill.instrument)
    requires q.fills == p.fills + [fill]
    ensures KnownFills(q.orders, q.fills)
  {
    hide FindOrder, InstrumentOf, SideOf;
    forall k | 0 <= k < |q.fills|
      ensures FindOrder(q.orders, q.fills[k].orderId).Some?
      ensures InstrumentOf(q.orders, q.fills[k].orderId) == Some(q.fills[k].instrument)
    {
      if k < |p.fills| {
        assert q.fills[k] == p.fills[k];
      }
    }
  }

  /** A fill moves cash and position by exactly what it adds to the sums. */
  lemma {:induction false} FillKeepsBooks(p: Paper, i: nat, requested: uint64, timestamp: int64)
    requires (Ledgered(p) || Books(p)) && i < |p.orders| && p.orders[i].snapshot.filled <= requested
    ensures Sound(p) && Books(FillAt(p, i, requested, timestamp).0)
  {
    LedgeredIsSound(p);
    hide Ledgered, Settle, UpdatePeak, UniqueOrders, UniquePositions;
    var (r, fill) := FillAt(p, i, requested, timestamp);
    var order := p.orders[i];
    var next := order.(snapshot := order.snapshot.(filled := fill.cumulative,
                                                   status := if fill.cumulative == order.snapshot.quantity then Filled else PartiallyFilled));
    var moved := p.(sequence := p.sequence + 1, orders := p.orders[i := next]);
    FillIsSound(p, i, requested, timestamp);
    SettleIsExact(moved, fill.instrument, order.snapshot.side, fill.last, fill.price);
    SettleKeeps(moved, fill.instrument, order.snapshot.side, fill.last, fill.price);
    var settled := Settle(moved, fill.instrument, order.snapshot.side, fill.last, fill.price).(fills := p.fills + [fill]);
    PeakKeeps(settled);
    assert r == UpdatePeak(settled);
    BalancedAfterFill(p, r, i, fill);
    PeakIsAbove(settled);
  }

  lemma PeakIsAbove(p: Paper)
    ensures BelowPeak(UpdatePeak(p))
    ensures Ledgered(p) ==> Books(UpdatePeak(p))
  {
  }

  // ---------------------------------------------------------------- observations and runs

  lemma {:induction false} ObserveOrderKeepsBooks(p: Paper, i: nat, o: Observation)
    requires Ledgered(p) && i < |p.orders|
    ensures Sound(p) && Ledgered(ObserveOrder(p, i, o).0)
  {
    LedgeredIsSound(p);
    hide Ledgered, Sound, FillAt;
    var order := p.orders[i];
    var q := ObserveOrder(p, i, o).0;
    var seen := p.(orders := p.orders[i := order.(observedVolume := o.volume, volumeReset := false)]);
    ObserveOrderIsSound(p, i, o);
    SeenIsSound(p, i, order.(observedVolume := o.volume, volumeReset := false));
    ReplaceKeepsBooks(p, seen, i, seen.orders[i]);
    if Concerns(order, o) {
      if order.awaitingBaseline || o.volume < order.observedVolume {
        ReplaceKeepsBooks(p, q, i, q.orders[i]);
      } else if Trades(order, o) && Remaining(order) > 0 {
        FillKeepsBooks(seen, i, order.snapshot.quantity, o.receiveTime);
      }
    }
  }

  lemma {:induction false} SeenIsSound(p: Paper, i: nat, next: PaperOrder)
    requires Sound(p) && i < |p.orders| && next.request == p.orders[i].request && next.snapshot == p.orders[i].snapshot
    ensures Sound(p.(orders := p.orders[i := next]))
  {
  }

  lemma {:induction false} ObserveOrdersKeepsBooks(p: Paper, i: nat, o: Observation, generated: seq<Fill>)
    requires Ledgered(p) && i <= |p.orders|
    ensures Sound(p) && Books(ObserveOrders(p, i, o, generated).0)
    decreases |p.orders| - i
  {
    hide Books, Ledgered, Sound, ObserveOrder, UpdatePeak;
    LedgeredIsSound(p);
    if i == |p.orders| {
      PeakIsAbove(p);
    } else {
      ObserveOrderIsSound(p, i, o);
      ObserveOrderKeepsBooks(p, i, o);
      var step := ObserveOrder(p, i, o);
      var grown := if step.1.Some? then generated + [step.1.value] else generated;
      ObserveOrdersKeepsBooks(step.0, i + 1, o, grown);
      assert ObserveOrders(p, i, o, generated) == ObserveOrders(step.0, i + 1, o, grown);
    }
  }

  lemma {:induction false} ObserveKeepsBooks(p: Paper, o: Observation)
    requires Books(p)
    ensures Sound(p) && Books(Observe(p, o).0)
  {
    LedgeredIsSound(p);
    hide Sound, ObserveOrders, UpdatePeak, BelowPeak, Balanced, KnownFills, Accounted;
    if p.health.Ready? && Usable(o) {
      var marked := Marked(p, o);
      MarkedIsLedgered(p, o);
      PeakIsAbove(marked);
      if !p.scripted {
        ObserveOrdersKeepsBooks(marked, 0, o, []);
      }
    }
  }

  lemma MarkedIsLedgered(p: Paper, o: Observation)
    requires Ledgered(p)
    ensures Ledgered(Marked(p, o))
  {
  }

  // ---------------------------------------------------------------- every reachable state

  datatype Operation =
    | Placing(request: Request)
    | Modifying(orderId: string, quantity: uint64, limitPrice: uint64)
    | Cancelling(cancelled: string)
    | Observing(observation: Observation)
    | Scripting(event: ScriptEvent)

  ghost function Step(p: Paper, op: Operation): Paper
    requires Sound(p)
  {
    match op
    case Placing(request) => PlaceOrder(p, request).0
    case Modifying(id, quantity, limitPrice) => ModifyOrder(p, id, quantity, limitPrice).0
    case Cancelling(id) => CancelOrder(p, id).0
    case Observing(o) => Observe(p, o).0
    case Scripting(event) => ApplyScript(p, event).paper
  }

  lemma {:induction false} StatusKeepsBooks(p: Paper, i: nat, status: Status)
    requires Books(p) && i < |p.orders| && !status.Filled?
    ensures Books(WithStatus(p, i, status))
  {
    LedgeredIsSound(p);
    hide Ledgered;
    var q := WithStatus(p, i, status);
    ReplaceKeepsBooks(p, q, i, q.orders[i]);
  }

  lemma HealthIsFree(p: Paper, health: Health, scriptUpdates: seq<string>)
    requires Books(p)
    ensures Sound(p) && Books(p.(health := health, scriptUpdates := scriptUpdates))
  {
  }

  lemma {:induction false} ScriptToKeepsBooks(p: Paper, i: nat, event: ScriptEvent)
    requires Books(p) && i < |p.orders|
    ensures Sound(p) && Books(ApplyScriptTo(p, i, event).paper)
  {
    hide Books, Sound, FillAt, WithStatus;
    HealthIsFree(p, p.health, p.scriptUpdates);
    if event.kind.Reject? {
      StatusKeepsBooks(p, i, Rejected);
    } else if event.kind.Ambiguity? {
      StatusKeepsBooks(p, i, Undecided);
      var uncertain := WithStatus(p, i, Undecided);
      HealthIsFree(uncertain, Unknown, uncertain.scriptUpdates);
    } else if event.cumulative > p.orders[i].snapshot.filled {
      FillKeepsBooks(p, i, event.cumulative, event.timestamp);
    }
  }

  lemma {:induction false} ScriptKeepsBooks(p: Paper, event: ScriptEvent)
    requires Books(p)
    ensures Sound(p) && Books(ApplyScript(p, event).paper)
  {
    hide FindOrder, Books, Sound, ApplyScriptTo, FindPosition;
    var noted := p.(scriptUpdates := p.scriptUpdates + [event.updateId]);
    HealthIsFree(p, p.health, noted.scriptUpdates);
    HealthIsFree(p, Lost, noted.scriptUpdates);
    HealthIsFree(noted, p.health, noted.scriptUpdates);
    FindOrderFinds(p.orders, event.orderId);
    if FindOrder(p.orders, event.orderId).Some? {
      ScriptToKeepsBooks(noted, FindOrder(p.orders, event.orderId).value, event);
    }
  }

  lemma {:induction false} StepKeepsBooks(p: Paper, op: Operation)
    requires Books(p)
    ensures Sound(p) && Books(Step(p, op))
  {
    LedgeredIsSound(p);
    hide Books, Sound;
    match op
    case Placing(request) => PlaceKeepsBooks(p, request);
    case Modifying(id, quantity, limitPrice) => ModifyKeepsBooks(p, id, quantity, limitPrice);
    case Cancelling(id) => CancelKeepsBooks(p, id);
    case Observing(o) => ObserveKeepsBooks(p, o);
    case Scripting(event) => ScriptKeepsBooks(p, event);
  }

  /** Scripted events in turn, up to the first that throws. */
  ghost function ApplyScripts(p: Paper, events: seq<ScriptEvent>, generated: seq<Fill>): (Paper, Option<seq<Fill>>)
    requires Books(p)
    decreases |events|
  {
    if events == [] then (p, Some(generated))
    else
      ScriptKeepsBooks(p, events[0]);
      var step := ApplyScript(p, events[0]);
      if step.failed then (step.paper, None)
      else ApplyScripts(step.paper, events[1..], if step.fill.Some? then generated + [step.fill.value] else generated)
  }

  /** The state after some operations on a broker whose books are in order. */
  ghost function Run(p: Paper, ops: seq<Operation>): Paper
    requires Books(p)
    decreases |ops|
  {
    if ops == [] then p
    else
      StepKeepsBooks(p, ops[0]);
      Run(Step(p, ops[0]), ops[1..])
  }

  lemma {:induction false} RunKeepsBooks(p: Paper, ops: seq<Operation>)
    requires Books(p)
    ensures Books(Run(p, ops)) && Run(p, ops).peak >= p.peak
    decreases |ops|
  {
    hide Books, Step;
    if ops != [] {
      StepKeepsBooks(p, ops[0]);
      StepRaisesPeak(p, ops[0]);
      RunKeepsBooks(Step(p, ops[0]), ops[1..]);
    }
  }

  // ---------------------------------------------------------------- the peak over a run

  /** The highest of zero and the samples. */
  ghost function Highest(samples: seq<int64>): peak64 {
    if samples == [] then 0 else Max(Highest(samples[..|samples| - 1]), samples[|samples| - 1])
  }

  /** The peak is at least zero and every sample, and is one of them. */
  lemma {:induction false} HighestIsMaximum(samples: seq<int64>)
    ensures Highest(samples) >= 0 && forall i :: 0 <= i < |samples| ==> samples[i] <= Highest(samples)
    ensures Highest(samples) == 0 || Highest(samples) in samples
  {
    if samples != [] {
      HighestIsMaximum(samples[..|samples| - 1]);
    }
  }

  lemma {:induction false} HighestOfBoth(a: seq<int64>, b: seq<int64>)
    ensures Highest(a + b) == Max(Highest(a), Highest(b))
  {
    if b == [] {
      assert a + b == a;
    } else {
      assert (a + b)[..|a + b| - 1] == a + b[..|b| - 1];
      HighestOfBoth(a, b[..|b| - 1]);
    }
  }

  /** The equity of a state, when it can be computed. */
  ghost function Sample(p: Paper): seq<int64> {
    match Equity(p)
    case Some(equity) => [equity]
    case None => []
  }

  /** An observation samples equity after each fill that it causes, and at its end. */
  ghost function OrderSamples(p: Paper, i: nat, o: Observation): seq<int64>
    requires Sound(p) && i <= |p.orders|
    decreases |p.orders| - i
  {
    if i == |p.orders| then Sample(p)
    else
      var (next, fill) := ObserveOrder(p, i, o);
      ObserveOrderIsSound(p, i, o);
      (if fill.Some? then Sample(next) else []) + OrderSamples(next, i + 1, o)
  }

  ghost function ObservationSamples(p: Paper, o: Observation): seq<int64>
    requires Sound(p)
  {
    if !p.health.Ready? || !Usable(o) then []
    else if p.scripted then Sample(Marked(p, o))
    else OrderSamples(Marked(p, o), 0, o)
  }

  /** A scripted event samples equity after its fill. */
  ghost function ScriptSamples(step: ScriptStep): seq<int64> {
    if step.fill.Some? then Sample(step.paper) else []
  }

  ghost function StepSamples(p: Paper, op: Operation): seq<int64>
    requires Sound(p)
  {
    match op
    case Observing(o) => ObservationSamples(p, o)
    case Scripting(event) => ScriptSamples(ApplyScript(p, event))
    case _ => []
  }

  /** Every equity that the broker samples during a run, in order. */
  ghost function Samples(p: Paper, ops: seq<Operation>): seq<int64>
    requires Books(p)
    decreases |ops|
  {
    if ops == [] then []
    else
      StepKeepsBooks(p, ops[0]);
      StepSamples(p, ops[0]) + Samples(Step(p, ops[0]), ops[1..])
  }

  /** The equities that scripted events sample in turn, up to the first that throws. */
  ghost function ScriptsSamples(p: Paper, events: seq<ScriptEvent>): seq<int64>
    requires Books(p)
    decreases |events|
  {
    if events == [] then []
    else
      ScriptKeepsBooks(p, events[0]);
      var step := ApplyScript(p, events[0]);
      ScriptSamples(step) + if step.failed then [] else ScriptsSamples(step.paper, events[1..])
  }

  lemma ScriptsGoOn(p: Paper, events: seq<ScriptEvent>, generated: seq<Fill>)
    requires Books(p) && events != []
    ensures Sound(p)
    ensures var step := ApplyScript(p, events[0]);
            && Books(step.paper)
            && (step.failed ==>
                  && ApplyScripts(p, events, generated) == (step.paper, None)
                  && ScriptsSamples(p, events) == ScriptSamples(step))
            && (!step.failed ==>
                  && ApplyScripts(p, events, generated)
                     == ApplyScripts(step.paper, events[1..], if step.fill.Some? then generated + [step.fill.value] else generated)
                  && ScriptsSamples(p, events) == ScriptSamples(step) + ScriptsSamples(step.paper, events[1..]))
  {
    ScriptKeepsBooks(p, events[0]);
    hide Books, ApplyScript, ScriptSamples;
  }

  lemma ScriptsEnd(p: Paper, generated: seq<Fill>)
    requires Books(p)
    ensures ApplyScripts(p, [], generated) == (p, Some(generated)) && ScriptsSamples(p, []) == []
  {
  }

  lemma SampledPeak(p: Paper)
    ensures Sample(UpdatePeak(p)) == Sample(p) && UpdatePeak(p).peak == Max(p.peak, Highest(Sample(p)))
  {
    hide AddValues;
    if Equity(p).Some? {
      assert Sample(p)[..0] == [];
    }
  }

  lemma {:induction false} FillRaisesPeak(p: Paper, i: nat, requested: uint64, timestamp: int64)
    requires Sound(p) && i < |p.orders| && p.orders[i].snapshot.filled <= requested
    ensures var q := FillAt(p, i, requested, timestamp).0; q.peak == Max(p.peak, Highest(Sample(q)))
  {
    hide AddValues, FindPosition, SetQuantity, Quantity, Notional, Equity, UpdatePeak, Sample, Highest;
    var order := p.orders[i];
    var s := order.snapshot;
    var cumulative := Min(requested, s.quantity);
    var fill := FillOf(p, order, cumulative, timestamp);
    var next := order.(snapshot := s.(filled := cumulative, status := if cumulative == s.quantity then Filled else PartiallyFilled));
    SampledPeak(Settle(p.(sequence := p.sequence + 1, orders := p.orders[i := next]),
                       s.instrument, s.side, fill.last, fill.price).(fills := p.fills + [fill]));
  }

  lemma {:induction false} ObserveOrderRaisesPeak(p: Paper, i: nat, o: Observation)
    requires Sound(p) && i < |p.orders|
    ensures var (q, fill) := ObserveOrder(p, i, o);
            q.peak == Max(p.peak, Highest(if fill.Some? then Sample(q) else []))
  {
    hide AddValues, Settle, Sample;
    var order := p.orders[i];
    var seen := p.(orders := p.orders[i := order.(observedVolume := o.volume, volumeReset := false)]);
    if Trades(order, o) && Remaining(order) > 0 {
      FillRaisesPeak(seen, i, order.snapshot.quantity, o.receiveTime);
    }
  }

  lemma {:induction false} ObserveOrdersRaisesPeak(p: Paper, i: nat, o: Observation, generated: seq<Fill>)
    requires Sound(p) && i <= |p.orders|
    ensures ObserveOrders(p, i, o, generated).0.peak == Max(p.peak, Highest(OrderSamples(p, i, o)))
    decreases |p.orders| - i
  {
    hide ObserveOrder, Sound, AddValues, UpdatePeak, Highest, Sample;
    if i < |p.orders| {
      ObserveOrderIsSound(p, i, o);
      ObserveOrderRaisesPeak(p, i, o);
      var (next, fill) := ObserveOrder(p, i, o);
      ObserveOrdersRaisesPeak(next, i + 1, o, if fill.Some? then generated + [fill.value] else generated);
      HighestOfBoth(if fill.Some? then Sample(next) else [], OrderSamples(next, i + 1, o));
    } else {
      SampledPeak(p);
    }
  }

  /** A step raises the peak to the highest equity that it samples, and no further. */
  lemma {:induction false} StepRaisesPeak(p: Paper, op: Operation)
    requires Sound(p)
    ensures Step(p, op).peak == Max(p.peak, Highest(StepSamples(p, op)))
  {
    hide FindOrder, AddValues, ObserveOrders, FillAt, Marked, UpdatePeak, OrderSamples, Sample;
    match op
    case Observing(o) =>
      if p.health.Ready? && Usable(o) {
        MarkedKeepsPeak(p, o);
        if !p.scripted {
          ObserveOrdersRaisesPeak(Marked(p, o), 0, o, []);
        } else {
          SampledPeak(Marked(p, o));
        }
      }
    case Scripting(event) =>
      FindOrderFinds(p.orders, event.orderId);
      var noted := p.(scriptUpdates := p.scriptUpdates + [event.updateId]);
      var at := FindOrder(p.orders, event.orderId);
      if at.Some? && event.cumulative > p.orders[at.value].snapshot.filled {
        FillRaisesPeak(noted, at.value, event.cumulative, event.timestamp);
      }
    case _ =>
  }

  lemma MarkedKeepsPeak(p: Paper, o: Observation)
    requires Sound(p)
    ensures Sound(Marked(p, o)) && Marked(p, o).peak == p.peak
  {
  }

  /** Main result: the peak after any run is the highest of the peak before it and every equity sampled. */
  lemma {:induction false} PeakIsHighestSample(p: Paper, ops: seq<Operation>)
    requires Books(p)
    ensures Run(p, ops).peak == Max(p.peak, Highest(Samples(p, ops)))
    decreases |ops|
  {
    hide Books, Step, StepSamples, Highest;
    if ops == [] {
      HighestIsMaximum([]);
    } else {
      StepKeepsBooks(p, ops[0]);
      StepRaisesPeak(p, ops[0]);
      PeakIsHighestSample(Step(p, ops[0]), ops[1..]);
      HighestOfBoth(StepSamples(p, ops[0]), Samples(Step(p, ops[0]), ops[1..]));
    }
  }

  /** Main result: whatever a new broker has been through, a profit and loss it reports is that of the exact
      equity of all its fills, against the highest of zero and every equity it sampled; the equity is not above
      that peak, and each order has filled what its fills say. */
  lemma {:induction false} ReachablePnlIsExact(scripted: bool, ops: seq<Operation>)
    ensures Books(EmptyPaper(scripted))
    ensures var p := Run(EmptyPaper(scripted), ops);
            var equity := FillCash(p.orders, p.fills) + MarkedValue(p.positions, p.marks);
            var peak := Highest(Samples(EmptyPaper(scripted), ops));
            && Accounted(p) && p.peak == peak
            && (QueryPnl(p).Some? ==>
                  && QueryPnl(p).value.loss == Max(0, -equity)
                  && QueryPnl(p).value.drawdown == peak - equity
                  && equity <= peak
                  && forall instrument ::
                       Quantity(p.positions, instrument) == FillPosition(p.orders, p.fills, instrument))
  {
    hide QueryPnl, Run, BelowPeak, Balanced, KnownFills, FillPosition, FillCash, MarkedValue, Quantity, Samples, Highest;
    EmptyBooks(scripted);
    RunKeepsBooks(EmptyPaper(scripted), ops);
    PeakIsHighestSample(EmptyPaper(scripted), ops);
    if QueryPnl(Run(EmptyPaper(scripted), ops)).Some? {
      PnlIsExact(Run(EmptyPaper(scripted), ops));
    }
  }
}
