/**
 Two runs of a paper broker that show what the inventory results do not promise: two sells that are approved
 on one snapshot sell a position short, and a position that is closed stays in the broker's report.
*/
module Overselling {
  import opened Base
  import opened Risk
  import opened PaperBroker
  import opened PaperAccounting
  import opened Mirror
  import opened Capture
  import Inventory
  import OrderStateMachine

  // ---------------------------------------------------------------- one unit is bought

  function TheRoute(): Route {
    Route("I", "T", 1, 1)
  }

  function Buy(): Request {
    Request("a", "i", TheRoute(), OrderStateMachine.Buy, 1, 10, 0, 0)
  }

  function SellRequest(orderId: string): Request {
    Request(orderId, orderId, TheRoute(), OrderStateMachine.Sell, 1, 10, 2, 5)
  }

  /** Every price is ten. */
  function Quote(volume: uint64, time: int64): Observation {
    Observation("I", Some(10), Some(10), Some(10), volume, None, time, true, true, false, false, false)
  }

  function Ticked(volume: uint64, time: int64): Mark {
    Mark(Some(10), Some(10), Some(10), time)
  }

  function Snapped(r: Request, filled: uint64, status: Status): OrderSnapshot {
    OrderSnapshot(r.orderId, "I", "T", r.side, 1, 10, filled, status)
  }

  function FillAs(n: nat, r: Request, time: int64): Fill {
    Fill(PaperId(n), r.orderId, "I", "T", 1, 1, 10, time)
  }

  /** The broker holds one unit. */
  function Holding(): Paper {
    Paper(false, Ready, 2, [PaperOrder(Buy(), Snapped(Buy(), 1, Filled), 5, false, false)], [FillAs(2, Buy(), 1)],
          [Position("I", 1)], [], map["I" := Ticked(5, 1)], -10, 0, 1, true)
  }

  lemma EquityOfHolding()
    ensures Equity(Holding()) == Some(0)
  {
    assert [Position("I", 1)][1..] == [];
    assert AddValues([], Holding().marks, 0) == Some(0);
  }

  /** A fill of one unit, step by step. */
  lemma {:induction false} OneUnitFills(p: Paper, i: nat, r: Request, time: int64, positions: seq<Position>, cash: int64)
    requires i < |p.orders| && p.orders[i].snapshot == Snapped(r, 0, Working) && r.quantity == 1
    requires p.pnlValid && p.peak == 0
    requires var delta := SignedFill(r.side, 1);
             && CheckedAdd(Quantity(p.positions, "I"), delta) == Some(Quantity(p.positions, "I") + delta)
             && SetQuantity(p.positions, "I", Quantity(p.positions, "I") + delta) == positions
             && CheckedAdd(p.cash, if r.side.Buy? then -10 else 10) == Some(cash)
    requires AddValues(positions, p.marks, cash) == Some(0)
    ensures FillAt(p, i, 1, time)
            == (p.(sequence := p.sequence + 1, orders := p.orders[i := p.orders[i].(snapshot := Snapped(r, 1, Filled))],
                   positions := positions, cash := cash, fills := p.fills + [FillAs(p.sequence + 1, r, time)]),
                FillAs(p.sequence + 1, r, time))
  {
    hide PaperId, AddValues, SetQuantity, Quantity;
    var q := p.(sequence := p.sequence + 1, orders := p.orders[i := p.orders[i].(snapshot := Snapped(r, 1, Filled))]);
    assert Notional(1, 10) == Some(10);
    assert Settle(q, "I", r.side, 1, 10) == q.(positions := positions, cash := cash);
  }

  lemma {:induction false} BuyFills(p: Paper)
    requires p == Paper(false, Ready, 1, [PaperOrder(Buy(), Snapped(Buy(), 0, Working), 5, false, false)], [], [], [],
                        map["I" := Ticked(5, 1)], 0, 0, 1, true)
    ensures FillAt(p, 0, 1, 1) == (Holding(), FillAs(2, Buy(), 1))
  {
    hide PaperId, AddValues;
    EquityOfHolding();
    assert SetQuantity([], "I", 1) == [Position("I", 1)];
    OneUnitFills(p, 0, Buy(), 1, [Position("I", 1)], -10);
    assert p.orders[0 := p.orders[0].(snapshot := Snapped(Buy(), 1, Filled))] == Holding().orders;
    assert p.fills + [FillAs(2, Buy(), 1)] == Holding().fills;
  }

  lemma {:induction false} BuyingHolds()
    ensures Sound(PlaceOrder(EmptyPaper(false), Buy()).0)
    ensures Observe(PlaceOrder(EmptyPaper(false), Buy()).0, Quote(5, 1)).0 == Holding()
  {
    hide PaperId;
    var placed := PlaceOrder(EmptyPaper(false), Buy()).0;
    PlaceIsSound(EmptyPaper(false), Buy());
    var order := Inventory.Placed(Buy());
    assert placed.orders == [order] && placed.positions == [] && placed.sequence == 1;
    var marked := Marked(placed, Quote(5, 1));
    assert marked == placed.(latest := 1, marks := map["I" := Ticked(5, 1)]);
    var seen := marked.(orders := [order.(observedVolume := 5)]);
    assert marked.orders[0 := order.(observedVolume := 5, volumeReset := false)] == seen.orders;
    BuyFills(seen);
    assert ObserveOrder(marked, 0, Quote(5, 1)) == (Holding(), Some(FillAs(2, Buy(), 1)));
    ObserveOrderIsSound(marked, 0, Quote(5, 1));
    EquityOfHolding();
    assert ObserveOrders(Holding(), 1, Quote(5, 1), [FillAs(2, Buy(), 1)]).0 == Holding();
  }

  // ---------------------------------------------------------------- two sells are approved on one snapshot

  function Limits(): Config {
    Config(100, 0, 0, 10, 10, 1000, 10, 10, 1, 1000, 1000, None, None, None)
  }

  function Sell(intentId: string): Intent {
    Intent(intentId, "s", "r", "e", 0, 100, "I", Place, None, Some(OrderStateMachine.Sell), Some(1), Some(10), true)
  }

  function Calm(): Capture.Standing {
    Standing(false, true, false, true, Verified, true, 0, 1, [], None, Some(Pnl(0, 0, 1)))
  }

  function AtTwo(): Context {
    Context("I", Some(TheRoute()), map["I" := TheRoute()], map["I" := Quote(5, 1)], 2, 100)
  }

  lemma {:induction false} SellIsApproved(intentId: string)
    ensures Approved(Evaluate(Limits(), Sell(intentId), Snap(Holding(), Sell(intentId), Calm(), AtTwo())))
  {
    hide Evaluate, PaperId;
    var intent := Sell(intentId);
    var s := Snap(Holding(), intent, Calm(), AtTwo());
    PositionIsSeen();
    OrderIsSeen(intent.target);
    ApprovedIff(Limits(), intent, s);
    assert Recent([], WindowStart(Limits(), 2), 2) == 0;
    assert s.instrumentPosition == 1 && s.tokenPosition == 1 && s.currentGross == 10 && s.workingOrders == [];
    assert ProjectWorking(intent, [], 1) == Running(1, false) && GrossWorking(intent, [], 10) == Gross(10, false);
  }

  lemma PositionIsSeen()
    ensures SeePositions(QueryPositions(Holding()), AtTwo()) == PositionView(false, true, true, 1, 1, 10, {"I"}, {"T"})
  {
    var xs := QueryPositions(Holding());
    assert xs == [HeldPosition("I", "T", 1)];
    assert xs[..0] == [];
    assert {} + {"I"} == {"I"} && {} + {"T"} == {"T"};
  }

  lemma OrderIsSeen(target: Option<string>)
    requires target.None?
    ensures SeeOrders(QueryOrders(Holding()), Some(TheRoute()), target, AtTwo().routes) == NO_ORDERS.(ids := {"a"})
  {
    var xs := QueryOrders(Holding());
    assert xs == [Snapped(Buy(), 1, Filled)];
    assert xs[..0] == [];
    assert {} + {"a"} == {"a"};
  }

  // ---------------------------------------------------------------- and both are filled

  function Bought(): PaperOrder {
    Holding().orders[0]
  }

  function SellOrder(orderId: string, volume: uint64, filled: uint64, status: Status): PaperOrder {
    PaperOrder(SellRequest(orderId), Snapped(SellRequest(orderId), filled, status), volume, false, false)
  }

  /** The state with one unit less. */
  function Reduced(p: Paper, i: nat, orderId: string, held: int64, cash: int64): Paper
    requires i < |p.orders|
  {
    p.(sequence := p.sequence + 1, orders := p.orders[i := SellOrder(orderId, 6, 1, Filled)],
       positions := [Position("I", held)], cash := cash, fills := p.fills + [FillAs(p.sequence + 1, SellRequest(orderId), 3)])
  }

  lemma EquityIsZero(held: int64, cash: int64, marks: map<string, Mark>)
    requires (held == 0 && cash == 0) || (held == -1 && cash == 10)
    requires marks == map["I" := Ticked(6, 3)]
    ensures AddValues([Position("I", held)], marks, cash) == Some(0)
  {
    assert [Position("I", held)][1..] == [];
    assert AddValues([], marks, 0) == Some(0);
  }

  /** A working sell of one unit sees the second quote. */
  lemma {:induction false} SellFills(p: Paper, i: nat, orderId: string, held: int64, cash: int64)
    requires Sound(p) && i < |p.orders| && p.orders[i] == SellOrder(orderId, 5, 0, Working) && p.pnlValid && p.peak == 0
    requires p.marks == map["I" := Ticked(6, 3)] && p.positions == [Position("I", held)] && p.cash == cash
    requires (held == 1 && cash == -10) || (held == 0 && cash == 0)
    ensures ObserveOrder(p, i, Quote(6, 3))
            == (Reduced(p, i, orderId, held - 1, cash + 10), Some(FillAs(p.sequence + 1, SellRequest(orderId), 3)))
  {
    hide PaperId, AddValues, Sound;
    var seen := p.(orders := p.orders[i := SellOrder(orderId, 6, 0, Working)]);
    EquityIsZero(held - 1, cash + 10, p.marks);
    assert SetQuantity([Position("I", held)], "I", held - 1) == [Position("I", held - 1)];
    OneUnitFills(seen, i, SellRequest(orderId), 3, [Position("I", held - 1)], cash + 10);
    assert seen.orders[i := SellOrder(orderId, 6, 1, Filled)] == p.orders[i := SellOrder(orderId, 6, 1, Filled)];
  }

  function Promised(): Paper {
    Holding().(sequence := 4, orders := [Bought(), SellOrder("b", 5, 0, Working), SellOrder("c", 5, 0, Working)])
  }

  lemma {:induction false} PlacingPromises()
    ensures PlaceOrder(PlaceOrder(Holding(), SellRequest("b")).0, SellRequest("c")).0 == Promised()
    ensures Sound(Holding()) && Sound(Promised())
  {
    hide PaperId;
    BuyingHolds();
    ObserveIsSound(PlaceOrder(EmptyPaper(false), Buy()).0, Quote(5, 1));
    PlaceIsSound(Holding(), SellRequest("b"));
    var one := PlaceOrder(Holding(), SellRequest("b")).0;
    assert one == Holding().(sequence := 3, orders := [Bought(), SellOrder("b", 5, 0, Working)]) by {
      assert [Bought()][1..] == [];
    }
    PlaceIsSound(one, SellRequest("c"));
    assert one.orders[1..] == [SellOrder("b", 5, 0, Working)] && one.orders[1..][1..] == [];
    assert PlaceOrder(one, SellRequest("c")).0.orders == Promised().orders;
  }

  lemma {:induction false} BothFill()
    ensures Sound(Promised()) && Observe(Promised(), Quote(6, 3)).0.positions == [Position("I", -1)]
  {
    hide PaperId, Sound, ObserveOrder, UpdatePeak;
    PlacingPromises();
    var o := Quote(6, 3);
    var p := Marked(Promised(), o);
    assert p == Promised().(latest := 3, marks := map["I" := Ticked(6, 3)]);
    MarkedIsSound(Promised(), o);
    assert ObserveOrder(p, 0, o) == (p, None) by { EndedSeesNothing(p, 0, o); }
    SellFills(p, 1, "b", 1, -10);
    ObserveOrderIsSound(p, 1, o);
    var q := Reduced(p, 1, "b", 0, 0);
    SellFills(q, 2, "c", 0, 0);
    ObserveOrderIsSound(q, 2, o);
    var r := Reduced(q, 2, "c", -1, 10);
    ThreeOrders(p, q, r, o);
    assert UpdatePeak(r).positions == r.positions by { PeakLeavesPositions(r); }
  }

  lemma PeakLeavesPositions(p: Paper)
    ensures UpdatePeak(p).positions == p.positions
  {
    hide AddValues;
  }

  lemma MarkedIsSound(p: Paper, o: Observation)
    requires Sound(p)
    ensures Sound(Marked(p, o))
  {
  }

  lemma EndedSeesNothing(p: Paper, i: nat, o: Observation)
    requires Sound(p) && i < |p.orders| && Ended(p.orders[i].snapshot.status)
    ensures ObserveOrder(p, i, o) == (p, None)
  {
  }

  lemma ThreeOrders(p: Paper, q: Paper, r: Paper, o: Observation)
    requires Sound(p) && Sound(q) && Sound(r) && |p.orders| == |q.orders| == |r.orders| == 3
    requires ObserveOrder(p, 0, o) == (p, None) && ObserveOrder(p, 1, o).0 == q && ObserveOrder(q, 2, o).0 == r
    ensures ObserveOrders(p, 0, o, []).0 == UpdatePeak(r)
  {
    hide Sound, ObserveOrder, UpdatePeak;
    var f, g := ObserveOrder(p, 1, o).1, ObserveOrder(q, 2, o).1;
    var one := if f.Some? then [f.value] else [];
    var two := if g.Some? then one + [g.value] else one;
    assert [] + one == one;
    assert ObserveOrders(r, 3, o, two).0 == UpdatePeak(r);
    assert ObserveOrders(q, 2, o, one) == ObserveOrders(r, 3, o, two);
    assert ObserveOrders(p, 1, o, []) == ObserveOrders(q, 2, o, one);
  }

  /** Main result: a run from an empty broker to a state on whose snapshot two sells are both approved, and on to a
      position below zero once both were placed and filled. */
  lemma {:induction false} TogetherTheyOversell()
    ensures Inventory.RequestOf(Sell("b"), "b", TheRoute(), 2, 5) == SellRequest("b")
    ensures Inventory.RequestOf(Sell("c"), "c", TheRoute(), 2, 5) == SellRequest("c")
    ensures Sound(PlaceOrder(EmptyPaper(false), Buy()).0)
    ensures Observe(PlaceOrder(EmptyPaper(false), Buy()).0, Quote(5, 1)).0 == Holding()
    ensures Approved(Evaluate(Limits(), Sell("b"), Snap(Holding(), Sell("b"), Calm(), AtTwo())))
    ensures Approved(Evaluate(Limits(), Sell("c"), Snap(Holding(), Sell("c"), Calm(), AtTwo())))
    ensures PlaceOrder(PlaceOrder(Holding(), SellRequest("b")).0, SellRequest("c")).0 == Promised() && Sound(Promised())
    ensures Quantity(Observe(Promised(), Quote(6, 3)).0.positions, "I") == -1
  {
    hide Evaluate, Approved, Snap, Observe, PlaceOrder, Sound;
    BuyingHolds();
    SellIsApproved("b");
    SellIsApproved("c");
    PlacingPromises();
    BothFill();
  }

  // ---------------------------------------------------------------- a closed position

  function OneSold(): Paper {
    Holding().(sequence := 3, orders := [Bought(), SellOrder("b", 5, 0, Working)])
  }

  lemma {:induction false} OneFills()
    ensures Sound(PlaceOrder(Holding(), SellRequest("b")).0)
    ensures Observe(PlaceOrder(Holding(), SellRequest("b")).0, Quote(6, 3)).0.positions == [Position("I", 0)]
  {
    hide PaperId, Sound, ObserveOrder, UpdatePeak;
    PlacingPromises();
    PlaceIsSound(Holding(), SellRequest("b"));
    assert PlaceOrder(Holding(), SellRequest("b")).0 == OneSold() by {
      assert [Bought()][1..] == [];
    }
    var o := Quote(6, 3);
    var p := Marked(OneSold(), o);
    assert p == OneSold().(latest := 3, marks := map["I" := Ticked(6, 3)]);
    MarkedIsSound(OneSold(), o);
    assert ObserveOrder(p, 0, o) == (p, None) by { EndedSeesNothing(p, 0, o); }
    SellFills(p, 1, "b", 1, -10);
    ObserveOrderIsSound(p, 1, o);
    var q := Reduced(p, 1, "b", 0, 0);
    TwoOrders(p, q, o);
    assert UpdatePeak(q).positions == q.positions by { PeakLeavesPositions(q); }
  }

  lemma TwoOrders(p: Paper, q: Paper, o: Observation)
    requires Sound(p) && Sound(q) && |p.orders| == |q.orders| == 2
    requires ObserveOrder(p, 0, o) == (p, None) && ObserveOrder(p, 1, o).0 == q
    ensures ObserveOrders(p, 0, o, []).0 == UpdatePeak(q)
  {
    hide Sound, ObserveOrder, UpdatePeak;
    var f := ObserveOrder(p, 1, o).1;
    var one := if f.Some? then [f.value] else [];
    assert [] + one == one;
    assert ObserveOrders(q, 2, o, one).0 == UpdatePeak(q);
    assert ObserveOrders(p, 1, o, []) == ObserveOrders(q, 2, o, one);
  }

  /** Main result: a run from an empty broker that buys one unit and sells it ends with a position of zero in the
      report, after which no order and no modification of any instrument is approved. */
  lemma {:induction false} ClosingStopsTrading(config: Config, intent: Intent, standing: Capture.Standing, c: Context)
    requires !intent.action.Cancel?
    ensures Books(EmptyPaper(false))
    ensures var p := Run(EmptyPaper(false), [Placing(Buy()), Observing(Quote(5, 1)), Placing(SellRequest("b")), Observing(Quote(6, 3))]);
            p.positions == [Position("I", 0)] && !Approved(Evaluate(config, intent, Snap(p, intent, standing, c)))
  {
    hide Evaluate, Approved, Snap, Observe, PlaceOrder, Sound, Books;
    EmptyBooks(false);
    BuyingHolds();
    OneFills();
    var p := EmptyPaper(false);
    var a, b, d, e := Placing(Buy()), Observing(Quote(5, 1)), Placing(SellRequest("b")), Observing(Quote(6, 3));
    StepKeepsBooks(p, a);
    var p1 := Step(p, a);
    StepKeepsBooks(p1, b);
    var p2 := Step(p1, b);
    assert p2 == Holding();
    StepKeepsBooks(p2, d);
    var p3 := Step(p2, d);
    StepKeepsBooks(p3, e);
    var p4 := Step(p3, e);
    assert [a, b, d, e][1..] == [b, d, e] && [b, d, e][1..] == [d, e] && [d, e][1..] == [e] && [e][1..] == [];
    assert Run(p4, []) == p4 && Run(p3, [e]) == p4 && Run(p2, [d, e]) == p4 && Run(p1, [b, d, e]) == p4;
    Inventory.ClosedPositionStopsTrading(p4, config, intent, standing, c, 0);
  }
}
