/**
 The paper broker as the program holds it: an object whose methods update its orders, positions, marks,
 cash and peak in place, proved against the functions on its state.
*/
module PaperProgram {
  import opened Base
  import opened Risk
  import opened PaperBroker
  import PaperAccounting

  class Broker {
    const scripted: bool
    var health: Health
    var sequence: nat
    var orders: seq<PaperOrder>
    var fills: seq<Fill>
    var positions: seq<Position>
    var scriptUpdates: seq<string>
    var marks: map<string, Mark>
    var cash: int64
    var peak: peak64
    var latest: int64
    var pnlValid: bool

    /** Every equity that was sampled, in order. */
    ghost var samples: seq<int64>

    ghost function State(): Paper
      reads this
    {
      Paper(scripted, health, sequence, orders, fills, positions, scriptUpdates, marks, cash, peak, latest, pnlValid)
    }

    /** The books are in order, and the peak is the highest of zero and every sample. */
    ghost predicate Valid()
      reads this
    {
      PaperAccounting.Books(State()) && peak == PaperAccounting.Highest(samples)
    }

    constructor (scripted: bool)
      ensures Valid() && State() == EmptyPaper(scripted) && samples == []
    {
      this.scripted := scripted;
      health, sequence, orders, fills, positions, scriptUpdates := Ready, 0, [], [], [], [];
      marks, cash, peak, latest, pnlValid, samples := map[], 0, 0, 0, true, [];
      new;
      PaperAccounting.EmptyBooks(scripted);
    }

    method NextCorrelationId() returns (id: string)
      modifies this`sequence
      ensures sequence == old(sequence) + 1 && id == PaperId(sequence)
    {
      sequence := sequence + 1;
      id := PaperId(sequence);
    }

    method FindOrderIndex(id: string) returns (found: Option<nat>)
      ensures found == FindOrder(orders, id)
      ensures found.Some? ==> found.value < |orders| && orders[found.value].snapshot.orderId == id
    {
      found := LookUp(orders, id);
      FindOrderFinds(orders, id);
    }

    method Place(r: Request) returns (m: Mutation)
      requires Valid()
      modifies this
      ensures Valid() && (State(), m) == PlaceOrder(old(State()), r) && samples == old(samples)
    {
      hide FindOrder, InsertOrder, PaperId, PaperAccounting.Books;
      PaperAccounting.PlaceKeepsBooks(State(), r);
      if !health.Ready? {
        var _ := NextCorrelationId();
        return Mutation(Unclear, r.orderId, None, Some(SessionUnavailable), false, None, None);
      }
      var existing := FindOrderIndex(r.orderId);
      if r.orderId == "" || r.quantity == 0 || r.quantity > INT64_MAX || r.limitPrice == 0
         || r.route.instrument == "" || existing.Some? {
        var _ := NextCorrelationId();
        return Mutation(Refused, r.orderId, None, Some(PlaceRejected), false, None, None);
      }
      var correlation := NextCorrelationId();
      var snapshot := OrderSnapshot(r.orderId, r.route.instrument, r.route.token, r.side, r.quantity,
                                    r.limitPrice, 0, Working);
      orders := InsertOrder(orders, PaperOrder(r, snapshot, r.baseline, false, false));
      m := Mutation(Acknowledged, r.orderId, Some(correlation), None, false, None, None);
    }

    method Modify(id: string, quantity: uint64, limitPrice: uint64) returns (m: Mutation)
      requires Valid()
      modifies this
      ensures Valid() && (State(), m) == ModifyOrder(old(State()), id, quantity, limitPrice) && samples == old(samples)
    {
      hide FindOrder, PaperId, PaperAccounting.Books;
      PaperAccounting.ModifyKeepsBooks(State(), id, quantity, limitPrice);
      if !health.Ready? {
        var _ := NextCorrelationId();
        return Mutation(Unclear, id, None, Some(SessionUnavailable), false, None, None);
      }
      var found := FindOrderIndex(id);
      if found.None? || Ended(orders[found.value].snapshot.status)
         || quantity < orders[found.value].snapshot.filled || quantity == 0 || quantity > INT64_MAX || limitPrice == 0 {
        var _ := NextCorrelationId();
        return Mutation(Refused, id, None, Some(ModifyRejected), false, None, None);
      }
      var order := orders[found.value];
      orders := orders[found.value := order.(request := order.request.(quantity := quantity, limitPrice := limitPrice),
                                             snapshot := order.snapshot.(quantity := quantity, limitPrice := limitPrice))];
      var correlation := NextCorrelationId();
      m := Mutation(Acknowledged, id, Some(correlation), None, false, Some(quantity), Some(limitPrice));
    }

    method Cancel(id: string) returns (m: Mutation)
      requires Valid()
      modifies this
      ensures Valid() && (State(), m) == CancelOrder(old(State()), id) && samples == old(samples)
    {
      hide FindOrder, PaperId, PaperAccounting.Books;
      PaperAccounting.CancelKeepsBooks(State(), id);
      if !health.Ready? {
        var _ := NextCorrelationId();
        return Mutation(Unclear, id, None, Some(SessionUnavailable), false, None, None);
      }
      var found := FindOrderIndex(id);
      if found.None? {
        var _ := NextCorrelationId();
        return Mutation(Refused, id, None, Some(UnknownTarget), false, None, None);
      }
      var order := orders[found.value];
      if !order.snapshot.status.Cancelled? {
        if Ended(order.snapshot.status) {
          var _ := NextCorrelationId();
          return Mutation(Refused, id, None, Some(TerminalTarget), false, None, None);
        }
        orders := orders[found.value := order.(snapshot := order.snapshot.(status := Cancelled))];
      }
      var correlation := NextCorrelationId();
      m := Mutation(Acknowledged, id, Some(correlation), None, true, None, None);
    }

    method EquityPaise() returns (equity: Option<int64>)
      ensures equity == Equity(State())
    {
      if !pnlValid {
        return None;
      }
      hide Notional, CheckedAdd, Price;
      var sum := cash;
      for i := 0 to |positions|
        invariant AddValues(positions, marks, cash) == AddValues(positions[i..], marks, sum)
      {
        assert positions[i..][1..] == positions[i + 1..];
        var quantity := positions[i].quantity;
        if quantity != 0 {
          if positions[i].instrument !in marks {
            return None;
          }
          var price := Price(marks[positions[i].instrument], quantity);
          if price == 0 {
            return None;
          }
          var notional := Notional(Absolute(quantity), price);
          if notional.None? {
            return None;
          }
          var updated := CheckedAdd(sum, if quantity > 0 then notional.value else -notional.value);
          if updated.None? {
            return None;
          }
          sum := updated.value;
        }
      }
      equity := Some(sum);
    }

    method UpdatePeakEquity()
      requires peak == PaperAccounting.Highest(samples)
      modifies this`peak, this`samples
      ensures State() == UpdatePeak(old(State())) && peak == PaperAccounting.Highest(samples)
      ensures samples == old(samples) + PaperAccounting.Sample(old(State())) == old(samples) + PaperAccounting.Sample(State())
    {
      hide AddValues;
      var equity := EquityPaise();
      if equity.Some? {
        peak := Max(peak, equity.value);
        ghost var before := samples;
        samples := samples + [equity.value];
        assert samples[..|before|] == before;
      }
    }

    /** Moves position and cash by a fill; a sum that overflows makes the books unusable. */
    method SettleFill(instrument: string, side: Side, quantity: uint64, price: uint64)
      requires quantity <= INT64_MAX
      modifies this`positions, this`health, this`pnlValid, this`cash
      ensures State() == Settle(old(State()), instrument, side, quantity, price)
    {
      hide Quantity, SetQuantity;
      var position := Quantity(positions, instrument);
      var updated := CheckedAdd(position, SignedFill(side, quantity));
      if updated.None? {
        positions := SetQuantity(positions, instrument, position);
        health, pnlValid := Lost, false;
      } else {
        positions := SetQuantity(positions, instrument, updated.value);
        var notional := Notional(quantity, price);
        if notional.None? {
          pnlValid := false;
        } else {
          var total := CheckedAdd(cash, if side.Buy? then -notional.value else notional.value);
          if total.None? {
            pnlValid := false;
          } else {
            cash := total.value;
          }
        }
      }
    }

    /** Fills the order at `i` up to `requested`. */
    method FillOrder(i: nat, requested: uint64, timestamp: int64) returns (fill: Fill)
      requires PaperAccounting.Ledgered(State()) && peak == PaperAccounting.Highest(samples)
      requires i < |orders| && orders[i].snapshot.filled <= requested
      modifies this
      ensures Sound(old(State())) && (State(), fill) == FillAt(old(State()), i, requested, timestamp)
      ensures Valid() && samples == old(samples) + PaperAccounting.Sample(State())
    {
      hide PaperAccounting.Ledgered, UpdatePeak, PaperAccounting.BelowPeak, Settle, PaperId, PaperAccounting.Sample,
           UniqueOrders, UniquePositions;
      PaperAccounting.LedgeredIsSound(State());
      PaperAccounting.FillKeepsBooks(State(), i, requested, timestamp);
      var order := orders[i];
      var cumulative := Min(requested, order.snapshot.quantity);
      var correlation := NextCorrelationId();
      fill := Fill(correlation, order.snapshot.orderId, order.snapshot.instrument, order.snapshot.token, cumulative,
                   cumulative - order.snapshot.filled, order.snapshot.limitPrice, timestamp);
      var status := if cumulative == order.snapshot.quantity then Filled else PartiallyFilled;
      orders := orders[i := order.(snapshot := order.snapshot.(filled := cumulative, status := status))];
      SettleFill(order.snapshot.instrument, order.snapshot.side, fill.last, fill.price);
      fills := fills + [fill];
      UpdatePeakEquity();
    }

    method AcceptObservation(o: Observation) returns (generated: seq<Fill>)
      requires Valid()
      modifies this
      ensures Sound(old(State()))
      ensures Valid() && (State(), generated) == Observe(old(State()), o)
      ensures samples == old(samples) + PaperAccounting.ObservationSamples(old(State()), o)
    {
      hide PaperAccounting.Ledgered, PaperAccounting.BelowPeak, ObserveOrder, UpdatePeak, Sound, PaperAccounting.Sample;
      PaperAccounting.LedgeredIsSound(State());
      PaperAccounting.ObserveKeepsBooks(State(), o);
      generated := [];
      if !health.Ready? || !Usable(o) {
        return;
      }
      ghost var start := State();
      latest := Max(latest, o.receiveTime);
      if o.instrument !in marks || o.receiveTime >= marks[o.instrument].timestamp {
        marks := marks[o.instrument := Mark(o.bestBid, o.bestAsk, o.lastTrade, o.receiveTime)];
      }
      PaperAccounting.MarkedIsLedgered(start, o);
      ghost var marked := State();
      assert marked == Marked(start, o);
      if scripted {
        UpdatePeakEquity();
        return;
      }
      PaperAccounting.LedgeredIsSound(marked);
      generated := SeeOrders(o);
    }

    /** Shows an observation to every order in turn. */
    method SeeOrders(o: Observation) returns (generated: seq<Fill>)
      requires PaperAccounting.Ledgered(State()) && Sound(State()) && peak == PaperAccounting.Highest(samples)
      modifies this
      ensures Sound(old(State())) && (State(), generated) == ObserveOrders(old(State()), 0, o, [])
      ensures samples == old(samples) + PaperAccounting.OrderSamples(old(State()), 0, o)
      ensures peak == PaperAccounting.Highest(samples)
    {
      hide PaperAccounting.Ledgered, ObserveOrder, UpdatePeak, Sound, PaperAccounting.Sample, PaperAccounting.Highest;
      ghost var marked := State();
      generated := [];
      var i := 0;
      while i < |orders|
        invariant i <= |orders| && PaperAccounting.Ledgered(State()) && Sound(State()) && Sound(marked)
        invariant peak == PaperAccounting.Highest(samples)
        invariant ObserveOrders(State(), i, o, generated) == ObserveOrders(marked, 0, o, [])
        invariant samples + PaperAccounting.OrderSamples(State(), i, o)
                  == old(samples) + PaperAccounting.OrderSamples(marked, 0, o)
        decreases |orders| - i
      {
        var fill := SeeOrder(i, o);
        if fill.Some? {
          generated := generated + [fill.value];
        }
        i := i + 1;
      }
      UpdatePeakEquity();
    }

    /** Shows an observation to the order at `i`. */
    method SeeOrder(i: nat, o: Observation) returns (fill: Option<Fill>)
      requires PaperAccounting.Ledgered(State()) && Sound(State()) && peak == PaperAccounting.Highest(samples) && i < |orders|
      modifies this
      ensures (State(), fill) == ObserveOrder(old(State()), i, o)
      ensures PaperAccounting.Ledgered(State()) && Sound(State()) && peak == PaperAccounting.Highest(samples)
      ensures samples == old(samples) + if fill.Some? then PaperAccounting.Sample(State()) else []
      ensures |orders| == old(|orders|)
    {
      hide PaperAccounting.Ledgered, PaperAccounting.BelowPeak, FillAt, PaperAccounting.Highest, UniqueOrders, UniquePositions;
      PaperAccounting.ObserveOrderKeepsBooks(State(), i, o);
      ObserveOrderIsSound(State(), i, o);
      var order := orders[i];
      fill := None;
      if !Concerns(order, o) {
        return;
      }
      if order.awaitingBaseline {
        orders := orders[i := order.(observedVolume := o.volume, volumeReset := false, awaitingBaseline := false)];
        return;
      }
      if o.volume < order.observedVolume {
        orders := orders[i := order.(observedVolume := o.volume, volumeReset := true)];
        return;
      }
      var next := order.(observedVolume := o.volume, volumeReset := false);
      PaperAccounting.SeenIsSound(State(), i, next);
      PaperAccounting.ReplaceKeepsBooks(State(), State().(orders := orders[i := next]), i, next);
      orders := orders[i := next];
      if Trades(order, o) && Remaining(order) > 0 {
        var generated := FillOrder(i, order.snapshot.quantity, o.receiveTime);
        fill := Some(generated);
      }
    }

    /** Applies scripted events in turn; nothing is returned when one throws. */
    method ApplyScripted(events: seq<ScriptEvent>) returns (generated: Option<seq<Fill>>)
      requires Valid() && scripted
      modifies this
      ensures PaperAccounting.Books(old(State()))
      ensures Valid() && (State(), generated) == PaperAccounting.ApplyScripts(old(State()), events, [])
      ensures samples == old(samples) + PaperAccounting.ScriptsSamples(old(State()), events)
    {
      hide PaperAccounting.Books, ApplyScript, Sound, PaperAccounting.Highest, PaperAccounting.ScriptSamples,
           PaperAccounting.ApplyScripts, PaperAccounting.ScriptsSamples;
      ghost var start := State();
      var made: seq<Fill> := [];
      var next := 0;
      while next < |events|
        invariant next <= |events| && Valid() && PaperAccounting.Books(start) && scripted
        invariant PaperAccounting.ApplyScripts(State(), events[next..], made)
                  == PaperAccounting.ApplyScripts(start, events, [])
        invariant samples + PaperAccounting.ScriptsSamples(State(), events[next..])
                  == old(samples) + PaperAccounting.ScriptsSamples(start, events)
      {
        assert events[next..][1..] == events[next + 1..];
        PaperAccounting.ScriptsGoOn(State(), events[next..], made);
        var fill, failed := ScriptOne(events[next]);
        if failed {
          return None;
        }
        if fill.Some? {
          made := made + [fill.value];
        }
        next := next + 1;
      }
      assert events[next..] == [];
      PaperAccounting.ScriptsEnd(State(), made);
      generated := Some(made);
    }

    method ScriptOne(event: ScriptEvent) returns (fill: Option<Fill>, failed: bool)
      requires Valid()
      modifies this
      ensures Sound(old(State()))
      ensures Valid() && ScriptStep(State(), fill, failed) == ApplyScript(old(State()), event)
      ensures samples == old(samples) + PaperAccounting.ScriptSamples(ScriptStep(State(), fill, failed))
    {
      hide PaperAccounting.Books, PaperAccounting.Ledgered, FillAt, Sound, PaperAccounting.Highest, FindOrder;
      PaperAccounting.ScriptKeepsBooks(State(), event);
      fill, failed := None, false;
      if event.updateId == "" || |event.updateId| > 64 || event.orderId == "" || event.timestamp < 0 {
        failed := true;
        return;
      }
      if event.updateId in scriptUpdates {
        return;
      }
      PaperAccounting.HealthIsFree(State(), health, scriptUpdates + [event.updateId]);
      scriptUpdates := scriptUpdates + [event.updateId];
      if event.kind.SessionLoss? {
        health := Lost;
        return;
      }
      var found := FindOrderIndex(event.orderId);
      if found.None? || Ended(orders[found.value].snapshot.status) {
        return;
      }
      var i := found.value;
      if event.kind.Reject? {
        orders := orders[i := orders[i].(snapshot := orders[i].snapshot.(status := Rejected))];
      } else if event.kind.Ambiguity? {
        orders := orders[i := orders[i].(snapshot := orders[i].snapshot.(status := Undecided))];
        health := Unknown;
      } else if event.cumulative > orders[i].snapshot.quantity {
        failed := true;
      } else if event.cumulative > orders[i].snapshot.filled {
        PaperAccounting.BooksAreLedgered(State());
        var filled := FillOrder(i, event.cumulative, event.timestamp);
        fill := Some(filled);
      }
    }

    method QueryPnl() returns (report: Option<PaperAccounting.PnlReport>)
      requires Valid()
      ensures report == PaperAccounting.QueryPnl(State())
    {
      hide AddValues;
      if !health.Ready? || latest <= 0 {
        return None;
      }
      var equity := EquityPaise();
      if equity.None? || peak < equity.value {
        return None;
      }
      var loss: uint64 := if equity.value < 0 then -(equity.value as int + 1) + 1 else 0;
      var drawdown: uint64 := if equity.value >= 0 then peak - equity.value else peak + loss;
      var timestamp: int64 := latest;
      for i := 0 to |positions|
        invariant PaperAccounting.EvidenceTime(positions, marks, latest)
                  == PaperAccounting.EvidenceTime(positions[i..], marks, timestamp)
      {
        assert positions[i..][1..] == positions[i + 1..];
        if positions[i].quantity != 0 {
          if positions[i].instrument !in marks {
            return None;
          }
          timestamp := Min(timestamp, marks[positions[i].instrument].timestamp);
        }
      }
      report := Some(PaperAccounting.PnlReport(loss, drawdown, timestamp));
    }
  }

  method LookUp(orders: seq<PaperOrder>, id: string) returns (found: Option<nat>)
    ensures found == FindOrder(orders, id)
  {
    var i := 0;
    while i < |orders|
      invariant i <= |orders|
      invariant FindOrder(orders, id)
                == match FindOrder(orders[i..], id) case Some(k) => Some(k + i) case None => None
    {
      assert orders[i..][1..] == orders[i + 1..];
      if orders[i].snapshot.orderId == id {
        return Some(i);
      }
      i := i + 1;
    }
    found := None;
  }
}
