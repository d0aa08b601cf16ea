/**
 Recovery of the paper broker's accounts from the ledger. Recovery samples equity at points it reconstructs
 from the order of the events, with a flag for a mark that no fill has followed; the broker samples it after
 each fill and at the end of each observation.
*/
module Recovery {
  import opened Base
  import opened Risk
  import opened PaperBroker

  /** What recovery's accounting reads of the ledger. */
  datatype Note =
    | MarkNote(instrument: string, mark: Mark)
    | FillNote(filled: string, side: Side, quantity: uint64, price: uint64)
    | OtherNote

  datatype Accounts = Accounts(
    marks: map<string, Mark>, positions: seq<Position>, cash: int64, peak: peak64, latest: int64, valid: bool, pending: bool)

  const NO_ACCOUNTS: Accounts := Accounts(map[], [], 0, 0, 0, true, false)

  /** Samples equity. An equity that cannot be computed makes the accounts unusable for good. */
  function Sample(a: Accounts): Accounts {
    if !a.valid then a
    else
      match AddValues(a.positions, a.marks, a.cash)
      case None => a.(valid := false)
      case Some(equity) => a.(peak := Max(a.peak, equity))
  }

  /** Samples the mark that no fill has followed. */
  function Flush(a: Accounts): Accounts {
    if a.pending then Sample(a).(pending := false) else a
  }

  function TakeMark(a: Accounts, instrument: string, mark: Mark): Accounts {
    var a := if a.pending then Sample(a) else a;
    a.(marks := a.marks[instrument := mark], latest := Max(a.latest, mark.timestamp), pending := true)
  }

  function TakeFill(a: Accounts, instrument: string, side: Side, quantity: uint64, price: uint64): Accounts {
    if quantity > INT64_MAX || Notional(quantity, price).None? then a.(valid := false)
    else
      var notional := Notional(quantity, price).value;
      var position := CheckedAdd(Quantity(a.positions, instrument), SignedFill(side, quantity));
      var cash := CheckedAdd(a.cash, if side.Buy? then -notional else notional);
      if position.None? || cash.None? then
        a.(valid := false, positions := SetQuantity(a.positions, instrument, Quantity(a.positions, instrument)))
      else Sample(a.(positions := SetQuantity(a.positions, instrument, position.value), cash := cash.value)).(pending := false)
  }

  function Take(a: Accounts, note: Note): Accounts {
    match note
    case MarkNote(instrument, mark) => TakeMark(a, instrument, mark)
    case FillNote(instrument, side, quantity, price) => TakeFill(a, instrument, side, quantity, price)
    case OtherNote => Flush(a)
  }

  function Fold(notes: seq<Note>): Accounts {
    if notes == [] then NO_ACCOUNTS else Take(Fold(notes[..|notes| - 1]), notes[|notes| - 1])
  }

  function Recover(notes: seq<Note>): Accounts {
    Flush(Fold(notes))
  }

  // ---------------------------------------------------------------- reading the ledger

  /** What recovery reads of an event: a mark, an order that was sent with its instrument and side, or how much of an
      order is filled in all. */
  datatype Entry =
    | MarkEntry(instrument: string, mark: Mark)
    | OrderEntry(sent: string, sentInstrument: string, sentSide: Side)
    | FillEntry(filled: string, cumulative: uint64, price: uint64)
    | OtherEntry

  /** The orders read so far, and how much of each was filled. */
  datatype Known = Known(requests: map<string, (string, Side)>, filled: map<string, uint64>)

  const NOTHING_KNOWN: Known := Known(map[], map[])

  function FilledBefore(k: Known, id: string): uint64 {
    if id in k.filled then k.filled[id] else 0
  }

  /** A fill counts for what it adds; one of an unknown order, or that adds nothing, cannot be read. */
  function Read(k: Known, entry: Entry): Option<(Known, Note)> {
    match entry
    case MarkEntry(instrument, mark) => Some((k, MarkNote(instrument, mark)))
    case OrderEntry(id, instrument, side) => Some((k.(requests := k.requests[id := (instrument, side)]), OtherNote))
    case FillEntry(id, cumulative, price) =>
      if id !in k.requests || cumulative <= FilledBefore(k, id) then None
      else
        Some((k.(filled := k.filled[id := cumulative]),
              FillNote(k.requests[id].0, k.requests[id].1, cumulative - FilledBefore(k, id), price)))
    case OtherEntry => Some((k, OtherNote))
  }

  function ReadAll(k: Known, entries: seq<Entry>): Option<(Known, seq<Note>)>
    decreases |entries|
  {
    if entries == [] then Some((k, []))
    else
      match Read(k, entries[0])
      case None => None
      case Some(r) =>
        match ReadAll(r.0, entries[1..])
        case None => None
        case Some(rest) => Some((rest.0, [r.1] + rest.1))
  }

  // ---------------------------------------------------------------- the program

  method SamplePeak(marks: map<string, Mark>, positions: seq<Position>, cash: int64, peak: peak64, valid: bool)
    returns (nextPeak: peak64, nextValid: bool)
    ensures var a := Accounts(marks, positions, cash, peak, 0, valid, false);
            nextPeak == Sample(a).peak && nextValid == Sample(a).valid
  {
    nextPeak, nextValid := peak, valid;
    if !valid {
      return;
    }
    hide Notional, CheckedAdd, Price;
    var equity := cash;
    for i := 0 to |positions|
      invariant AddValues(positions, marks, cash) == AddValues(positions[i..], marks, equity)
    {
      assert positions[i..][1..] == positions[i + 1..];
      var quantity := positions[i].quantity;
      if quantity != 0 {
        if positions[i].instrument !in marks {
          return peak, false;
        }
        var price := Price(marks[positions[i].instrument], quantity);
        if price == 0 {
          return peak, false;
        }
        var notional := Notional(Absolute(quantity), price);
        if notional.None? {
          return peak, false;
        }
        var sum := CheckedAdd(equity, if quantity > 0 then notional.value else -notional.value);
        if sum.None? {
          return peak, false;
        }
        equity := sum.value;
      }
    }
    nextPeak := Max(peak, equity);
  }

  /** The accounting part of recovery, over the events of a verified ledger; nothing when one cannot be read. */
  method RecoverAccounts(entries: seq<Entry>) returns (accounts: Option<Accounts>)
    ensures accounts == match ReadAll(NOTHING_KNOWN, entries) case Some(r) => Some(Recover(r.1)) case None => None
  {
    hide AddValues, Notional, CheckedAdd, Quantity, SetQuantity, Read, Take, Flush;
    var known, a := NOTHING_KNOWN, NO_ACCOUNTS;
    ghost var notes: seq<Note> := [];
    assert entries[0..] == entries;
    assert ReadAll(known, entries).Some? ==> notes + ReadAll(known, entries).value.1 == ReadAll(known, entries).value.1;
    for i := 0 to |entries|
      invariant a == Fold(notes)
      invariant ReadAll(NOTHING_KNOWN, entries)
                == match ReadAll(known, entries[i..]) case Some(r) => Some((r.0, notes + r.1)) case None => None
    {
      assert entries[i..][1..] == entries[i + 1..];
      var read := ReadEntry(known, entries[i]);
      if read.None? {
        return None;
      }
      a := TakeNote(a, read.value.1);
      known := read.value.0;
      FoldOne(notes, read.value.1);
      NotesGrow(notes, read.value.1, ReadAll(known, entries[i + 1..]));
      notes := notes + [read.value.1];
    }
    assert entries[|entries|..] == [] && notes + [] == notes;
    var flushed := TakeNote(a, OtherNote);
    accounts := Some(flushed);
    assert flushed == Flush(a) by { OtherFlushes(a); }
  }

  lemma FoldOne(notes: seq<Note>, note: Note)
    ensures Fold(notes + [note]) == Take(Fold(notes), note)
  {
    hide Take;
    assert (notes + [note])[..|notes|] == notes;
  }

  lemma NotesGrow(notes: seq<Note>, note: Note, rest: Option<(Known, seq<Note>)>)
    ensures rest.Some? ==> notes + ([note] + rest.value.1) == (notes + [note]) + rest.value.1
  {
  }

  lemma OtherFlushes(a: Accounts)
    ensures Take(a, OtherNote) == Flush(a)
  {
    hide Flush;
  }

  /** Reads one event. */
  method ReadEntry(known: Known, entry: Entry) returns (read: Option<(Known, Note)>)
    ensures read == Read(known, entry)
  {
    match entry
    case MarkEntry(instrument, mark) => read := Some((known, MarkNote(instrument, mark)));
    case OrderEntry(id, instrument, side) =>
      read := Some((known.(requests := known.requests[id := (instrument, side)]), OtherNote));
    case FillEntry(id, cumulative, price) =>
      if id !in known.requests {
        return None;
      }
      var previous := FilledBefore(known, id);
      if cumulative <= previous {
        return None;
      }
      var request := known.requests[id];
      read := Some((known.(filled := known.filled[id := cumulative]), FillNote(request.0, request.1, cumulative - previous, price)));
    case OtherEntry => read := Some((known, OtherNote));
  }

  /** Takes one event into the accounts. */
  method TakeNote(a: Accounts, note: Note) returns (next: Accounts)
    ensures next == Take(a, note)
  {
    hide AddValues, Notional, CheckedAdd, Quantity, SetQuantity;
    var marks, positions, cash, peak, latest, valid, pending :=
      a.marks, a.positions, a.cash, a.peak, a.latest, a.valid, a.pending;
    match note {
      case MarkNote(instrument, mark) =>
        if pending {
          peak, valid := SamplePeak(marks, positions, cash, peak, valid);
        }
        marks := marks[instrument := mark];
        latest := Max(latest, mark.timestamp);
        pending := true;
      case FillNote(instrument, side, quantity, price) =>
        if quantity > INT64_MAX || Notional(quantity, price).None? {
          valid := false;
        } else {
          var notional := Notional(quantity, price).value;
          var position := CheckedAdd(Quantity(positions, instrument), SignedFill(side, quantity));
          var total := CheckedAdd(cash, if side.Buy? then -notional else notional);
          if position.None? || total.None? {
            valid := false;
            positions := SetQuantity(positions, instrument, Quantity(positions, instrument));
          } else {
            positions := SetQuantity(positions, instrument, position.value);
            cash := total.value;
            peak, valid := SamplePeak(marks, positions, cash, peak, valid);
            pending := false;
          }
        }
      case OtherNote =>
        if pending {
          peak, valid := SamplePeak(marks, positions, cash, peak, valid);
          pending := false;
        }
    }
    next := Accounts(marks, positions, cash, peak, latest, valid, pending);
  }

  // ---------------------------------------------------------------- the broker's own accounts

  /** The notes of the fills one observation made. */
  function FillNotes(p: Paper, i: nat, o: Observation): seq<Note>
    requires Sound(p) && i <= |p.orders|
    decreases |p.orders| - i
  {
    if i == |p.orders| then []
    else
      var (next, fill) := ObserveOrder(p, i, o);
      ObserveOrderIsSound(p, i, o);
      var rest := FillNotes(next, i + 1, o);
      if fill.None? then rest
      else [FillNote(fill.value.instrument, p.orders[i].snapshot.side, fill.value.last, fill.value.price)] + rest
  }

  /** Equity can be computed whenever the broker samples it. */
  ghost predicate SamplesFit(p: Paper, i: nat, o: Observation)
    requires Sound(p) && i <= |p.orders|
    decreases |p.orders| - i
  {
    if i == |p.orders| then Equity(p).Some?
    else
      var (next, fill) := ObserveOrder(p, i, o);
      ObserveOrderIsSound(p, i, o);
      (fill.Some? ==> Equity(next).Some?) && SamplesFit(next, i + 1, o)
  }

  datatype Act =
    | Ask(request: Request)
    | Change(orderId: string, quantity: uint64, limitPrice: uint64)
    | Withdraw(withdrawn: string)
    | See(observation: Observation)

  function Do(p: Paper, act: Act): Paper
    requires Sound(p)
  {
    match act
    case Ask(request) => PlaceOrder(p, request).0
    case Change(id, quantity, limitPrice) => ModifyOrder(p, id, quantity, limitPrice).0
    case Withdraw(id) => CancelOrder(p, id).0
    case See(o) => Observe(p, o).0
  }

  /** What the session writes for an act: an observation is recorded before it is shown to the broker, its
      fills after. */
  function NotesOf(p: Paper, act: Act): seq<Note>
    requires Sound(p)
  {
    match act
    case See(o) =>
      [MarkNote(o.instrument, Mark(o.bestBid, o.bestAsk, o.lastTrade, o.receiveTime))] + FillNotes(Marked(p, o), 0, o)
    case _ => [OtherNote]
  }

  /** An observation the session accepts, no older than what it has accepted, at which every equity fits. */
  ghost predicate FitAct(p: Paper, act: Act)
    requires Sound(p)
  {
    act.See? ==>
      var o := act.observation;
      && p.health.Ready? && Usable(o) && !p.scripted && o.receiveTime >= p.latest
      && SamplesFit(Marked(p, o), 0, o)
  }

  lemma {:induction false} DoIsSound(p: Paper, act: Act)
    requires Sound(p)
    ensures Sound(Do(p, act))
  {
    hide Sound;
    match act
    case Ask(request) => PlaceIsSound(p, request);
    case Change(id, quantity, limitPrice) => ModifyIsSound(p, id, quantity, limitPrice);
    case Withdraw(id) => CancelIsSound(p, id);
    case See(o) => ObserveIsSound(p, o);
  }

  /** The accounts after some notes are the broker's, once a mark that no fill followed has been sampled. */
  ghost predicate Matches(a: Accounts, p: Paper) {
    && a.valid && p.pnlValid && Equity(p).Some?
    && a.marks == p.marks && a.positions == p.positions && a.cash == p.cash && a.latest == p.latest
    && Flush(a).peak == p.peak && Flush(a).valid
    && (forall instrument :: instrument in p.marks ==> p.marks[instrument].timestamp <= p.latest)
  }

  /** In the middle of an observation: the accounts are the broker's, and nothing but a fresh mark is pending. */
  ghost predicate Follows(a: Accounts, p: Paper) {
    && a.valid && p.pnlValid
    && a.marks == p.marks && a.positions == p.positions && a.cash == p.cash && a.latest == p.latest && a.peak == p.peak
    && (!a.pending ==> Equity(p).Some? && Equity(p).value <= p.peak)
    && (forall instrument :: instrument in p.marks ==> p.marks[instrument].timestamp <= p.latest)
  }

  // ---------------------------------------------------------------- step by step

  lemma {:induction false} MarkFollows(a: Accounts, p: Paper, o: Observation)
    requires Sound(p) && Matches(a, p) && FitAct(p, See(o))
    ensures Follows(TakeMark(a, o.instrument, Mark(o.bestBid, o.bestAsk, o.lastTrade, o.receiveTime)), Marked(p, o))
  {
    hide AddValues, SamplesFit, Sound;
  }

  /** A fill settles alike on both sides. */
  lemma {:induction false} FillFollows(a: Accounts, p: Paper, i: nat, requested: uint64, timestamp: int64)
    requires Sound(p) && Follows(a, p) && i < |p.orders| && p.orders[i].snapshot.filled <= requested
    requires Equity(FillAt(p, i, requested, timestamp).0).Some?
    ensures var (next, fill) := FillAt(p, i, requested, timestamp);
            Follows(TakeFill(a, fill.instrument, p.orders[i].snapshot.side, fill.last, fill.price), next)
  {
    hide AddValues, Quantity, SetQuantity;
    var x := p.orders[i].snapshot;
    var (next, fill) := FillAt(p, i, requested, timestamp);
    var position := CheckedAdd(Quantity(p.positions, x.instrument), SignedFill(x.side, fill.last));
    var notional := Notional(fill.last, fill.price);
    assert position.Some? && notional.Some?;
  }

  lemma {:induction false} SeenFollows(a: Accounts, p: Paper, q: Paper)
    requires Follows(a, p) && q == p.(orders := q.orders)
    ensures Follows(a, q)
  {
    hide AddValues;
  }

  /** The notes of one order's part in an observation. */
  function StepNotes(p: Paper, i: nat, o: Observation): seq<Note>
    requires Sound(p) && i < |p.orders|
  {
    var fill := ObserveOrder(p, i, o).1;
    if fill.None? then []
    else [FillNote(fill.value.instrument, p.orders[i].snapshot.side, fill.value.last, fill.value.price)]
  }

  function FoldFrom(a: Accounts, notes: seq<Note>): Accounts
    decreases |notes|
  {
    if notes == [] then a else FoldFrom(Take(a, notes[0]), notes[1..])
  }

  lemma {:induction false} OrderFollows(a: Accounts, p: Paper, i: nat, o: Observation)
    requires Sound(p) && Follows(a, p) && i < |p.orders|
    requires ObserveOrder(p, i, o).1.Some? ==> Equity(ObserveOrder(p, i, o).0).Some?
    ensures Follows(FoldFrom(a, StepNotes(p, i, o)), ObserveOrder(p, i, o).0)
  {
    hide Follows, FillAt, AddValues, TakeFill;
    var order := p.orders[i];
    var (next, fill) := ObserveOrder(p, i, o);
    var seen := p.(orders := p.orders[i := order.(observedVolume := o.volume, volumeReset := false)]);
    if fill.Some? {
      SeenFollows(a, p, seen);
      FillIsSound(seen, i, order.snapshot.quantity, o.receiveTime);
      FillShows(seen, i, order.snapshot.quantity, o.receiveTime);
      FillFollows(a, seen, i, order.snapshot.quantity, o.receiveTime);
      OneNote(a, StepNotes(p, i, o)[0]);
    } else {
      SeenFollows(a, p, next);
    }
  }

  lemma OneNote(a: Accounts, note: Note)
    ensures FoldFrom(a, [note]) == Take(a, note)
  {
    assert [note][1..] == [];
    assert FoldFrom(a, [note]) == FoldFrom(Take(a, note), []);
  }

  lemma FillShows(p: Paper, i: nat, requested: uint64, timestamp: int64)
    requires Sound(p) && i < |p.orders| && p.orders[i].snapshot.filled <= requested
    ensures FillAt(p, i, requested, timestamp).1.instrument == p.orders[i].snapshot.instrument
  {
    hide Settle, UpdatePeak;
  }

  lemma {:induction false} FoldFromConcat(a: Accounts, x: seq<Note>, y: seq<Note>)
    ensures FoldFrom(a, x + y) == FoldFrom(FoldFrom(a, x), y)
    decreases |x|
  {
    hide Take;
    if x == [] {
      assert x + y == y;
    } else {
      assert (x + y)[1..] == x[1..] + y;
      FoldFromConcat(Take(a, x[0]), x[1..], y);
    }
  }

  lemma {:induction false} FoldConcat(x: seq<Note>, y: seq<Note>)
    ensures Fold(x + y) == FoldFrom(Fold(x), y)
    decreases |y|
  {
    hide Take;
    if y == [] {
      assert x + y == x;
    } else {
      assert x + y == (x + [y[0]]) + y[1..];
      FoldConcat(x + [y[0]], y[1..]);
      assert (x + [y[0]])[..|x|] == x;
    }
  }

  lemma {:induction false} OrdersFollow(a: Accounts, p: Paper, i: nat, o: Observation, generated: seq<Fill>)
    requires Sound(p) && Follows(a, p) && i <= |p.orders| && SamplesFit(p, i, o)
    ensures Matches(FoldFrom(a, FillNotes(p, i, o)), ObserveOrders(p, i, o, generated).0)
    decreases |p.orders| - i
  {
    hide Follows, Matches, ObserveOrder, Take, Sound, UpdatePeak, AddValues;
    if i == |p.orders| {
      EndMatches(a, p);
    } else {
      ObserveOrderIsSound(p, i, o);
      OrderFollows(a, p, i, o);
      var step := ObserveOrder(p, i, o);
      var grown := if step.1.Some? then generated + [step.1.value] else generated;
      OrdersFollow(FoldFrom(a, StepNotes(p, i, o)), step.0, i + 1, o, grown);
      FoldFromConcat(a, StepNotes(p, i, o), FillNotes(step.0, i + 1, o));
      NotesSplit(p, i, o);
      assert ObserveOrders(p, i, o, generated) == ObserveOrders(step.0, i + 1, o, grown);
    }
  }

  lemma NotesSplit(p: Paper, i: nat, o: Observation)
    requires Sound(p) && i < |p.orders|
    ensures Sound(ObserveOrder(p, i, o).0) && i + 1 <= |ObserveOrder(p, i, o).0.orders|
    ensures FillNotes(p, i, o) == StepNotes(p, i, o) + FillNotes(ObserveOrder(p, i, o).0, i + 1, o)
  {
    ObserveOrderIsSound(p, i, o);
    hide ObserveOrder, Sound;
    assert [] + FillNotes(ObserveOrder(p, i, o).0, i + 1, o) == FillNotes(ObserveOrder(p, i, o).0, i + 1, o);
  }

  lemma EndMatches(a: Accounts, p: Paper)
    requires Follows(a, p) && Equity(p).Some?
    ensures Matches(a, UpdatePeak(p))
  {
    hide AddValues;
  }

  // ---------------------------------------------------------------- runs

  lemma {:induction false} ActMatches(a: Accounts, p: Paper, act: Act)
    requires Sound(p) && Matches(a, p) && FitAct(p, act)
    ensures Matches(FoldFrom(a, NotesOf(p, act)), Do(p, act))
  {
    hide Matches, Sound, ObserveOrders, Follows, FillNotes, Take;
    match act
    case See(o) =>
      MarkFollows(a, p, o);
      var mark := Mark(o.bestBid, o.bestAsk, o.lastTrade, o.receiveTime);
      var marked := TakeMark(a, o.instrument, mark);
      SoundMarked(p, o);
      OrdersFollow(marked, Marked(p, o), 0, o, []);
      FoldFromConcat(a, [MarkNote(o.instrument, mark)], FillNotes(Marked(p, o), 0, o));
      OneNote(a, MarkNote(o.instrument, mark));
      TakeIsMark(a, o.instrument, mark);
    case _ =>
      OneNote(a, OtherNote);
      RequestMatches(a, p, act);
  }

  lemma SoundMarked(p: Paper, o: Observation)
    requires Sound(p)
    ensures Sound(Marked(p, o))
  {
  }

  lemma TakeIsMark(a: Accounts, instrument: string, mark: Mark)
    ensures Take(a, MarkNote(instrument, mark)) == TakeMark(a, instrument, mark)
  {
  }

  lemma RequestMatches(a: Accounts, p: Paper, act: Act)
    requires Sound(p) && Matches(a, p) && !act.See?
    ensures Matches(Take(a, OtherNote), Do(p, act))
  {
    hide AddValues, FindOrder, InsertOrder, Sound;
  }

  ghost function RunActs(p: Paper, acts: seq<Act>): Paper
    requires Sound(p)
    decreases |acts|
  {
    if acts == [] then p
    else
      DoIsSound(p, acts[0]);
      RunActs(Do(p, acts[0]), acts[1..])
  }

  ghost function RunNotes(p: Paper, acts: seq<Act>): seq<Note>
    requires Sound(p)
    decreases |acts|
  {
    if acts == [] then []
    else
      DoIsSound(p, acts[0]);
      NotesOf(p, acts[0]) + RunNotes(Do(p, acts[0]), acts[1..])
  }

  ghost predicate FitRun(p: Paper, acts: seq<Act>)
    requires Sound(p)
    decreases |acts|
  {
    acts == []
    || (FitAct(p, acts[0])
        && (DoIsSound(p, acts[0]); FitRun(Do(p, acts[0]), acts[1..])))
  }

  lemma {:induction false} RunMatches(a: Accounts, p: Paper, acts: seq<Act>)
    requires Sound(p) && Matches(a, p) && FitRun(p, acts)
    ensures Matches(FoldFrom(a, RunNotes(p, acts)), RunActs(p, acts))
    decreases |acts|
  {
    hide Matches, Sound, Do, NotesOf, FitAct, Take;
    if acts != [] {
      DoIsSound(p, acts[0]);
      ActMatches(a, p, acts[0]);
      RunMatches(FoldFrom(a, NotesOf(p, acts[0])), Do(p, acts[0]), acts[1..]);
      FoldFromConcat(a, NotesOf(p, acts[0]), RunNotes(Do(p, acts[0]), acts[1..]));
    }
  }

  // ---------------------------------------------------------------- what the ledger holds of a run

  /** What the session writes of the fills one observation made: how much of each order is filled in all. */
  function FillEntries(p: Paper, i: nat, o: Observation): seq<Entry>
    requires Sound(p) && i <= |p.orders|
    decreases |p.orders| - i
  {
    if i == |p.orders| then []
    else
      var (next, fill) := ObserveOrder(p, i, o);
      ObserveOrderIsSound(p, i, o);
      (if fill.None? then [] else [FillEntry(fill.value.orderId, fill.value.cumulative, fill.value.price)])
      + FillEntries(next, i + 1, o)
  }

  /** An order is sent once: the session never asks under an id it has used. */
  function EntriesOf(p: Paper, act: Act): seq<Entry>
    requires Sound(p)
  {
    match act
    case Ask(r) => if FindOrder(p.orders, r.orderId).Some? then [OtherEntry] else [OrderEntry(r.orderId, r.route.instrument, r.side)]
    case See(o) =>
      [MarkEntry(o.instrument, Mark(o.bestBid, o.bestAsk, o.lastTrade, o.receiveTime))] + FillEntries(Marked(p, o), 0, o)
    case _ => [OtherEntry]
  }

  ghost function RunEntries(p: Paper, acts: seq<Act>): seq<Entry>
    requires Sound(p)
    decreases |acts|
  {
    if acts == [] then []
    else
      DoIsSound(p, acts[0]);
      EntriesOf(p, acts[0]) + RunEntries(Do(p, acts[0]), acts[1..])
  }

  /** What was read of the ledger is what the broker's orders are, and no fill is of another order. */
  ghost predicate Remembers(k: Known, orders: seq<PaperOrder>) {
    && (forall i :: 0 <= i < |orders| ==>
          var x := orders[i].snapshot;
          && x.orderId in k.requests && k.requests[x.orderId] == (x.instrument, x.side)
          && FilledBefore(k, x.orderId) == x.filled)
    && (forall id :: id in k.filled ==> exists i :: 0 <= i < |orders| && orders[i].snapshot.orderId == id)
  }

  lemma {:induction false} ReadConcat(k: Known, x: seq<Entry>, y: seq<Entry>)
    ensures ReadAll(k, x + y)
            == match ReadAll(k, x)
               case None => None
               case Some(r) => match ReadAll(r.0, y) case None => None case Some(t) => Some((t.0, r.1 + t.1))
    decreases |x|
  {
    hide Read;
    if x == [] {
      assert x + y == y;
      assert ReadAll(k, y).Some? ==> [] + ReadAll(k, y).value.1 == ReadAll(k, y).value.1;
    } else {
      assert (x + y)[1..] == x[1..] + y;
      var r := Read(k, x[0]);
      if r.Some? {
        ReadConcat(r.value.0, x[1..], y);
        var a := ReadAll(r.value.0, x[1..]);
        if a.Some? && ReadAll(a.value.0, y).Some? {
          assert [r.value.1] + (a.value.1 + ReadAll(a.value.0, y).value.1) == ([r.value.1] + a.value.1) + ReadAll(a.value.0, y).value.1;
        }
      }
    }
  }

  lemma ReadOne(k: Known, entry: Entry)
    ensures ReadAll(k, [entry]) == match Read(k, entry) case None => None case Some(r) => Some((r.0, [r.1]))
  {
    hide Read;
    assert [entry][1..] == [];
    var read := Read(k, entry);
    if read.Some? {
      assert ReadAll(read.value.0, []) == Some((read.value.0, []));
      assert [read.value.1] + [] == [read.value.1];
    }
  }

  /** An order whose fill is read as what it added. */
  lemma {:induction false} FillIsRead(k: Known, p: Paper, i: nat, requested: uint64, timestamp: int64)
    requires Sound(p) && i < |p.orders| && p.orders[i].snapshot.filled < requested && Remaining(p.orders[i]) > 0
    requires Remembers(k, p.orders)
    ensures var (q, fill) := FillAt(p, i, requested, timestamp);
            var read := Read(k, FillEntry(fill.orderId, fill.cumulative, fill.price));
            && read.Some? && read.value.1 == FillNote(fill.instrument, p.orders[i].snapshot.side, fill.last, fill.price)
            && Remembers(read.value.0, q.orders)
  {
    hide PaperId, Settle, UpdatePeak, UniquePositions;
    var (q, fill) := FillAt(p, i, requested, timestamp);
    SettleKeepsOrders(p, i, requested, timestamp);
    var read := Read(k, FillEntry(fill.orderId, fill.cumulative, fill.price)).value.0;
    forall id | id in read.filled ensures exists n :: 0 <= n < |q.orders| && q.orders[n].snapshot.orderId == id {
      if id == fill.orderId {
        assert q.orders[i].snapshot.orderId == id;
      } else {
        var n :| 0 <= n < |p.orders| && p.orders[n].snapshot.orderId == id;
        assert q.orders[n].snapshot.orderId == id;
      }
    }
  }

  lemma SettleKeepsOrders(p: Paper, i: nat, requested: uint64, timestamp: int64)
    requires Sound(p) && i < |p.orders| && p.orders[i].snapshot.filled <= requested
    ensures var (q, fill) := FillAt(p, i, requested, timestamp);
            var x := p.orders[i].snapshot;
            && |q.orders| == |p.orders| && (forall n :: 0 <= n < |p.orders| && n != i ==> q.orders[n] == p.orders[n])
            && q.orders[i].snapshot == x.(filled := fill.cumulative, status := q.orders[i].snapshot.status)
            && fill.orderId == x.orderId && fill.instrument == x.instrument && fill.cumulative == Min(requested, x.quantity)
            && fill.last == fill.cumulative - x.filled
  {
    hide PaperId, Notional, SetQuantity, Quantity, AddValues, UniqueOrders, UniquePositions;
  }

  lemma {:induction false} OrderIsRead(k: Known, p: Paper, i: nat, o: Observation)
    requires Sound(p) && i < |p.orders| && Remembers(k, p.orders)
    ensures var (q, fill) := ObserveOrder(p, i, o);
            var entries := if fill.None? then [] else [FillEntry(fill.value.orderId, fill.value.cumulative, fill.value.price)];
            var r := ReadAll(k, entries);
            r.Some? && r.value.1 == StepNotes(p, i, o) && Remembers(r.value.0, q.orders)
  {
    hide Read, FillAt, Remembers;
    var order := p.orders[i];
    var (q, fill) := ObserveOrder(p, i, o);
    var seen := p.(orders := p.orders[i := order.(observedVolume := o.volume, volumeReset := false)]);
    if fill.Some? {
      SeenIsRemembered(k, p.orders, seen.orders);
      FillIsRead(k, seen, i, order.snapshot.quantity, o.receiveTime);
      ReadOne(k, FillEntry(fill.value.orderId, fill.value.cumulative, fill.value.price));
    } else {
      SeenIsRemembered(k, p.orders, q.orders);
    }
  }

  lemma SeenIsRemembered(k: Known, a: seq<PaperOrder>, b: seq<PaperOrder>)
    requires Remembers(k, a) && |a| == |b| && forall i :: 0 <= i < |a| ==> b[i].snapshot == a[i].snapshot
    ensures Remembers(k, b)
  {
    forall id | id in k.filled ensures exists i :: 0 <= i < |b| && b[i].snapshot.orderId == id {
      var i :| 0 <= i < |a| && a[i].snapshot.orderId == id;
      assert b[i].snapshot.orderId == id;
    }
  }

  lemma {:induction false} OrdersAreRead(k: Known, p: Paper, i: nat, o: Observation, generated: seq<Fill>)
    requires Sound(p) && i <= |p.orders| && Remembers(k, p.orders)
    ensures var r := ReadAll(k, FillEntries(p, i, o));
            r.Some? && r.value.1 == FillNotes(p, i, o) && Remembers(r.value.0, ObserveOrders(p, i, o, generated).0.orders)
    decreases |p.orders| - i
  {
    hide Remembers, ObserveOrder, Read, Sound, Equity;
    if i < |p.orders| {
      ObserveOrderIsSound(p, i, o);
      OrderIsRead(k, p, i, o);
      var (next, fill) := ObserveOrder(p, i, o);
      var entries := if fill.None? then [] else [FillEntry(fill.value.orderId, fill.value.cumulative, fill.value.price)];
      OrdersAreRead(ReadAll(k, entries).value.0, next, i + 1, o, if fill.Some? then generated + [fill.value] else generated);
      ReadConcat(k, entries, FillEntries(next, i + 1, o));
      NotesSplit(p, i, o);
    }
  }

  lemma {:induction false} ActIsRead(k: Known, p: Paper, act: Act)
    requires Sound(p) && Remembers(k, p.orders) && FitAct(p, act)
    ensures var r := ReadAll(k, EntriesOf(p, act));
            r.Some? && r.value.1 == NotesOf(p, act) && Remembers(r.value.0, Do(p, act).orders)
  {
    hide ObserveOrders, FillNotes, FillEntries, SamplesFit;
    hide Sound, Remembers, Do, PlaceOrder, ModifyOrder, CancelOrder;
    match act
    case See(o) => SeeIsRead(k, p, o);
    case Ask(r) =>
      AskIsRemembered(k, p, r);
      ReadOne(k, EntriesOf(p, act)[0]);
      DoAsks(p, r);
    case _ =>
      ReadOne(k, OtherEntry);
      ChangeIsRemembered(k, p, act);
  }

  lemma DoAsks(p: Paper, r: Request)
    requires Sound(p)
    ensures Do(p, Ask(r)) == PlaceOrder(p, r).0
  {
    hide PlaceOrder;
  }

  lemma {:induction false} SeeIsRead(k: Known, p: Paper, o: Observation)
    requires Sound(p) && Remembers(k, p.orders) && FitAct(p, See(o))
    ensures var r := ReadAll(k, EntriesOf(p, See(o)));
            r.Some? && r.value.1 == NotesOf(p, See(o)) && Remembers(r.value.0, Do(p, See(o)).orders)
  {
    hide ObserveOrders, FillNotes, FillEntries, SamplesFit, Remembers, Sound;
    SoundMarked(p, o);
    var mark := MarkEntry(o.instrument, Mark(o.bestBid, o.bestAsk, o.lastTrade, o.receiveTime));
    OrdersAreRead(k, Marked(p, o), 0, o, []);
    ReadOne(k, mark);
    ReadConcat(k, [mark], FillEntries(Marked(p, o), 0, o));
  }

  lemma {:induction false} ChangeIsRemembered(k: Known, p: Paper, act: Act)
    requires Sound(p) && Remembers(k, p.orders) && (act.Change? || act.Withdraw?)
    ensures Remembers(k, Do(p, act).orders)
  {
    hide Remembers, ModifyOrder, CancelOrder;
    match act
    case Change(id, quantity, limitPrice) => ModifyIsRemembered(k, p, id, quantity, limitPrice);
    case Withdraw(id) => CancelIsRemembered(k, p, id);
  }

  lemma {:induction false} ModifyIsRemembered(k: Known, p: Paper, id: string, quantity: uint64, limitPrice: uint64)
    requires Remembers(k, p.orders)
    ensures Remembers(k, ModifyOrder(p, id, quantity, limitPrice).0.orders)
  {
    FindOrderFinds(p.orders, id);
    hide FindOrder, Remembers, PaperId;
    SeenTermsAreRemembered(k, p.orders, ModifyOrder(p, id, quantity, limitPrice).0.orders);
  }

  lemma {:induction false} CancelIsRemembered(k: Known, p: Paper, id: string)
    requires Remembers(k, p.orders)
    ensures Remembers(k, CancelOrder(p, id).0.orders)
  {
    FindOrderFinds(p.orders, id);
    hide FindOrder, Remembers, PaperId;
    SeenTermsAreRemembered(k, p.orders, CancelOrder(p, id).0.orders);
  }

  lemma SeenTermsAreRemembered(k: Known, a: seq<PaperOrder>, b: seq<PaperOrder>)
    requires Remembers(k, a) && |a| == |b|
    requires forall i :: 0 <= i < |a| ==>
               && b[i].snapshot.orderId == a[i].snapshot.orderId && b[i].snapshot.instrument == a[i].snapshot.instrument
               && b[i].snapshot.side == a[i].snapshot.side && b[i].snapshot.filled == a[i].snapshot.filled
    ensures Remembers(k, b)
  {
    forall id | id in k.filled ensures exists i :: 0 <= i < |b| && b[i].snapshot.orderId == id {
      var i :| 0 <= i < |a| && a[i].snapshot.orderId == id;
      assert b[i].snapshot.orderId == id;
    }
  }

  lemma {:induction false} AskIsRemembered(k: Known, p: Paper, r: Request)
    requires Sound(p) && Remembers(k, p.orders)
    ensures var read := Read(k, EntriesOf(p, Ask(r))[0]);
            read.Some? && read.value.1 == OtherNote && Remembers(read.value.0, PlaceOrder(p, r).0.orders)
  {
    FindOrderFinds(p.orders, r.orderId);
    hide FindOrder, InsertOrder, Sound, Remembers, PaperId;
    if FindOrder(p.orders, r.orderId).None? {
      var next := k.(requests := k.requests[r.orderId := (r.route.instrument, r.side)]);
      RequestIsRemembered(k, p.orders, r);
      if PlaceOrder(p, r).0.orders != p.orders {
        var snapshot := OrderSnapshot(r.orderId, r.route.instrument, r.route.token, r.side, r.quantity, r.limitPrice, 0, Working);
        InsertIsRemembered(next, p.orders, PaperOrder(r, snapshot, r.baseline, false, false));
      }
    }
  }

  /** Sending an order under an id that no order has. */
  lemma RequestIsRemembered(k: Known, orders: seq<PaperOrder>, r: Request)
    requires Remembers(k, orders) && forall i :: 0 <= i < |orders| ==> orders[i].snapshot.orderId != r.orderId
    ensures Remembers(k.(requests := k.requests[r.orderId := (r.route.instrument, r.side)]), orders)
    ensures FilledBefore(k, r.orderId) == 0
  {
  }

  lemma InsertIsRemembered(k: Known, orders: seq<PaperOrder>, order: PaperOrder)
    requires Remembers(k, orders)
    requires var x := order.snapshot;
             && x.orderId in k.requests && k.requests[x.orderId] == (x.instrument, x.side)
             && FilledBefore(k, x.orderId) == x.filled
    ensures Remembers(k, InsertOrder(orders, order))
  {
    hide InsertOrder;
    var n := InsertOrderPlaces(orders, order);
    var next := InsertOrder(orders, order);
    forall id | id in k.filled ensures exists i :: 0 <= i < |next| && next[i].snapshot.orderId == id {
      var i :| 0 <= i < |orders| && orders[i].snapshot.orderId == id;
      assert next[if i < n then i else i + 1].snapshot.orderId == id;
    }
  }

  lemma {:induction false} RunIsRead(k: Known, p: Paper, acts: seq<Act>)
    requires Sound(p) && Remembers(k, p.orders) && FitRun(p, acts)
    ensures var r := ReadAll(k, RunEntries(p, acts)); r.Some? && r.value.1 == RunNotes(p, acts)
    decreases |acts|
  {
    hide Remembers, Sound, Do, NotesOf, EntriesOf, FitAct, Read;
    if acts != [] {
      DoIsSound(p, acts[0]);
      ActIsRead(k, p, acts[0]);
      var r := ReadAll(k, EntriesOf(p, acts[0])).value;
      RunIsRead(r.0, Do(p, acts[0]), acts[1..]);
      ReadConcat(k, EntriesOf(p, acts[0]), RunEntries(Do(p, acts[0]), acts[1..]));
    }
  }

  /** Main result: for every run in which observations come in the order of their times and every equity the
      broker samples can be computed, the ledger can be read, and the accounts recovered from it are the broker's:
      cash, positions, marks and peak. */
  lemma {:induction false} RecoveryRefinesBroker(acts: seq<Act>)
    requires FitRun(EmptyPaper(false), acts)
    ensures Sound(EmptyPaper(false))
    ensures var read := ReadAll(NOTHING_KNOWN, RunEntries(EmptyPaper(false), acts));
            && read.Some?
            && var p, a := RunActs(EmptyPaper(false), acts), Recover(read.value.1);
               && a.valid && a.cash == p.cash && a.positions == p.positions && a.marks == p.marks
               && a.peak == p.peak && a.latest == p.latest && p.pnlValid
  {
    hide RunActs, RunNotes, RunEntries, ReadAll, Take, Sample;
    var p := EmptyPaper(false);
    assert Remembers(NOTHING_KNOWN, p.orders);
    RunIsRead(NOTHING_KNOWN, p, acts);
    assert Matches(NO_ACCOUNTS, p);
    RunMatches(NO_ACCOUNTS, p, acts);
    FoldConcat([], RunNotes(p, acts));
    assert [] + RunNotes(p, acts) == RunNotes(p, acts);
    FlushKeeps(Fold(RunNotes(p, acts)));
  }

  lemma FlushKeeps(a: Accounts)
    ensures Flush(a) == a.(peak := Flush(a).peak, valid := Flush(a).valid, pending := false)
  {
  }
}
