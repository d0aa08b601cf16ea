/**
 Delivery of ledger events to the strategy: the outbound queue, the cursors of what was collected, delivered
 and acknowledged, and what a reconnecting strategy is sent again.

 A record is what delivery reads of it: its payload and whether it is in this session's scope. The lock is
 left out.
*/
module EventDelivery {
  import opened Base

  datatype Item = Item(payload: string, inScope: bool)

  datatype Sent = Sent(sequence: nat, payload: string)

  /** The ledger, the last event collected, what waits to be sent, the last event delivered and the last one
      acknowledged, and whether a full queue has stopped the executor. */
  datatype Progress = Progress(
    capacity: nat, ledger: seq<Item>, collected: nat, outbound: seq<Sent>, delivered: nat, acknowledged: nat, stopped: bool)

  function NewProgress(capacity: nat, ledger: seq<Item>): Progress {
    Progress(capacity, ledger, |ledger|, [], 0, 0, false)
  }

  /** The records after the first `c`, with their sequence numbers. */
  function After(ledger: seq<Item>, c: nat): (events: seq<Sent>)
    requires c <= |ledger|
    ensures |events| == |ledger| - c
    ensures forall i :: 0 <= i < |events| ==> events[i] == Sent(c + i + 1, ledger[c + i].payload)
  {
    seq(|ledger| - c, i requires 0 <= i < |ledger| - c => Sent(c + i + 1, ledger[c + i].payload))
  }

  ghost predicate InScope(ledger: seq<Item>, c: nat) {
    forall i :: c <= i < |ledger| ==> ledger[i].inScope
  }

  ghost predicate Ascending(queue: seq<Sent>) {
    forall i, j :: 0 <= i < j < |queue| ==> queue[i].sequence < queue[j].sequence
  }

  /** The queue without its front items at or below `c`. */
  function Discard(queue: seq<Sent>, c: nat): seq<Sent> {
    if queue == [] || queue[0].sequence > c then queue else Discard(queue[1..], c)
  }

  // ---------------------------------------------------------------- what is kept

  /** The cursors are in order, and the queue holds collected events in order, each as the ledger has it. */
  ghost predicate InOrder(p: Progress) {
    p.acknowledged <= p.delivered <= |p.ledger| && p.collected <= |p.ledger| && Waiting(p.outbound, p.ledger, p.collected)
  }

  /** A queue of events among the first `collected`, in order, each as the ledger has it. */
  ghost predicate Waiting(queue: seq<Sent>, ledger: seq<Item>, collected: nat)
    requires collected <= |ledger|
  {
    && Ascending(queue)
    && forall i :: 0 <= i < |queue| ==>
         0 < queue[i].sequence <= collected && queue[i].payload == ledger[queue[i].sequence - 1].payload
  }

  /** Nothing acknowledged waits to be sent. */
  ghost predicate NothingStale(p: Progress) {
    forall i :: 0 <= i < |p.outbound| ==> p.outbound[i].sequence > p.acknowledged
  }

  // ---------------------------------------------------------------- steps

  datatype Step =
    | Grow(more: seq<Item>)
    | Collect(after: nat)
    | Establish(established: nat)
    | Acknowledge(upTo: nat)
    | Deliver(event: nat)

  /** Up to where the records after the first `c` are in scope. */
  function Reach(ledger: seq<Item>, c: nat): (reach: nat)
    requires c <= |ledger|
    ensures c <= reach <= |ledger| && (reach == |ledger| || !ledger[reach].inScope)
    ensures forall i :: c <= i < reach ==> ledger[i].inScope
    decreases |ledger| - c
  {
    if c == |ledger| || !ledger[c].inScope then c else Reach(ledger, c + 1)
  }

  function Room(p: Progress): nat {
    if |p.outbound| < p.capacity then p.capacity - |p.outbound| else 0
  }

  /** Collection goes on from the last event collected, up to one that is not in scope; what finds the queue full
      is skipped, and stops the executor. */
  function AfterCollect(p: Progress, c: nat): Progress {
    if c >= |p.ledger| || c != p.collected then p
    else
      var reach := Reach(p.ledger, c);
      p.(collected := reach, outbound := p.outbound + After(p.ledger, c)[..Min(Room(p), reach - c)],
         stopped := p.stopped || reach - c > Room(p))
  }

  /** Whether a collection succeeds. */
  predicate Collects(p: Progress, c: nat) {
    c == |p.ledger| || (c < |p.ledger| && c == p.collected && Reach(p.ledger, c) == |p.ledger|)
  }

  predicate Establishes(p: Progress, c: nat) {
    p.acknowledged <= c <= |p.ledger|
  }

  predicate Acknowledges(p: Progress, c: nat) {
    p.acknowledged <= c <= p.delivered
  }

  function Next(p: Progress, step: Step): Progress {
    match step
    case Grow(more) => p.(ledger := p.ledger + more)
    case Collect(c) => AfterCollect(p, c)
    case Establish(c) =>
      if Establishes(p, c) then p.(acknowledged := c, delivered := Max(p.delivered, c), outbound := Discard(p.outbound, c)) else p
    case Acknowledge(c) =>
      if Acknowledges(p, c) then p.(acknowledged := c, outbound := Discard(p.outbound, c)) else p
    case Deliver(c) => if 0 < c <= |p.ledger| then p.(delivered := Max(p.delivered, c)) else p
  }

  // ---------------------------------------------------------------- discarding

  /** In an ascending queue, discarding from the front leaves exactly the items above the cursor. */
  lemma {:induction false} DiscardLeavesTheRest(queue: seq<Sent>, c: nat)
    requires Ascending(queue)
    ensures Ascending(Discard(queue, c))
    ensures forall x :: x in Discard(queue, c) <==> x in queue && x.sequence > c
    ensures exists k :: 0 <= k <= |queue| && Discard(queue, c) == queue[k..]
  {
    if queue == [] || queue[0].sequence > c {
      assert queue[0..] == queue;
    } else {
      DiscardLeavesTheRest(queue[1..], c);
      var k :| 0 <= k <= |queue| - 1 && Discard(queue[1..], c) == queue[1..][k..];
      assert queue[1..][k..] == queue[k + 1..];
      assert forall x :: x in queue <==> x == queue[0] || x in queue[1..];
    }
  }

  lemma {:induction false} DiscardKeepsOrder(p: Progress, c: nat)
    requires InOrder(p)
    ensures InOrder(p.(outbound := Discard(p.outbound, c)))
    ensures forall i :: 0 <= i < |Discard(p.outbound, c)| ==> Discard(p.outbound, c)[i].sequence > c
  {
    hide Waiting, Discard;
    DiscardWaits(p.outbound, p.ledger, p.collected, c);
  }

  lemma {:induction false} DiscardWaits(queue: seq<Sent>, ledger: seq<Item>, collected: nat, c: nat)
    requires collected <= |ledger| && Waiting(queue, ledger, collected)
    ensures Waiting(Discard(queue, c), ledger, collected)
    ensures forall i :: 0 <= i < |Discard(queue, c)| ==> Discard(queue, c)[i].sequence > c
  {
    var k := DiscardedCount(queue, c);
    hide Waiting, Ascending, Discard;
    SuffixWaits(queue, ledger, collected, k);
  }

  /** How many items are discarded from the front. */
  lemma {:induction false} DiscardedCount(queue: seq<Sent>, c: nat) returns (k: nat)
    requires Ascending(queue)
    ensures k <= |queue| && Discard(queue, c) == queue[k..]
    ensures forall i :: 0 <= i < |queue[k..]| ==> queue[k..][i].sequence > c
  {
    k := 0;
    if queue != [] && queue[0].sequence <= c {
      var j := DiscardedCount(queue[1..], c);
      k := j + 1;
      assert queue[k..] == queue[1..][j..];
    }
  }

  lemma SuffixWaits(queue: seq<Sent>, ledger: seq<Item>, collected: nat, k: nat)
    requires collected <= |ledger| && k <= |queue| && Waiting(queue, ledger, collected)
    ensures Waiting(queue[k..], ledger, collected)
  {
  }

  lemma MoreWait(queue: seq<Sent>, ledger: seq<Item>, c: nat, k: nat, reach: nat)
    requires c + k <= reach <= |ledger| && Waiting(queue, ledger, c)
    ensures Waiting(queue + After(ledger, c)[..k], ledger, reach)
  {
    var all := queue + After(ledger, c)[..k];
    forall i | 0 <= i < |all|
      ensures 0 < all[i].sequence <= reach && all[i].payload == ledger[all[i].sequence - 1].payload
      ensures i < |queue| ==> all[i] == queue[i]
      ensures i >= |queue| ==> all[i].sequence == c + (i - |queue|) + 1
    {
    }
  }

  // ---------------------------------------------------------------- collecting

  /** Collection keeps the queue in order. It leaves something acknowledged in it exactly when something was there,
      or when the acknowledged cursor is past the collected one and the next event in scope finds room. */
  lemma {:induction false} CollectIsStaleIff(p: Progress, c: nat)
    requires InOrder(p)
    ensures InOrder(AfterCollect(p, c))
    ensures NothingStale(AfterCollect(p, c)) <==>
            NothingStale(p) && !(c == p.collected < p.acknowledged && p.ledger[c].inScope && Room(p) > 0)
  {
    if c < |p.ledger| && c == p.collected {
      var k := Min(Room(p), Reach(p.ledger, c) - c);
      MoreWait(p.outbound, p.ledger, c, k, Reach(p.ledger, c));
      hide Waiting, After, Room, Reach;
      StaleIff(p.outbound, After(p.ledger, c)[..k], p.acknowledged);
      assert k > 0 ==> After(p.ledger, c)[..k][0].sequence == c + 1;
      assert forall i :: 0 <= i < k ==> After(p.ledger, c)[..k][i].sequence > c;
    }
  }

  lemma StaleIff(queue: seq<Sent>, more: seq<Sent>, acknowledged: nat)
    ensures (forall i :: 0 <= i < |queue + more| ==> (queue + more)[i].sequence > acknowledged)
            <==> (forall i :: 0 <= i < |queue| ==> queue[i].sequence > acknowledged)
                 && (forall i :: 0 <= i < |more| ==> more[i].sequence > acknowledged)
  {
    var all := queue + more;
    assert forall i :: 0 <= i < |queue| ==> all[i] == queue[i];
    assert forall i :: 0 <= i < |more| ==> all[|queue| + i] == more[i];
  }

  // ---------------------------------------------------------------- runs

  ghost predicate Trace(states: seq<Progress>, steps: seq<Step>) {
    |states| == |steps| + 1 && forall i :: 0 <= i < |steps| ==> states[i + 1] == Next(states[i], steps[i])
  }

  /** A cursor that the strategy moves past what was collected. */
  predicate RunsAhead(p: Progress, step: Step) {
    match step
    case Establish(c) => Establishes(p, c) && c > p.collected
    case Acknowledge(c) => Acknowledges(p, c) && c > p.collected
    case _ => false
  }

  lemma {:induction false} StepKeepsOrder(p: Progress, step: Step)
    requires InOrder(p)
    ensures InOrder(Next(p, step))
    ensures NothingStale(p) && p.acknowledged <= p.collected ==> NothingStale(Next(p, step))
    ensures p.acknowledged <= p.collected ==>
              (Next(p, step).acknowledged <= Next(p, step).collected <==> !RunsAhead(p, step))
  {
    hide AfterCollect, Discard;
    match step
    case Collect(c) =>
      CollectIsStaleIff(p, c);
      CollectGoesOn(p, c);
    case Establish(c) => DiscardKeepsOrder(p, c);
    case Acknowledge(c) => DiscardKeepsOrder(p, c);
    case _ =>
  }

  lemma CollectGoesOn(p: Progress, c: nat)
    ensures AfterCollect(p, c).collected >= p.collected && AfterCollect(p, c).acknowledged == p.acknowledged
  {
  }

  /** Nothing is acknowledged before it was collected. */
  predicate Behind(p: Progress) {
    p.acknowledged <= p.collected
  }

  /** Main result: over any steps, the cursors stay in order and the queue holds collected events in order; nothing
      acknowledged waits to be sent as long as the acknowledged cursor is behind the collected one, which it is
      exactly until the strategy moves one ahead. */
  lemma {:induction false} RunStaysInOrder(states: seq<Progress>, steps: seq<Step>, n: nat)
    requires Trace(states, steps) && InOrder(states[0]) && NothingStale(states[0]) && Behind(states[0]) && n <= |steps|
    ensures forall i :: 0 <= i <= n ==> InOrder(states[i])
    ensures (forall i :: 0 <= i <= n ==> Behind(states[i])) <==> (forall i :: 0 <= i < n ==> !RunsAhead(states[i], steps[i]))
    ensures (forall i :: 0 <= i < n ==> !RunsAhead(states[i], steps[i])) ==> forall i :: 0 <= i <= n ==> NothingStale(states[i])
  {
    hide InOrder, NothingStale, RunsAhead, Next;
    if n > 0 {
      RunStaysInOrder(states, steps, n - 1);
      assert states[n - 1 + 1] == Next(states[n - 1], steps[n - 1]);
      StepKeepsOrder(states[n - 1], steps[n - 1]);
    }
  }

  lemma NewIsInOrder(capacity: nat, ledger: seq<Item>)
    ensures InOrder(NewProgress(capacity, ledger)) && NothingStale(NewProgress(capacity, ledger))
    ensures NewProgress(capacity, ledger).acknowledged <= NewProgress(capacity, ledger).collected
  {
  }

  /** An event that was not collected reaches a reconnecting strategy, is acknowledged, and is queued afterwards. */
  lemma {:induction false} AcknowledgedEventIsQueued()
    ensures var item := Item("stop", true);
            var p := Next(Next(Next(NewProgress(10, []), Grow([item])), Deliver(1)), Acknowledge(1));
            && After(p.ledger, 0) == [Sent(1, "stop")] && p.acknowledged == 1 && p.collected == 0
            && Next(p, Collect(0)).outbound == [Sent(1, "stop")]
            && !NothingStale(Next(p, Collect(0))) && !Next(p, Collect(0)).stopped
  {
    var item := Item("stop", true);
    var p := Next(Next(Next(NewProgress(10, []), Grow([item])), Deliver(1)), Acknowledge(1));
    assert [] + [item] == [item];
    assert p == Progress(10, [item], 0, [], 1, 1, false);
    assert Reach([item], 0) == 1;
    assert After([item], 0)[..1] == [Sent(1, "stop")];
    assert [] + [Sent(1, "stop")] == [Sent(1, "stop")];
    assert Next(p, Collect(0)).outbound[0] == Sent(1, "stop");
  }

  lemma ReachFrom(ledger: seq<Item>, n: nat)
    requires n <= |ledger|
    ensures n == |ledger| || !ledger[n].inScope ==> Reach(ledger, n) == n
    ensures n < |ledger| && ledger[n].inScope ==> Reach(ledger, n) == Reach(ledger, n + 1)
  {
  }

  /** One event queued, unless the queue is full. */
  function Queued(p: Progress, item: Sent): Progress {
    if |p.outbound| < p.capacity then p.(collected := item.sequence, outbound := p.outbound + [item])
    else p.(collected := item.sequence, stopped := true)
  }

  /** A collection that has come to record `n`. */
  function CollectedTo(p: Progress, c: nat, n: nat): Progress
    requires c <= n <= |p.ledger|
  {
    p.(collected := if n > c then n else p.collected, outbound := p.outbound + After(p.ledger, c)[..Min(Room(p), n - c)],
       stopped := p.stopped || n - c > Room(p))
  }

  lemma CollectsOneMore(p: Progress, c: nat, n: nat)
    requires c <= n < |p.ledger|
    ensures CollectedTo(p, c, n + 1) == Queued(CollectedTo(p, c, n), Sent(n + 1, p.ledger[n].payload))
  {
    var events, room := After(p.ledger, c), Room(p);
    assert |CollectedTo(p, c, n).outbound| == |p.outbound| + Min(room, n - c);
    if n - c < room {
      assert events[..n + 1 - c] == events[..n - c] + [events[n - c]];
    }
  }

  lemma CollectEnds(p: Progress, c: nat, n: nat)
    requires c <= n <= |p.ledger| && (n > c ==> c == p.collected)
    requires if n == c && c < |p.ledger| && c != p.collected then true else Reach(p.ledger, c) == n
    ensures AfterCollect(p, c) == CollectedTo(p, c, n)
  {
    if n == c {
      CollectsNothing(p, c);
    }
  }

  lemma CollectsNothing(p: Progress, c: nat)
    requires c <= |p.ledger|
    ensures CollectedTo(p, c, c) == p
  {
    assert After(p.ledger, c)[..0] == [] && p.outbound + [] == p.outbound;
  }

  // ---------------------------------------------------------------- the program

  class Delivery {
    const capacity: nat
    var ledger: seq<Item>
    var collected: nat
    var outbound: seq<Sent>
    var delivered: nat
    var acknowledged: nat
    var stopped: bool

    ghost function State(): Progress
      reads this
    {
      Progress(capacity, ledger, collected, outbound, delivered, acknowledged, stopped)
    }

    /** The executor starts with everything in its ledger collected. */
    constructor (capacity: nat, ledger: seq<Item>)
      ensures State() == NewProgress(capacity, ledger)
    {
      this.capacity, this.ledger := capacity, ledger;
      collected, outbound, delivered, acknowledged, stopped := |ledger|, [], 0, 0, false;
    }

    /** Queues an event, unless the queue is full. */
    method Queue(item: Sent) returns (queued: bool)
      modifies this`collected, this`outbound, this`stopped
      ensures State() == Queued(old(State()), item) && queued == (|old(outbound)| < capacity)
    {
      collected := item.sequence;
      queued := |outbound| < capacity;
      if queued {
        outbound := outbound + [item];
      } else {
        stopped := true;
      }
    }

    /** Queues the events after the first `c`; nothing is returned when some record does not follow on. */
    method CollectAfter(c: nat) returns (emitted: Option<seq<Sent>>)
      modifies this`collected, this`outbound, this`stopped
      ensures State() == Next(old(State()), Collect(c))
      ensures emitted.Some? <==> Collects(old(State()), c)
      ensures emitted.Some? ==> outbound == old(outbound) + emitted.value
    {
      if c > |ledger| {
        return None;
      }
      ghost var start := State();
      var sent: seq<Sent> := [];
      var next := c;
      CollectsNothing(start, c);
      hide Reach, CollectedTo;
      while next < |ledger|
        invariant c <= next <= |ledger|
        invariant next > c ==> c == start.collected && collected == next
        invariant State() == CollectedTo(start, c, next) && outbound == start.outbound + sent
        invariant Reach(ledger, c) == Reach(ledger, next)
      {
        ReachFrom(ledger, next);
        if next != collected || !ledger[next].inScope {
          CollectEnds(start, c, next);
          return None;
        }
        CollectsOneMore(start, c, next);
        var item := Sent(next + 1, ledger[next].payload);
        var queued := Queue(item);
        if queued {
          sent := sent + [item];
        }
        next := next + 1;
      }
      ReachFrom(ledger, next);
      CollectEnds(start, c, next);
      emitted := Some(sent);
    }

    /** What a strategy that has seen the first `c` events is sent again. */
    method Reconnect(c: nat) returns (events: Option<seq<Sent>>)
      ensures events.Some? <==> c <= |ledger| && InScope(ledger, c)
      ensures events.Some? ==> events.value == After(ledger, c)
    {
      if c > |ledger| {
        return None;
      }
      var output: seq<Sent> := [];
      for i := c to |ledger|
        invariant output == After(ledger, c)[..i - c]
        invariant forall k :: c <= k < i ==> ledger[k].inScope
      {
        if !ledger[i].inScope {
          return None;
        }
        assert After(ledger, c)[i - c] == Sent(i + 1, ledger[i].payload);
        output := output + [Sent(i + 1, ledger[i].payload)];
      }
      events := Some(output);
    }

    method DiscardThrough(c: nat)
      modifies this`outbound
      ensures outbound == Discard(old(outbound), c)
    {
      while outbound != [] && outbound[0].sequence <= c
        invariant Discard(outbound, c) == Discard(old(outbound), c)
        decreases |outbound|
      {
        outbound := outbound[1..];
      }
    }

    /** A strategy connects with its own cursor. */
    method EstablishCursor(c: nat) returns (ok: bool)
      requires InOrder(State())
      modifies this`acknowledged, this`delivered, this`outbound
      ensures State() == Next(old(State()), Establish(c)) && (ok <==> Establishes(old(State()), c))
      ensures InOrder(State()) && (ok ==> acknowledged == c && NothingStale(State()))
    {
      DiscardKeepsOrder(State(), c);
      ok := acknowledged <= c <= |ledger|;
      if ok {
        acknowledged := c;
        delivered := Max(delivered, c);
        DiscardThrough(c);
      }
    }

    method AcknowledgeThrough(c: nat) returns (ok: bool)
      requires InOrder(State())
      modifies this`acknowledged, this`outbound
      ensures State() == Next(old(State()), Acknowledge(c)) && (ok <==> Acknowledges(old(State()), c))
      ensures InOrder(State()) && (ok ==> acknowledged == c && NothingStale(State()))
    {
      DiscardKeepsOrder(State(), c);
      ok := acknowledged <= c <= delivered;
      if ok {
        acknowledged := c;
        DiscardThrough(c);
      }
    }

    method MarkDelivered(c: nat) returns (ok: bool)
      modifies this`delivered
      ensures State() == Next(old(State()), Deliver(c)) && (ok <==> 0 < c <= |ledger|)
    {
      ok := 0 < c <= |ledger|;
      if ok {
        delivered := Max(delivered, c);
      }
    }
  }
}
