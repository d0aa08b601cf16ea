/**
 The reconciler: the mirror against what the broker reports, incident by incident, and what it means that
 there is none. Identifier syntax and the strategy's desired positions are left out.
*/
module Reconciliation {
  import opened Base
  import opened PaperBroker
  import opened Mirror
  import opened Capture

  datatype Kind = OrderKind | FillKind | PositionKind

  datatype Origin = FromMirror | FromBroker

  datatype Incident =
    | QueryUnavailable(unavailable: Kind)
    | ProvenanceInvalid
    | ItemInvalid(invalid: Kind, origin: Origin)
    | Duplicate(duplicated: Kind, duplicate: Origin)
    | Missing(missing: Kind, missingKey: string)
    | Changed(changed: Kind, changedKey: string)
    | Extra(extra: Kind, extraKey: string)
    | SnapshotInvalid

  /** A broker's report: whether it is authoritative, whether its provenance is known, and its items. */
  datatype Report<T> = Report(authoritative: bool, provenance: bool, items: seq<T>)

  // ---------------------------------------------------------------- keyed items

  function Keys<T>(items: seq<T>, key: T -> string): set<string> {
    set i | 0 <= i < |items| :: key(items[i])
  }

  ghost predicate DistinctKeys<T(!new)>(items: seq<T>, key: T -> string) {
    forall i, j :: 0 <= i < j < |items| ==> key(items[i]) != key(items[j])
  }

  /** `m` holds the first item of each key. */
  ghost predicate Indexes<T(!new)>(m: map<string, T>, items: seq<T>, key: T -> string) {
    && (forall k :: k in m ==> exists i :: 0 <= i < |items| && key(items[i]) == k && m[k] == items[i])
    && (forall i :: 0 <= i < |items| ==> key(items[i]) in m)
  }

  lemma RepeatedKey<T(!new)>(m: map<string, T>, items: seq<T>, x: T, key: T -> string)
    requires Indexes(m, items, key) && key(x) in m
    ensures Indexes(m, items + [x], key) && !DistinctKeys(items + [x], key)
  {
    var longer := items + [x];
    var j :| 0 <= j < |items| && key(items[j]) == key(x) && m[key(x)] == items[j];
    assert key(longer[j]) == key(longer[|items|]);
    forall k | k in m ensures exists i :: 0 <= i < |longer| && key(longer[i]) == k && m[k] == longer[i] {
      var i :| 0 <= i < |items| && key(items[i]) == k && m[k] == items[i];
      assert longer[i] == items[i];
    }
  }

  lemma NewKey<T(!new)>(m: map<string, T>, items: seq<T>, x: T, key: T -> string)
    requires Indexes(m, items, key) && key(x) !in m
    ensures Indexes(m[key(x) := x], items + [x], key)
    ensures DistinctKeys(items + [x], key) <==> DistinctKeys(items, key)
  {
    var longer := items + [x];
    assert longer[|items|] == x;
    var next := m[key(x) := x];
    forall k | k in next ensures exists i :: 0 <= i < |longer| && key(longer[i]) == k && next[k] == longer[i] {
      if k != key(x) {
        var i :| 0 <= i < |items| && key(items[i]) == k && m[k] == items[i];
        assert longer[i] == items[i];
      }
    }
    forall i, j | 0 <= i < j < |longer| && DistinctKeys(items, key) ensures key(longer[i]) != key(longer[j]) {
      assert longer[i] == items[i] && key(items[i]) in m;
    }
    if DistinctKeys(longer, key) {
      assert forall i :: 0 <= i < |items| ==> longer[i] == items[i];
    }
  }

  method UniqueMap<T(!new)>(items: seq<T>, key: T -> string, incident: Incident, incidents: seq<Incident>)
    returns (m: map<string, T>, out: seq<Incident>)
    ensures Indexes(m, items, key)
    ensures incidents <= out
    ensures out == incidents <==> DistinctKeys(items, key)
    ensures out == incidents ==> forall i :: 0 <= i < |items| ==> key(items[i]) in m && m[key(items[i])] == items[i]
  {
    m, out := map[], incidents;
    for i := 0 to |items|
      invariant Indexes(m, items[..i], key)
      invariant incidents <= out && (out == incidents <==> DistinctKeys(items[..i], key))
      invariant out == incidents ==> forall j :: 0 <= j < i ==> key(items[j]) in m && m[key(items[j])] == items[j]
    {
      var k := key(items[i]);
      assert items[..i + 1] == items[..i] + [items[i]];
      if k in m {
        RepeatedKey(m, items[..i], items[i], key);
        out := out + [incident];
      } else {
        NewKey(m, items[..i], items[i], key);
        m := m[k := items[i]];
      }
    }
    assert items[..|items|] == items;
  }

  /** Both maps hold the same. */
  method CompareMaps<T(==)>(mirrored: map<string, T>, broker: map<string, T>, kind: Kind, incidents: seq<Incident>)
    returns (out: seq<Incident>)
    ensures incidents <= out
    ensures out == incidents <==> mirrored == broker
  {
    out := incidents;
    var left := mirrored.Keys;
    while left != {}
      invariant left <= mirrored.Keys && incidents <= out
      invariant out == incidents <==> forall k :: k in mirrored.Keys - left ==> k in broker && broker[k] == mirrored[k]
      decreases left
    {
      var k :| k in left;
      left := left - {k};
      if k !in broker {
        out := out + [Missing(kind, k)];
      } else if broker[k] != mirrored[k] {
        out := out + [Changed(kind, k)];
      }
    }
    assert mirrored.Keys - left == mirrored.Keys;
    ghost var half := out == incidents;
    left := broker.Keys;
    while left != {}
      invariant left <= broker.Keys && incidents <= out
      invariant out == incidents <==> half && forall k :: k in broker.Keys - left ==> k in mirrored
      decreases left
    {
      var k :| k in left;
      left := left - {k};
      if k !in mirrored {
        out := out + [Extra(kind, k)];
      }
    }
    assert broker.Keys - left == broker.Keys;
    if half && forall k :: k in broker ==> k in mirrored {
      assert mirrored.Keys == broker.Keys;
    }
  }

  method CheckItems<T>(items: seq<T>, valid: T -> bool, incident: Incident, incidents: seq<Incident>) returns (out: seq<Incident>)
    ensures incidents <= out
    ensures out == incidents <==> forall i :: 0 <= i < |items| ==> valid(items[i])
  {
    out := incidents;
    for i := 0 to |items|
      invariant incidents <= out
      invariant out == incidents <==> forall j :: 0 <= j < i ==> valid(items[j])
    {
      if !valid(items[i]) {
        out := out + [incident];
      }
    }
  }

  // ---------------------------------------------------------------- what agreement means

  predicate ValidOrder(x: OrderSnapshot) {
    x.token != "" && x.quantity != 0 && x.filled <= x.quantity && x.limitPrice != 0 && Reported(x.status)
  }

  predicate ValidFill(x: Fill) {
    x.fillId != "" && x.token != "" && x.last != 0 && x.last <= x.cumulative && x.price != 0
  }

  predicate ValidHeld(x: HeldPosition) {
    x.token != ""
  }

  function OrderKey(x: OrderSnapshot): string { x.orderId }
  function FillKey(x: Fill): string { x.fillId }
  function PositionKey(x: HeldPosition): string { x.instrument }

  /** The same items, each under its own key. */
  ghost predicate SameItems<T(!new)>(mirrored: seq<T>, broker: seq<T>, key: T -> string, valid: T -> bool) {
    && DistinctKeys(mirrored, key) && DistinctKeys(broker, key)
    && (forall x :: x in mirrored <==> x in broker)
    && (forall i :: 0 <= i < |mirrored| ==> valid(mirrored[i])) && (forall i :: 0 <= i < |broker| ==> valid(broker[i]))
  }

  ghost predicate DistinctTokens(positions: seq<HeldPosition>) {
    forall i, j :: 0 <= i < j < |positions| ==> positions[i].token != positions[j].token
  }

  ghost predicate Usable<T>(r: Report<T>) {
    r.authoritative && r.provenance
  }

  /** Exact agreement, as a statement about the reports. */
  ghost predicate Agreement(m: Mirrored, orders: Report<OrderSnapshot>, fills: Report<Fill>, positions: Report<HeldPosition>) {
    && Usable(orders) && Usable(fills) && Usable(positions)
    && SameItems(m.orders, orders.items, OrderKey, ValidOrder)
    && SameItems(m.fills, fills.items, FillKey, ValidFill)
    && SameItems(m.positions, positions.items, PositionKey, ValidHeld)
    && DistinctTokens(positions.items)
  }

  /** Orders under ids of their own, each sized, priced, in a state a broker reports, and filled within its quantity. */
  ghost predicate ProperOrders(xs: seq<OrderSnapshot>) {
    && (forall i, j :: 0 <= i < j < |xs| ==> xs[i].orderId != xs[j].orderId)
    && forall i :: 0 <= i < |xs| ==>
         && xs[i].token != "" && xs[i].quantity != 0 && xs[i].limitPrice != 0 && xs[i].filled <= xs[i].quantity
         && xs[i].status != Unreported
  }

  ghost predicate ProperFills(xs: seq<Fill>) {
    && (forall i, j :: 0 <= i < j < |xs| ==> xs[i].fillId != xs[j].fillId)
    && forall i :: 0 <= i < |xs| ==>
         xs[i].fillId != "" && xs[i].token != "" && xs[i].price != 0 && 0 < xs[i].last <= xs[i].cumulative
  }

  ghost predicate ProperPositions(xs: seq<HeldPosition>) {
    && (forall i, j :: 0 <= i < j < |xs| ==> xs[i].instrument != xs[j].instrument)
    && forall i :: 0 <= i < |xs| ==> xs[i].token != ""
  }

  /** Exact agreement, on the fields of the reports: all are given with known provenance, every item on either side is
      proper, tokens are not shared, and both sides hold the same items. */
  lemma AgreementIs(m: Mirrored, orders: Report<OrderSnapshot>, fills: Report<Fill>, positions: Report<HeldPosition>)
    ensures Agreement(m, orders, fills, positions) <==>
            && orders.authoritative && orders.provenance && fills.authoritative && fills.provenance
            && positions.authoritative && positions.provenance
            && ProperOrders(m.orders) && ProperOrders(orders.items) && (forall x :: x in m.orders <==> x in orders.items)
            && ProperFills(m.fills) && ProperFills(fills.items) && (forall x :: x in m.fills <==> x in fills.items)
            && ProperPositions(m.positions) && ProperPositions(positions.items)
            && (forall x :: x in m.positions <==> x in positions.items)
            && (forall i, j :: 0 <= i < j < |positions.items| ==> positions.items[i].token != positions.items[j].token)
  {
    ProperOrdersAre(m.orders);
    ProperOrdersAre(orders.items);
    ProperFillsAre(m.fills);
    ProperFillsAre(fills.items);
    ProperPositionsAre(m.positions);
    ProperPositionsAre(positions.items);
    hide ProperOrders, ProperFills, ProperPositions, DistinctKeys, ValidOrder, ValidFill, ValidHeld;
  }

  lemma ProperOrdersAre(xs: seq<OrderSnapshot>)
    ensures ProperOrders(xs) <==> DistinctKeys(xs, OrderKey) && forall i :: 0 <= i < |xs| ==> ValidOrder(xs[i])
  {
  }

  lemma ProperFillsAre(xs: seq<Fill>)
    ensures ProperFills(xs) <==> DistinctKeys(xs, FillKey) && forall i :: 0 <= i < |xs| ==> ValidFill(xs[i])
  {
  }

  lemma ProperPositionsAre(xs: seq<HeldPosition>)
    ensures ProperPositions(xs) <==> DistinctKeys(xs, PositionKey) && forall i :: 0 <= i < |xs| ==> ValidHeld(xs[i])
  {
  }

  /** Equal indexes of distinct keys hold the same items. */
  lemma {:induction false} SameIndexesSameItems<T(!new)>(a: seq<T>, b: seq<T>, m: map<string, T>, n: map<string, T>, key: T -> string)
    requires Indexes(m, a, key) && Indexes(n, b, key) && DistinctKeys(a, key) && DistinctKeys(b, key)
    requires forall i :: 0 <= i < |a| ==> key(a[i]) in m && m[key(a[i])] == a[i]
    requires forall i :: 0 <= i < |b| ==> key(b[i]) in n && n[key(b[i])] == b[i]
    ensures m == n <==> forall x :: x in a <==> x in b
  {
    if m == n {
      forall x ensures x in a <==> x in b {
        if x in a {
          var i :| 0 <= i < |a| && a[i] == x;
          var j :| 0 <= j < |b| && key(b[j]) == key(x) && n[key(x)] == b[j];
        }
        if x in b {
          var i :| 0 <= i < |b| && b[i] == x;
          var j :| 0 <= j < |a| && key(a[j]) == key(x) && m[key(x)] == a[j];
        }
      }
    }
    if forall x :: x in a <==> x in b {
      forall k ensures k in m <==> k in n {
        if k in m {
          var i :| 0 <= i < |a| && key(a[i]) == k && m[k] == a[i];
          assert a[i] in b;
        }
        if k in n {
          var i :| 0 <= i < |b| && key(b[i]) == k && n[k] == b[i];
          assert b[i] in a;
        }
      }
      forall k | k in m ensures m[k] == n[k] {
        var i :| 0 <= i < |a| && key(a[i]) == k && m[k] == a[i];
        assert a[i] in b;
        var j :| 0 <= j < |b| && b[j] == a[i];
      }
      assert m == n;
    }
  }

  /** Checks the items of one kind on both sides. */
  method CompareKind<T(==, !new)>(mirrored: seq<T>, broker: seq<T>, key: T -> string, kind: Kind, incidents: seq<Incident>)
    returns (out: seq<Incident>)
    ensures incidents <= out
    ensures out == incidents <==>
            DistinctKeys(mirrored, key) && DistinctKeys(broker, key) && forall x :: x in mirrored <==> x in broker
  {
    var m, first := UniqueMap(mirrored, key, Duplicate(kind, FromMirror), incidents);
    var n, second := UniqueMap(broker, key, Duplicate(kind, FromBroker), first);
    out := CompareMaps(m, n, kind, second);
    if second == incidents {
      SameIndexesSameItems(mirrored, broker, m, n, key);
    }
  }

  method CheckTokens(positions: seq<HeldPosition>, incidents: seq<Incident>) returns (out: seq<Incident>)
    ensures incidents <= out && (out == incidents <==> DistinctTokens(positions))
  {
    var seen: set<string> := {};
    out := incidents;
    for i := 0 to |positions|
      invariant incidents <= out
      invariant forall t :: t in seen <==> exists j :: 0 <= j < i && positions[j].token == t
      invariant out == incidents <==> forall j, k :: 0 <= j < k < i ==> positions[j].token != positions[k].token
    {
      if positions[i].token in seen {
        out := out + [SnapshotInvalid];
      }
      seen := seen + {positions[i].token};
    }
  }

  /** Main result: the reconciler reports no incident exactly when every report is usable and the mirror holds
      exactly what the broker reports. */
  method Compare(m: Mirrored, orders: Report<OrderSnapshot>, fills: Report<Fill>, positions: Report<HeldPosition>)
    returns (exact: bool, incidents: seq<Incident>)
    ensures exact <==> incidents == []
    ensures exact <==> Agreement(m, orders, fills, positions)
  {
    incidents := [];
    if !orders.authoritative { incidents := incidents + [QueryUnavailable(OrderKind)]; }
    if !fills.authoritative { incidents := incidents + [QueryUnavailable(FillKind)]; }
    if !positions.authoritative { incidents := incidents + [QueryUnavailable(PositionKind)]; }
    if !orders.provenance { incidents := incidents + [ProvenanceInvalid]; }
    if !fills.provenance { incidents := incidents + [ProvenanceInvalid]; }
    if !positions.provenance { incidents := incidents + [ProvenanceInvalid]; }
    ghost var reports := incidents;
    assert reports == [] <==> Usable(orders) && Usable(fills) && Usable(positions);
    hide Usable, ValidOrder, ValidFill, ValidHeld, DistinctKeys, DistinctTokens;
    incidents := CheckItems(m.orders, ValidOrder, ItemInvalid(OrderKind, FromMirror), incidents);
    incidents := CheckItems(orders.items, ValidOrder, ItemInvalid(OrderKind, FromBroker), incidents);
    incidents := CheckItems(m.fills, ValidFill, ItemInvalid(FillKind, FromMirror), incidents);
    incidents := CheckItems(fills.items, ValidFill, ItemInvalid(FillKind, FromBroker), incidents);
    incidents := CheckItems(m.positions, ValidHeld, ItemInvalid(PositionKind, FromMirror), incidents);
    incidents := CheckItems(positions.items, ValidHeld, ItemInvalid(PositionKind, FromBroker), incidents);
    ghost var valid := incidents;
    incidents := CompareKind(m.orders, orders.items, OrderKey, OrderKind, incidents);
    incidents := CompareKind(m.fills, fills.items, FillKey, FillKind, incidents);
    incidents := CompareKind(m.positions, positions.items, PositionKey, PositionKind, incidents);
    incidents := CheckTokens(positions.items, incidents);
    exact := incidents == [];
  }
}
