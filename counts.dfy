/** The count aggregator behind each building card: `countItems` and
    `countOnlineDevices`. Each tally follows its own rule about which child
    collections it descends into:
      floors  - descends into floors only;
      spaces  - descends into floors and spaces;
      rooms   - descends into spaces and rooms;
      devices and online devices - descend into floors, spaces and rooms.
    `Count` and `SumCount` are the specification; the methods are the
    source's loops, proved equal to it. */
module Counts {
  import opened Js
  import opened Hierarchy

  datatype Tally = Floors | Spaces | Rooms | Devices | OnlineDevices

  /** The `kind` argument of `countItems`; any other string selects no branch. */
  function KindOf(kind: string): Option<Tally> {
    if kind == "floors" then Some(Floors)
    else if kind == "spaces" then Some(Spaces)
    else if kind == "rooms" then Some(Rooms)
    else if kind == "devices" then Some(Devices)
    else None
  }

  /** The online counter's rule: `isOnline === true`, not mere truthiness. */
  predicate CountsAsOnline(d: Device) {
    d.isOnline == Bool(true)
  }

  /** The device row's display rule: online unless `isOnline === false`. */
  predicate ShownAsOnline(d: Device) {
    d.isOnline != Bool(false)
  }

  /** A device counted online is also shown online, but a device whose
      `isOnline` is missing is shown online without being counted. */
  lemma CountedOnlineIsShownOnline(d: Device)
    ensures CountsAsOnline(d) ==> ShownAsOnline(d)
    ensures d.isOnline == Undefined ==> ShownAsOnline(d) && !CountsAsOnline(d)
  {
  }

  /** `devices.filter(d => d.isOnline === true).length`. */
  function OnlineHere(ds: seq<Device>): (r: nat)
    ensures r <= |ds|
  {
    if ds == [] then 0
    else OnlineHere(ds[..|ds| - 1]) + (if CountsAsOnline(ds[|ds| - 1]) then 1 else 0)
  }

  /** The number of `t` entities counted from node `n`. */
  function Count(n: Node, t: Tally): nat
    decreases n, 1
  {
    match t
    case Floors => |n.floors| + SumCount(n.floors, Floors)
    case Spaces => |n.spaces| + SumCount(n.floors, Spaces) + SumCount(n.spaces, Spaces)
    case Rooms => |n.rooms| + SumCount(n.spaces, Rooms) + SumCount(n.rooms, Rooms)
    case Devices =>
      |n.devices| + SumCount(n.floors, Devices) + SumCount(n.spaces, Devices) + SumCount(n.rooms, Devices)
    case OnlineDevices =>
      OnlineHere(n.devices) + SumCount(n.floors, OnlineDevices)
        + SumCount(n.spaces, OnlineDevices) + SumCount(n.rooms, OnlineDevices)
  }

  /** The sum of `Count(x, t)` over the nodes `x` of `ns`. */
  function SumCount(ns: seq<Node>, t: Tally): nat
    decreases ns, 0
  {
    if ns == [] then 0 else SumCount(ns[..|ns| - 1], t) + Count(ns[|ns| - 1], t)
  }

  /** `countItems(item, kind)`: a missing node and an unknown kind count 0. */
  function ItemCount(item: Option<Node>, kind: string): (r: nat)
    ensures item.None? ==> r == 0
    ensures KindOf(kind).None? ==> r == 0
    ensures item.Some? && KindOf(kind).Some? ==> r == Count(item.value, KindOf(kind).value)
  {
    match item
    case None => 0
    case Some(n) =>
      match KindOf(kind)
      case None => 0
      case Some(t) => Count(n, t)
  }

  /** `countOnlineDevices(item)`: a missing node counts 0. */
  function OnlineCount(item: Option<Node>): (r: nat)
    ensures item.None? ==> r == 0
    ensures item.Some? ==> r == Count(item.value, OnlineDevices)
  {
    match item
    case None => 0
    case Some(n) => Count(n, OnlineDevices)
  }

  /** One `forEach` of `countItems`: adds the recursive count of every node of `ns`. */
  method AddEach(ns: seq<Node>, kind: string, count0: nat) returns (count: nat)
    requires KindOf(kind).Some?
    ensures count == count0 + SumCount(ns, KindOf(kind).value)
    decreases ns, 0
  {
    count := count0;
    var i := 0;
    while i < |ns|
      invariant 0 <= i <= |ns|
      invariant count == count0 + SumCount(ns[..i], KindOf(kind).value)
    {
      var c := CountItems(Some(ns[i]), kind);
      assert ns[..i + 1][..i] == ns[..i];
      count := count + c;
      i := i + 1;
    }
    assert ns[..|ns|] == ns;
  }

  /** `countItems(item, kind)` as the source computes it. */
  method CountItems(item: Option<Node>, kind: string) returns (count: nat)
    ensures count == ItemCount(item, kind)
    decreases if item.Some? then item.value else Node(None, None, None, [], [], [], []), 1
  {
    if item.None? {
      return 0;
    }
    var n := item.value;
    count := 0;
    if kind == "floors" {
      count := |n.floors|;
      count := AddEach(n.floors, kind, count);
    } else if kind == "spaces" {
      count := |n.spaces|;
      count := AddEach(n.floors, kind, count);
      count := AddEach(n.spaces, kind, count);
    } else if kind == "rooms" {
      count := |n.rooms|;
      count := AddEach(n.spaces, kind, count);
      count := AddEach(n.rooms, kind, count);
    } else if kind == "devices" {
      count := |n.devices|;
      count := AddEach(n.floors, kind, count);
      count := AddEach(n.spaces, kind, count);
      count := AddEach(n.rooms, kind, count);
    }
  }

  /** One `forEach` of `countOnlineDevices`. */
  method AddEachOnline(ns: seq<Node>, count0: nat) returns (count: nat)
    ensures count == count0 + SumCount(ns, OnlineDevices)
    decreases ns, 0
  {
    count := count0;
    var i := 0;
    while i < |ns|
      invariant 0 <= i <= |ns|
      invariant count == count0 + SumCount(ns[..i], OnlineDevices)
    {
      var c := CountOnlineDevices(Some(ns[i]));
      assert ns[..i + 1][..i] == ns[..i];
      count := count + c;
      i := i + 1;
    }
    assert ns[..|ns|] == ns;
  }

  /** `countOnlineDevices(item)` as the source computes it. */
  method CountOnlineDevices(item: Option<Node>) returns (count: nat)
    ensures count == OnlineCount(item)
    decreases if item.Some? then item.value else Node(None, None, None, [], [], [], []), 1
  {
    if item.None? {
      return 0;
    }
    var n := item.value;
    count := OnlineHere(n.devices);
    count := AddEachOnline(n.floors, count);
    count := AddEachOnline(n.spaces, count);
    count := AddEachOnline(n.rooms, count);
  }

  // ---------------------------------------------------------------------
  // Properties of the counts

  /** Only devices with `isOnline === true` count as online, so the online
      count never exceeds the device count. */
  lemma {:induction false} OnlineAtMostDevices(n: Node)
    ensures Count(n, OnlineDevices) <= Count(n, Devices)
    decreases n, 1
  {
    OnlineAtMostDevicesAll(n.floors);
    OnlineAtMostDevicesAll(n.spaces);
    OnlineAtMostDevicesAll(n.rooms);
  }

  lemma {:induction false} OnlineAtMostDevicesAll(ns: seq<Node>)
    ensures SumCount(ns, OnlineDevices) <= SumCount(ns, Devices)
    decreases ns, 0
  {
    if ns != [] {
      OnlineAtMostDevicesAll(ns[..|ns| - 1]);
      OnlineAtMostDevices(ns[|ns| - 1]);
    }
  }

  /** The child collections a tally descends into. */
  datatype Collection = FloorsOf | SpacesOf | RoomsOf

  function Descends(t: Tally): set<Collection> {
    match t
    case Floors => {FloorsOf}
    case Spaces => {FloorsOf, SpacesOf}
    case Rooms => {SpacesOf, RoomsOf}
    case Devices => {FloorsOf, SpacesOf, RoomsOf}
    case OnlineDevices => {FloorsOf, SpacesOf, RoomsOf}
  }

  /** `a` and `b` have the same shape in the collections `cs`, all the way
      down through those collections; everything else may differ. */
  predicate SameShape(a: Node, b: Node, cs: set<Collection>)
    decreases a
  {
    && (FloorsOf in cs ==>
          |a.floors| == |b.floors| &&
          forall i :: 0 <= i < |a.floors| ==> SameShape(a.floors[i], b.floors[i], cs))
    && (SpacesOf in cs ==>
          |a.spaces| == |b.spaces| &&
          forall i :: 0 <= i < |a.spaces| ==> SameShape(a.spaces[i], b.spaces[i], cs))
    && (RoomsOf in cs ==>
          |a.rooms| == |b.rooms| &&
          forall i :: 0 <= i < |a.rooms| ==> SameShape(a.rooms[i], b.rooms[i], cs))
  }

  /** The floor, space and room counts see nothing but the collections their
      tally descends into: floors are unaffected by spaces, rooms and devices
      anywhere; spaces never look inside rooms; rooms reachable only through
      floors are not counted. */
  lemma {:induction false} CountSeesOnlyDescended(a: Node, b: Node, t: Tally)
    requires t == Floors || t == Spaces || t == Rooms
    requires SameShape(a, b, Descends(t))
    ensures Count(a, t) == Count(b, t)
    decreases a, 1
  {
    var cs := Descends(t);
    if FloorsOf in cs { CountSeesOnlyDescendedAll(a.floors, b.floors, t); }
    if SpacesOf in cs { CountSeesOnlyDescendedAll(a.spaces, b.spaces, t); }
    if RoomsOf in cs { CountSeesOnlyDescendedAll(a.rooms, b.rooms, t); }
  }

  lemma {:induction false} CountSeesOnlyDescendedAll(xs: seq<Node>, ys: seq<Node>, t: Tally)
    requires t == Floors || t == Spaces || t == Rooms
    requires |xs| == |ys|
    requires forall i :: 0 <= i < |xs| ==> SameShape(xs[i], ys[i], Descends(t))
    ensures SumCount(xs, t) == SumCount(ys, t)
    decreases xs, 0
  {
    if xs != [] {
      var k := |xs| - 1;
      CountSeesOnlyDescendedAll(xs[..k], ys[..k], t);
      CountSeesOnlyDescended(xs[k], ys[k], t);
    }
  }

  /** Every node reachable from `n` through floors, spaces and rooms, in
      depth-first order: the node itself, then its floors, spaces and rooms. */
  function Reachable(n: Node): (r: seq<Node>)
    ensures |r| > 0 && r[0] == n
    decreases n, 1
  {
    [n] + ReachableAll(n.floors) + ReachableAll(n.spaces) + ReachableAll(n.rooms)
  }

  function ReachableAll(ns: seq<Node>): seq<Node>
    decreases ns, 0
  {
    if ns == [] then [] else ReachableAll(ns[..|ns| - 1]) + Reachable(ns[|ns| - 1])
  }

  /** The number of devices held directly by the nodes of `ns`. */
  function DirectDevices(ns: seq<Node>): nat {
    if ns == [] then 0 else DirectDevices(ns[..|ns| - 1]) + |ns[|ns| - 1].devices|
  }

  lemma {:induction false} DirectDevicesAppend(xs: seq<Node>, ys: seq<Node>)
    ensures DirectDevices(xs + ys) == DirectDevices(xs) + DirectDevices(ys)
    decreases |ys|
  {
    if ys == [] {
      assert xs + ys == xs;
    } else {
      var k := |ys| - 1;
      assert (xs + ys)[..|xs + ys| - 1] == xs + ys[..k];
      DirectDevicesAppend(xs, ys[..k]);
    }
  }

  /** The device count is the number of devices held directly by the
      reachable nodes: each device below `n` is counted exactly once. */
  lemma {:induction false} DeviceCountIsSumOverReachable(n: Node)
    ensures Count(n, Devices) == DirectDevices(Reachable(n))
    decreases n, 1
  {
    DeviceCountIsSumOverReachableAll(n.floors);
    DeviceCountIsSumOverReachableAll(n.spaces);
    DeviceCountIsSumOverReachableAll(n.rooms);
    var f, s, r := ReachableAll(n.floors), ReachableAll(n.spaces), ReachableAll(n.rooms);
    assert Reachable(n) == [n] + f + s + r;
    DirectDevicesAppend([n] + f + s, r);
    DirectDevicesAppend([n] + f, s);
    DirectDevicesAppend([n], f);
    assert DirectDevices([n]) == |n.devices| by {
      assert [n][..0] == [];
    }
  }

  lemma {:induction false} DeviceCountIsSumOverReachableAll(ns: seq<Node>)
    ensures SumCount(ns, Devices) == DirectDevices(ReachableAll(ns))
    decreases ns, 0
  {
    if ns != [] {
      var k := |ns| - 1;
      DeviceCountIsSumOverReachableAll(ns[..k]);
      DeviceCountIsSumOverReachable(ns[k]);
      DirectDevicesAppend(ReachableAll(ns[..k]), Reachable(ns[k]));
    }
  }
}
