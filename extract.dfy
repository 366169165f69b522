/** The device extractor: `extractAllDevices` flattens the buildings tree
    into one device list, depth first (own devices, then floors, spaces and
    rooms), annotating every device with its building and a `" > "`-joined
    location path.

    The path handed to a child is `path + [current, child]`. Since `path`
    already ends with the current node (the building starts with `[building]`),
    every place on a device's path except the node holding the device
    appears twice, the building included: a device of floor F in building B
    is shown at "B > B > F", one of room R in F at "B > B > F > F > R".
    `Emitted` states this as written; `EmittedIntended` is the evident
    intent, where each place appears once. */
module Extract {
  import opened Js
  import opened Hierarchy
  import Counts

  const Separator := " > "

  function Names(path: seq<Place>): (r: seq<Option<string>>)
    ensures |r| == |path|
    ensures forall i :: 0 <= i < |path| ==> r[i] == path[i].name
  {
    seq(|path|, i requires 0 <= i < |path| => path[i].name)
  }

  /** `{ ...device, buildingId: path[0]?.id, buildingName: path[0]?.name,
      locationPath: path.map(p => p.name).join(' > ') }`: the three added
      fields override any fields of the device with the same names. */
  function Annotate(d: Device, path: seq<Place>): (r: Device)
    ensures r.id == d.id && r.serialNumber == d.serialNumber && r.name == d.name
    ensures r.deviceType == d.deviceType && r.isOnline == d.isOnline && r.telemetry == d.telemetry
    ensures path != [] ==> r.buildingId == path[0].id && r.buildingName == path[0].name
    ensures r.locationPath.Some?
  {
    d.(buildingId := if path == [] then None else path[0].id,
       buildingName := if path == [] then None else path[0].name,
       locationPath := Some(Join(Names(path), Separator)))
  }

  function AnnotateAll(ds: seq<Device>, path: seq<Place>): (r: seq<Device>)
    ensures |r| == |ds|
    ensures forall i :: 0 <= i < |ds| ==> r[i] == Annotate(ds[i], path)
  {
    seq(|ds|, i requires 0 <= i < |ds| => Annotate(ds[i], path))
  }

  lemma AnnotateAllStep(ds: seq<Device>, i: nat, path: seq<Place>)
    requires i < |ds|
    ensures AnnotateAll(ds[..i + 1], path) == AnnotateAll(ds[..i], path) + [Annotate(ds[i], path)]
  {
  }

  /** The records `traverse(n, path)` pushes, in order. */
  function Emitted(n: Node, path: seq<Place>): (r: seq<Device>)
    ensures forall e :: e in r ==> e.locationPath.Some?
    decreases n, 1
  {
    AnnotateAll(n.devices, path)
      + EmittedUnder(n, n.floors, path)
      + EmittedUnder(n, n.spaces, path)
      + EmittedUnder(n, n.rooms, path)
  }

  /** The records pushed by one `forEach` over the children `kids` of `n`. */
  function EmittedUnder(n: Node, kids: seq<Node>, path: seq<Place>): (r: seq<Device>)
    ensures forall e :: e in r ==> e.locationPath.Some?
    decreases kids, 0
  {
    if kids == [] then []
    else
      var k := |kids| - 1;
      EmittedUnder(n, kids[..k], path) + Emitted(kids[k], path + [PlaceOf(n), PlaceOf(kids[k])])
  }

  /** The result of `extractAllDevices(buildings)`. */
  function AllDevices(buildings: seq<Node>): (r: seq<Device>)
    ensures forall e :: e in r ==> e.locationPath.Some?
  {
    if buildings == [] then []
    else
      var k := |buildings| - 1;
      AllDevices(buildings[..k]) + Emitted(buildings[k], [PlaceOf(buildings[k])])
  }

  /** The shared `devices` array that the recursive `traverse` pushes into. */
  class Collector {
    var devices: seq<Device>

    constructor ()
      ensures devices == []
    {
      devices := [];
    }

    method Push(d: Device)
      modifies this
      ensures devices == old(devices) + [d]
    {
      devices := devices + [d];
    }

    /** The `forEach` of `traverse` that pushes the node's own devices. */
    method PushAnnotated(ds: seq<Device>, path: seq<Place>)
      modifies this
      ensures devices == old(devices) + AnnotateAll(ds, path)
    {
      var i := 0;
      while i < |ds|
        invariant 0 <= i <= |ds|
        invariant devices == old(devices) + AnnotateAll(ds[..i], path)
      {
        Push(Annotate(ds[i], path));
        AnnotateAllStep(ds, i, path);
        i := i + 1;
      }
      assert ds[..|ds|] == ds;
    }

    /** `traverse(item, path)`. */
    method Traverse(item: Node, path: seq<Place>)
      modifies this
      ensures devices == old(devices) + Emitted(item, path)
      decreases item, 1
    {
      PushAnnotated(item.devices, path);
      ghost var pushed := AnnotateAll(item.devices, path);
      TraverseEach(item, item.floors, path);
      assert devices == old(devices) + (pushed + EmittedUnder(item, item.floors, path));
      pushed := pushed + EmittedUnder(item, item.floors, path);
      TraverseEach(item, item.spaces, path);
      assert devices == old(devices) + (pushed + EmittedUnder(item, item.spaces, path));
      pushed := pushed + EmittedUnder(item, item.spaces, path);
      TraverseEach(item, item.rooms, path);
      assert devices == old(devices) + (pushed + EmittedUnder(item, item.rooms, path));
    }

    /** One `forEach` of `traverse` over the children `kids` of `item`. */
    method TraverseEach(item: Node, kids: seq<Node>, path: seq<Place>)
      modifies this
      ensures devices == old(devices) + EmittedUnder(item, kids, path)
      decreases kids, 0
    {
      var i := 0;
      while i < |kids|
        invariant 0 <= i <= |kids|
        invariant devices == old(devices) + EmittedUnder(item, kids[..i], path)
      {
        Traverse(kids[i], path + [PlaceOf(item), PlaceOf(kids[i])]);
        assert kids[..i + 1][..i] == kids[..i];
        i := i + 1;
      }
      assert kids[..|kids|] == kids;
    }
  }

  /** `extractAllDevices(buildings)` as the source computes it. */
  method ExtractAllDevices(buildings: seq<Node>) returns (devices: seq<Device>)
    ensures devices == AllDevices(buildings)
  {
    var collector := new Collector();
    var i := 0;
    while i < |buildings|
      invariant 0 <= i <= |buildings|
      invariant collector.devices == AllDevices(buildings[..i])
    {
      collector.Traverse(buildings[i], [PlaceOf(buildings[i])]);
      assert buildings[..i + 1][..i] == buildings[..i];
      i := i + 1;
    }
    assert buildings[..|buildings|] == buildings;
    devices := collector.devices;
  }

  // ---------------------------------------------------------------------
  // The evidently intended extraction: each ancestor appears once

  function EmittedIntended(n: Node, path: seq<Place>): seq<Device>
    decreases n, 1
  {
    AnnotateAll(n.devices, path)
      + EmittedIntendedUnder(n.floors, path)
      + EmittedIntendedUnder(n.spaces, path)
      + EmittedIntendedUnder(n.rooms, path)
  }

  function EmittedIntendedUnder(kids: seq<Node>, path: seq<Place>): seq<Device>
    decreases kids, 0
  {
    if kids == [] then []
    else
      var k := |kids| - 1;
      EmittedIntendedUnder(kids[..k], path) + EmittedIntended(kids[k], path + [PlaceOf(kids[k])])
  }

  function AllDevicesIntended(buildings: seq<Node>): seq<Device> {
    if buildings == [] then []
    else
      var k := |buildings| - 1;
      AllDevicesIntended(buildings[..k]) + EmittedIntended(buildings[k], [PlaceOf(buildings[k])])
  }

  // ---------------------------------------------------------------------
  // An independent description of where every device sits

  /** A device found below a traversal root, with the chain of structural
      nodes from that root down to the node that holds it. */
  datatype Held = Held(device: Device, chain: seq<Node>)

  function HeldHere(n: Node): (r: seq<Held>)
    ensures |r| == |n.devices|
    ensures forall i :: 0 <= i < |r| ==> r[i] == Held(n.devices[i], [n])
  {
    seq(|n.devices|, i requires 0 <= i < |n.devices| => Held(n.devices[i], [n]))
  }

  /** `hs`, seen from the parent `n` one level up. */
  function Below(n: Node, hs: seq<Held>): (r: seq<Held>)
    ensures |r| == |hs|
    ensures forall i :: 0 <= i < |hs| ==> r[i] == Held(hs[i].device, [n] + hs[i].chain)
  {
    seq(|hs|, i requires 0 <= i < |hs| => Held(hs[i].device, [n] + hs[i].chain))
  }

  /** Every device below `n`, depth first: `n`'s own devices, then those
      below its floors, its spaces and its rooms. Every chain starts at `n`. */
  function Holdings(n: Node): (r: seq<Held>)
    ensures forall i :: 0 <= i < |r| ==> |r[i].chain| > 0 && r[i].chain[0] == n
    decreases n, 1
  {
    HeldHere(n) + HoldingsUnder(n, n.floors) + HoldingsUnder(n, n.spaces) + HoldingsUnder(n, n.rooms)
  }

  function HoldingsUnder(n: Node, kids: seq<Node>): (r: seq<Held>)
    ensures forall i :: 0 <= i < |r| ==> |r[i].chain| > 0 && r[i].chain[0] == n
    decreases kids, 0
  {
    if kids == [] then []
    else
      var k := |kids| - 1;
      HoldingsUnder(n, kids[..k]) + Below(n, Holdings(kids[k]))
  }

  /** `c` is one of the floors, spaces or rooms of `p`. */
  predicate ChildOf(c: Node, p: Node) {
    c in p.floors || c in p.spaces || c in p.rooms
  }

  /** Each node of `chain` is a floor, space or room of the one before. */
  predicate Linked(chain: seq<Node>) {
    |chain| < 2 || (ChildOf(chain[1], chain[0]) && Linked(chain[1..]))
  }

  /** `h` is a device of the tree under `n`: its chain descends from `n`
      through floors, spaces and rooms to a node that holds the device. */
  predicate HeldUnder(n: Node, h: Held) {
    && |h.chain| > 0
    && h.chain[0] == n
    && Linked(h.chain)
    && h.device in h.chain[|h.chain| - 1].devices
  }

  /** Every chain listed by `Holdings(n)` is a real descent from `n` to the
      node holding its device. */
  lemma {:induction false} HoldingsValid(n: Node)
    ensures forall i :: 0 <= i < |Holdings(n)| ==> HeldUnder(n, Holdings(n)[i])
    decreases n, 1
  {
    HoldingsUnderValid(n, n.floors);
    HoldingsUnderValid(n, n.spaces);
    HoldingsUnderValid(n, n.rooms);
    var h, f, s, r := HeldHere(n), HoldingsUnder(n, n.floors), HoldingsUnder(n, n.spaces), HoldingsUnder(n, n.rooms);
    forall i | 0 <= i < |h|
      ensures HeldUnder(n, h[i])
    {
      assert h[i].device == n.devices[i];
    }
    assert Holdings(n) == h + f + s + r;
  }

  lemma {:induction false} HoldingsUnderValid(n: Node, kids: seq<Node>)
    requires forall c :: c in kids ==> ChildOf(c, n)
    ensures forall i :: 0 <= i < |HoldingsUnder(n, kids)| ==> HeldUnder(n, HoldingsUnder(n, kids)[i])
    decreases kids, 0
  {
    if kids != [] {
      var k := |kids| - 1;
      HoldingsUnderValid(n, kids[..k]);
      HoldingsValid(kids[k]);
      var hs := Holdings(kids[k]);
      forall i | 0 <= i < |hs|
        ensures HeldUnder(n, Below(n, hs)[i])
      {
        var ch := [n] + hs[i].chain;
        assert ch[1..] == hs[i].chain && ch[1] == kids[k];
        assert ch[|ch| - 1] == hs[i].chain[|hs[i].chain| - 1];
      }
    }
  }

  function Places(chain: seq<Node>): (r: seq<Place>)
    ensures |r| == |chain|
    ensures forall i :: 0 <= i < |chain| ==> r[i] == PlaceOf(chain[i])
  {
    seq(|chain|, i requires 0 <= i < |chain| => PlaceOf(chain[i]))
  }

  /** What the traversal appends to the root's path on the way down the
      chain `[n0, n1, ..., nk]`: as written `n0, n1, n1, n2, ..., nk`
      (two places per step), as intended `n1, ..., nk`. */
  function Descent(chain: seq<Node>, doubled: bool): (r: seq<Place>)
    ensures |chain| > 0 ==> |r| == (if doubled then 2 else 1) * (|chain| - 1)
  {
    if |chain| < 2 then []
    else if doubled then [PlaceOf(chain[0]), PlaceOf(chain[1])] + Descent(chain[1..], doubled)
    else [PlaceOf(chain[1])] + Descent(chain[1..], doubled)
  }

  function Render(hs: seq<Held>, path: seq<Place>, doubled: bool): (r: seq<Device>)
    ensures |r| == |hs|
    ensures forall i :: 0 <= i < |hs| ==> r[i] == Annotate(hs[i].device, path + Descent(hs[i].chain, doubled))
  {
    seq(|hs|, i requires 0 <= i < |hs| => Annotate(hs[i].device, path + Descent(hs[i].chain, doubled)))
  }

  lemma RenderAppend(xs: seq<Held>, ys: seq<Held>, path: seq<Place>, doubled: bool)
    ensures Render(xs + ys, path, doubled) == Render(xs, path, doubled) + Render(ys, path, doubled)
  {
  }

  /** Rendering the children's holdings one level up. */
  lemma RenderBelow(n: Node, c: Node, path: seq<Place>, doubled: bool)
    ensures Render(Below(n, Holdings(c)), path, doubled)
         == Render(Holdings(c), path + (if doubled then [PlaceOf(n), PlaceOf(c)] else [PlaceOf(c)]), doubled)
  {
    RenderShift(n, c, Holdings(c), path, doubled);
  }

  lemma RenderShift(n: Node, c: Node, hs: seq<Held>, path: seq<Place>, doubled: bool)
    requires forall i :: 0 <= i < |hs| ==> |hs[i].chain| > 0 && hs[i].chain[0] == c
    ensures Render(Below(n, hs), path, doubled)
         == Render(hs, path + (if doubled then [PlaceOf(n), PlaceOf(c)] else [PlaceOf(c)]), doubled)
  {
    var step := if doubled then [PlaceOf(n), PlaceOf(c)] else [PlaceOf(c)];
    var lhs, rhs := Render(Below(n, hs), path, doubled), Render(hs, path + step, doubled);
    forall i | 0 <= i < |hs|
      ensures lhs[i] == rhs[i]
    {
      PathBelow(n, hs[i].chain, path, doubled);
    }
  }

  lemma PathBelow(n: Node, chain: seq<Node>, path: seq<Place>, doubled: bool)
    requires |chain| > 0
    ensures path + Descent([n] + chain, doubled)
         == path + (if doubled then [PlaceOf(n), PlaceOf(chain[0])] else [PlaceOf(chain[0])]) + Descent(chain, doubled)
  {
    DescentBelow(n, chain, doubled);
  }

  lemma DescentBelow(n: Node, chain: seq<Node>, doubled: bool)
    requires |chain| > 0
    ensures Descent([n] + chain, doubled)
         == (if doubled then [PlaceOf(n), PlaceOf(chain[0])] else [PlaceOf(chain[0])]) + Descent(chain, doubled)
  {
    var ch := [n] + chain;
    assert ch[1] == chain[0] && ch[1..] == chain;
  }

  lemma {:induction false} RenderHere(n: Node, path: seq<Place>, doubled: bool)
    ensures AnnotateAll(n.devices, path) == Render(HeldHere(n), path, doubled)
  {
    var lhs, rhs := AnnotateAll(n.devices, path), Render(HeldHere(n), path, doubled);
    forall i | 0 <= i < |n.devices|
      ensures lhs[i] == rhs[i]
    {
      assert path + Descent([n], doubled) == path;
    }
  }

  /** The as-written traversal renders every device at the root's path
      extended by the doubled descent along its chain. */
  lemma {:induction false} EmittedIsRendered(n: Node, path: seq<Place>)
    ensures Emitted(n, path) == Render(Holdings(n), path, true)
    decreases n, 1
  {
    RenderHere(n, path, true);
    EmittedUnderIsRendered(n, n.floors, path);
    EmittedUnderIsRendered(n, n.spaces, path);
    EmittedUnderIsRendered(n, n.rooms, path);
    var h, f, s, r := HeldHere(n), HoldingsUnder(n, n.floors), HoldingsUnder(n, n.spaces), HoldingsUnder(n, n.rooms);
    RenderAppend(h + f + s, r, path, true);
    RenderAppend(h + f, s, path, true);
    RenderAppend(h, f, path, true);
  }

  lemma {:induction false} EmittedUnderIsRendered(n: Node, kids: seq<Node>, path: seq<Place>)
    ensures EmittedUnder(n, kids, path) == Render(HoldingsUnder(n, kids), path, true)
    decreases kids, 0
  {
    if kids != [] {
      var k := |kids| - 1;
      EmittedUnderIsRendered(n, kids[..k], path);
      EmittedIsRendered(kids[k], path + [PlaceOf(n), PlaceOf(kids[k])]);
      RenderBelow(n, kids[k], path, true);
      RenderAppend(HoldingsUnder(n, kids[..k]), Below(n, Holdings(kids[k])), path, true);
    }
  }

  /** The intended traversal renders every device at the root's path
      extended by each node of its chain below the root, once. */
  lemma {:induction false} EmittedIntendedIsRendered(n: Node, path: seq<Place>)
    ensures EmittedIntended(n, path) == Render(Holdings(n), path, false)
    decreases n, 1
  {
    RenderHere(n, path, false);
    EmittedIntendedUnderIsRendered(n, n.floors, path);
    EmittedIntendedUnderIsRendered(n, n.spaces, path);
    EmittedIntendedUnderIsRendered(n, n.rooms, path);
    var h, f, s, r := HeldHere(n), HoldingsUnder(n, n.floors), HoldingsUnder(n, n.spaces), HoldingsUnder(n, n.rooms);
    RenderAppend(h + f + s, r, path, false);
    RenderAppend(h + f, s, path, false);
    RenderAppend(h, f, path, false);
  }

  lemma {:induction false} EmittedIntendedUnderIsRendered(n: Node, kids: seq<Node>, path: seq<Place>)
    ensures EmittedIntendedUnder(kids, path) == Render(HoldingsUnder(n, kids), path, false)
    decreases kids, 0
  {
    if kids != [] {
      var k := |kids| - 1;
      EmittedIntendedUnderIsRendered(n, kids[..k], path);
      EmittedIntendedIsRendered(kids[k], path + [PlaceOf(kids[k])]);
      RenderBelow(n, kids[k], path, false);
      RenderAppend(HoldingsUnder(n, kids[..k]), Below(n, Holdings(kids[k])), path, false);
    }
  }

  // ---------------------------------------------------------------------
  // Properties of the extraction

  function DevicesOf(hs: seq<Held>): (r: seq<Device>)
    ensures |r| == |hs|
    ensures forall i :: 0 <= i < |hs| ==> r[i] == hs[i].device
  {
    seq(|hs|, i requires 0 <= i < |hs| => hs[i].device)
  }

  /** The devices held directly by the nodes of `ns`, in order. */
  function DevicesOfNodes(ns: seq<Node>): seq<Device> {
    if ns == [] then [] else DevicesOfNodes(ns[..|ns| - 1]) + ns[|ns| - 1].devices
  }

  lemma {:induction false} DevicesOfNodesAppend(xs: seq<Node>, ys: seq<Node>)
    ensures DevicesOfNodes(xs + ys) == DevicesOfNodes(xs) + DevicesOfNodes(ys)
    decreases |ys|
  {
    if ys == [] {
      assert xs + ys == xs;
    } else {
      var k := |ys| - 1;
      assert (xs + ys)[..|xs + ys| - 1] == xs + ys[..k];
      DevicesOfNodesAppend(xs, ys[..k]);
    }
  }

  lemma {:induction false} DevicesOfNodesCount(ns: seq<Node>)
    ensures |DevicesOfNodes(ns)| == Counts.DirectDevices(ns)
  {
    if ns != [] {
      DevicesOfNodesCount(ns[..|ns| - 1]);
    }
  }

  lemma DevicesOfAppend(xs: seq<Held>, ys: seq<Held>)
    ensures DevicesOf(xs + ys) == DevicesOf(xs) + DevicesOf(ys)
  {
  }

  /** The traversal meets exactly the devices of the nodes reachable through
      floors, spaces and rooms, each once, in depth-first order. */
  lemma {:induction false} HoldingsFollowReachable(n: Node)
    ensures DevicesOf(Holdings(n)) == DevicesOfNodes(Counts.Reachable(n))
    decreases n, 1
  {
    var h, f, s, r := HeldHere(n), HoldingsUnder(n, n.floors), HoldingsUnder(n, n.spaces), HoldingsUnder(n, n.rooms);
    var rf, rs, rr := Counts.ReachableAll(n.floors), Counts.ReachableAll(n.spaces), Counts.ReachableAll(n.rooms);
    HoldingsFollowReachableAll(n, n.floors);
    HoldingsFollowReachableAll(n, n.spaces);
    HoldingsFollowReachableAll(n, n.rooms);
    assert DevicesOf(h) == n.devices;
    assert DevicesOfNodes([n]) == n.devices by {
      assert [n][..0] == [];
    }
    DevicesOfAppend(h + f + s, r);
    DevicesOfAppend(h + f, s);
    DevicesOfAppend(h, f);
    DevicesOfNodesAppend([n] + rf + rs, rr);
    DevicesOfNodesAppend([n] + rf, rs);
    DevicesOfNodesAppend([n], rf);
    calc {
      DevicesOf(Holdings(n));
      DevicesOf(h + f + s + r);
      DevicesOf(h) + DevicesOf(f) + DevicesOf(s) + DevicesOf(r);
      DevicesOfNodes([n]) + DevicesOfNodes(rf) + DevicesOfNodes(rs) + DevicesOfNodes(rr);
      DevicesOfNodes([n] + rf + rs + rr);
      DevicesOfNodes(Counts.Reachable(n));
    }
  }

  lemma {:induction false} HoldingsFollowReachableAll(n: Node, kids: seq<Node>)
    ensures DevicesOf(HoldingsUnder(n, kids)) == DevicesOfNodes(Counts.ReachableAll(kids))
    decreases kids, 0
  {
    if kids != [] {
      var k := |kids| - 1;
      HoldingsFollowReachableAll(n, kids[..k]);
      HoldingsFollowReachable(kids[k]);
      var xs, ys := HoldingsUnder(n, kids[..k]), Below(n, Holdings(kids[k]));
      DevicesOfAppend(xs, ys);
      assert DevicesOf(ys) == DevicesOf(Holdings(kids[k]));
      DevicesOfNodesAppend(Counts.ReachableAll(kids[..k]), Counts.Reachable(kids[k]));
    }
  }

  /** Nothing is dropped or duplicated: a traversal from `n` emits as many
      records as `countItems(n, 'devices')` counts, whatever the path. */
  lemma EmittedLength(n: Node, path: seq<Place>)
    ensures |Emitted(n, path)| == Counts.Count(n, Counts.Devices)
  {
    EmittedIsRendered(n, path);
    HoldingsFollowReachable(n);
    DevicesOfNodesCount(Counts.Reachable(n));
    Counts.DeviceCountIsSumOverReachable(n);
  }

  /** `extractAllDevices(bs).length` is the sum over the buildings of
      `countItems(b, 'devices')`. */
  lemma {:induction false} ExtractedLength(buildings: seq<Node>)
    ensures |AllDevices(buildings)| == Counts.SumCount(buildings, Counts.Devices)
  {
    if buildings != [] {
      var k := |buildings| - 1;
      ExtractedLength(buildings[..k]);
      EmittedLength(buildings[k], [PlaceOf(buildings[k])]);
    }
  }

  /** The full path of a device held at the end of `chain`, starting at the
      building `chain[0]`. */
  function LocationOf(chain: seq<Node>, doubled: bool): (r: seq<Place>)
    requires |chain| > 0
    ensures |r| == (if doubled then 2 * |chain| - 1 else |chain|)
  {
    [PlaceOf(chain[0])] + Descent(chain, doubled)
  }

  /** Each node of `chain` as two consecutive places. */
  function Twice(chain: seq<Node>): (r: seq<Place>)
    ensures |r| == 2 * |chain|
  {
    if chain == [] then [] else [PlaceOf(chain[0]), PlaceOf(chain[0])] + Twice(chain[1..])
  }

  /** As written, the full path names every node of the chain twice except
      the last, the holder of the device, which it names once. */
  lemma {:induction false} WrittenLocationDoublesAncestors(chain: seq<Node>)
    requires |chain| > 0
    ensures LocationOf(chain, true) == Twice(chain[..|chain| - 1]) + [PlaceOf(chain[|chain| - 1])]
    decreases |chain|
  {
    if |chain| >= 2 {
      var n := |chain|;
      var rest := chain[1..];
      WrittenLocationDoublesAncestors(rest);
      assert rest[..|rest| - 1] == chain[..n - 1][1..];
      assert rest[|rest| - 1] == chain[n - 1];
      assert LocationOf(chain, true) == [PlaceOf(chain[0]), PlaceOf(chain[0])] + LocationOf(rest, true);
    } else {
      assert chain[..0] == [];
    }
  }

  /** A device of room R in floor F of building B is located at
      "B > B > F > F > R" as written, and at "B > F > R" as intended. */
  lemma RoomLocationExample(b: Node, f: Node, r: Node)
    ensures LocationOf([b, f, r], true) == [PlaceOf(b), PlaceOf(b), PlaceOf(f), PlaceOf(f), PlaceOf(r)]
    ensures LocationOf([b, f, r], false) == [PlaceOf(b), PlaceOf(f), PlaceOf(r)]
  {
    WrittenLocationDoublesAncestors([b, f, r]);
    assert [b, f, r][..2] == [b, f] && [b, f][1..] == [f] && [f][1..] == [];
    IntendedLocationIsChain([b, f, r]);
  }

  /** The chain written once per node is exactly the list of its places. */
  lemma {:induction false} IntendedLocationIsChain(chain: seq<Node>)
    requires |chain| > 0
    ensures LocationOf(chain, false) == Places(chain)
    decreases |chain|
  {
    if |chain| >= 2 {
      IntendedLocationIsChain(chain[1..]);
      assert LocationOf(chain[1..], false) == [PlaceOf(chain[1])] + Descent(chain[1..], false);
    }
  }

  /** What `extractAllDevices` emits for building `b`, record by record: the
      `i`-th held device with `buildingId`/`buildingName` of `b` and, as
      written, a location path of 2d+1 places for a device d levels down,
      every place but the device's holder named twice. */
  lemma ExtractedFromBuilding(b: Node)
    ensures var e, hs := Emitted(b, [PlaceOf(b)]), Holdings(b);
      && |e| == |hs|
      && forall i :: 0 <= i < |e| ==>
           var p := LocationOf(hs[i].chain, true);
           && e[i] == Annotate(hs[i].device, p)
           && e[i].buildingId == b.id && e[i].buildingName == b.name
           && |p| == 2 * |hs[i].chain| - 1
           && e[i].locationPath == Some(Join(Names(p), Separator))
  {
    EmittedIsRendered(b, [PlaceOf(b)]);
  }

  /** A building's own devices come first, with `locationPath` equal to the
      building's name alone (the empty string when it has none). */
  lemma DirectDevicesOfBuilding(b: Node)
    ensures var e := Emitted(b, [PlaceOf(b)]);
      && |e| >= |b.devices|
      && forall i :: 0 <= i < |b.devices| ==>
           && e[i] == b.devices[i].(buildingId := b.id, buildingName := b.name,
                                    locationPath := Some(OrElse(b.name, "")))
  {
  }

  /** With the intended path, each record's location path names every
      structural node from the building down to the device's holder once. */
  lemma ExtractedIntendedFromBuilding(b: Node)
    ensures var e, hs := EmittedIntended(b, [PlaceOf(b)]), Holdings(b);
      && |e| == |hs|
      && forall i :: 0 <= i < |e| ==>
           && e[i] == Annotate(hs[i].device, Places(hs[i].chain))
           && e[i].buildingId == b.id && e[i].buildingName == b.name
           && e[i].locationPath == Some(Join(Names(Places(hs[i].chain)), Separator))
  {
    EmittedIntendedIsRendered(b, [PlaceOf(b)]);
    var hs := Holdings(b);
    forall i | 0 <= i < |hs|
      ensures LocationOf(hs[i].chain, false) == Places(hs[i].chain)
    {
      IntendedLocationIsChain(hs[i].chain);
    }
  }

  /** Floor "Floor 1" holding only `d`, in building "HQ" with no other content. */
  function ExampleFloor(d: Device): Node {
    Node(Some("f1"), Some("Floor 1"), None, [], [], [], [d])
  }

  function ExampleBuilding(d: Device): Node {
    Node(Some("b1"), Some("HQ"), None, [ExampleFloor(d)], [], [], [])
  }

  lemma WrittenExamplePath(d: Device)
    ensures var b, f := ExampleBuilding(d), ExampleFloor(d);
      AllDevices([b]) == [Annotate(d, [PlaceOf(b), PlaceOf(b), PlaceOf(f)])]
  {
    var b, f := ExampleBuilding(d), ExampleFloor(d);
    var pb, pf := PlaceOf(b), PlaceOf(f);
    var written := [pb, pb, pf];
    assert [b][..0] == [] && [f][..0] == [];
    assert Emitted(f, written) == [Annotate(d, written)] by {
      assert AnnotateAll([d], written) == [Annotate(d, written)];
    }
    assert [pb] + [pb, pf] == written;
    assert EmittedUnder(b, [f], [pb]) == Emitted(f, written);
    assert AllDevices([b]) == Emitted(b, [pb]);
  }

  lemma IntendedExamplePath(d: Device)
    ensures var b, f := ExampleBuilding(d), ExampleFloor(d);
      AllDevicesIntended([b]) == [Annotate(d, [PlaceOf(b), PlaceOf(f)])]
  {
    var b, f := ExampleBuilding(d), ExampleFloor(d);
    var pb, pf := PlaceOf(b), PlaceOf(f);
    var intended := [pb, pf];
    assert [b][..0] == [] && [f][..0] == [];
    assert EmittedIntended(f, intended) == [Annotate(d, intended)] by {
      assert AnnotateAll([d], intended) == [Annotate(d, intended)];
    }
    assert [pb] + [pf] == intended;
    assert EmittedIntendedUnder([f], [pb]) == EmittedIntended(f, intended);
    assert AllDevicesIntended([b]) == EmittedIntended(b, [pb]);
  }

  lemma ExampleJoins()
    ensures Join([Some("HQ"), Some("HQ"), Some("Floor 1")], Separator) == "HQ > HQ > Floor 1"
    ensures Join([Some("HQ"), Some("Floor 1")], Separator) == "HQ > Floor 1"
  {
    var hq, fl := Some("HQ"), Some("Floor 1");
    assert [hq, hq, fl][..2] == [hq, hq] && [hq, hq][..1] == [hq];
    assert Join([hq, hq], Separator) == "HQ > HQ";
    assert [hq, fl][..1] == [hq];
  }

  /** A building "HQ" whose floor "Floor 1" holds one device: as written the
      device is located at "HQ > HQ > Floor 1", where the intended traversal
      locates it at "HQ > Floor 1". */
  lemma DoubledAncestorExample(d: Device)
    ensures var b, f := ExampleBuilding(d), ExampleFloor(d);
      && AllDevices([b]) == [Annotate(d, [PlaceOf(b), PlaceOf(b), PlaceOf(f)])]
      && AllDevices([b])[0].locationPath == Some("HQ > HQ > Floor 1")
      && AllDevicesIntended([b]) == [Annotate(d, [PlaceOf(b), PlaceOf(f)])]
      && AllDevicesIntended([b])[0].locationPath == Some("HQ > Floor 1")
  {
    var b, f := ExampleBuilding(d), ExampleFloor(d);
    WrittenExamplePath(d);
    IntendedExamplePath(d);
    ExampleJoins();
    assert Names([PlaceOf(b), PlaceOf(b), PlaceOf(f)]) == [Some("HQ"), Some("HQ"), Some("Floor 1")];
    assert Names([PlaceOf(b), PlaceOf(f)]) == [Some("HQ"), Some("Floor 1")];
  }
}
