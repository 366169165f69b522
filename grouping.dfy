/** The device grouper: `groupDevicesByType` partitions a device list into
    buckets keyed by `deviceType`, with `'Unknown'` for a missing or empty
    type, keeping the input order inside every bucket. */
module Grouping {
  import opened Js
  import opened Hierarchy
  import opened Sequences

  const UnknownType := "Unknown"

  /** `device.deviceType || 'Unknown'`: never the empty string. */
  function TypeKey(d: Device): (r: string)
    ensures r != ""
    ensures r == UnknownType <==> !Truthy(d.deviceType) || d.deviceType.value == UnknownType
    ensures r != UnknownType ==> d.deviceType == Some(r)
  {
    OrElse(d.deviceType, UnknownType)
  }

  /** The `grouped` dictionary after adding `d`: a new bucket is created on
      the first device of its type, then `d` is appended to its bucket. */
  function AddToGroup(grouped: map<string, seq<Device>>, d: Device): map<string, seq<Device>> {
    var t := TypeKey(d);
    grouped[t := (if t in grouped then grouped[t] else []) + [d]]
  }

  /** The result of `groupDevicesByType(devices)`. */
  function Grouped(devices: seq<Device>): (r: map<string, seq<Device>>)
    ensures forall t :: t in r ==> r[t] != []
  {
    if devices == [] then map[]
    else AddToGroup(Grouped(devices[..|devices| - 1]), devices[|devices| - 1])
  }

  /** The devices of `devices` whose key is `t`, in their input order. */
  function OfType(devices: seq<Device>, t: string): seq<Device> {
    if devices == [] then []
    else
      var k := |devices| - 1;
      OfType(devices[..k], t) + (if TypeKey(devices[k]) == t then [devices[k]] else [])
  }

  /** The keys that occur in `devices`. */
  function TypeKeys(devices: seq<Device>): set<string> {
    set i | 0 <= i < |devices| :: TypeKey(devices[i])
  }

  /** The properties every plain object `{}` inherits from `Object.prototype`.
      For such a key `grouped[type]` is already truthy (a function, or the
      prototype itself for `__proto__`), so no bucket is created and the
      following `.push` is not a function: a `TypeError`. */
  const InheritedNames: set<string> := {
    "constructor", "hasOwnProperty", "isPrototypeOf", "propertyIsEnumerable",
    "toLocaleString", "toString", "valueOf", "__proto__",
    "__defineGetter__", "__defineSetter__", "__lookupGetter__", "__lookupSetter__"}

  /** `groupDevicesByType(devices)` throws: some device's key names an
      inherited property. */
  predicate GroupingThrows(devices: seq<Device>) {
    !(TypeKeys(devices) !! InheritedNames)
  }

  /** `groupDevicesByType(devices)` as the source computes it: `None` for the
      `TypeError`, otherwise the grouped dictionary. */
  method GroupDevicesByType(devices: seq<Device>) returns (r: Option<map<string, seq<Device>>>)
    ensures r.None? <==> GroupingThrows(devices)
    ensures r.Some? ==> r.value == Grouped(devices)
  {
    var grouped := map[];
    var i := 0;
    while i < |devices|
      invariant 0 <= i <= |devices|
      invariant grouped == Grouped(devices[..i])
      invariant !GroupingThrows(devices[..i])
    {
      var d := devices[i];
      var t := TypeKey(d);
      if t in InheritedNames {
        assert t in TypeKeys(devices);
        return None;
      }
      if t !in grouped {
        grouped := grouped[t := []];
      }
      grouped := grouped[t := grouped[t] + [d]];
      ghost var next := devices[..i + 1];
      assert next[..i] == devices[..i] && next[i] == d;
      TypeKeysStep(next);
      i := i + 1;
    }
    assert devices[..|devices|] == devices;
    r := Some(grouped);
  }

  /** A device typed "constructor" crashes the grouping, whatever else the
      list holds. */
  lemma InheritedTypeThrows(devices: seq<Device>, d: Device)
    requires d in devices && d.deviceType == Some("constructor")
    ensures GroupingThrows(devices)
  {
    assert TypeKey(d) in TypeKeys(devices);
  }

  /** The grouping is an order-preserving partition: its keys are exactly the
      keys occurring in the input, and the bucket of `t` holds exactly the
      devices of key `t`, in input order, and is never empty. */
  lemma {:induction false} GroupedIsPartition(devices: seq<Device>)
    ensures Grouped(devices).Keys == TypeKeys(devices)
    ensures forall t :: t in Grouped(devices) ==> Grouped(devices)[t] == OfType(devices, t) != []
    ensures forall t :: t !in Grouped(devices) ==> OfType(devices, t) == []
  {
    if devices != [] {
      var k := |devices| - 1;
      var init, d := devices[..k], devices[k];
      GroupedIsPartition(init);
      TypeKeysStep(devices);
      var g, g0 := Grouped(devices), Grouped(init);
      forall t
        ensures t in g ==> g[t] == OfType(devices, t) != []
        ensures t !in g ==> OfType(devices, t) == []
      {
        assert OfType(devices, t) == OfType(init, t) + (if TypeKey(d) == t then [d] else []);
      }
    }
  }

  lemma TypeKeysStep(devices: seq<Device>)
    requires devices != []
    ensures TypeKeys(devices) == TypeKeys(devices[..|devices| - 1]) + {TypeKey(devices[|devices| - 1])}
  {
    var k := |devices| - 1;
    forall i | 0 <= i < k ensures TypeKey(devices[..k][i]) == TypeKey(devices[i]) { }
  }

  /** Each device lands in the bucket of its own key, and a bucket holds
      only devices of its key: no device is in two buckets. */
  lemma {:induction false} OfTypeMembers(devices: seq<Device>, t: string)
    ensures forall d :: d in OfType(devices, t) <==> d in devices && TypeKey(d) == t
  {
    if devices != [] {
      var k := |devices| - 1;
      OfTypeMembers(devices[..k], t);
      assert devices == devices[..k] + [devices[k]];
    }
  }

  /** Relative order within each bucket matches the input. */
  lemma {:induction false} OfTypeKeepsOrder(devices: seq<Device>, t: string)
    ensures IsSubsequence(OfType(devices, t), devices)
  {
    if devices != [] {
      var k := |devices| - 1;
      OfTypeKeepsOrder(devices[..k], t);
      assert devices[..k] + [devices[k]] == devices;
      if TypeKey(devices[k]) == t {
        SubsequenceKeep(OfType(devices[..k], t), devices[..k], devices[k]);
      } else {
        var xs := OfType(devices[..k], t);
        assert OfType(devices, t) == xs + [] == xs;
        SubsequenceSkip(xs, devices[..k], devices[k]);
      }
    }
  }
}
