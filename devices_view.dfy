/** The logic of the devices page: the device list it starts from, the
    search filter, the selection of devices, the per-type tables with their
    header checkbox and row checkboxes, and the order of the tables. */
module DevicesView {
  import opened Js
  import opened Hierarchy
  import opened Sequences
  import Counts
  import Extract
  import Grouping
  import JsSort

  // ---------------------------------------------------------------------
  // The device list

  /** `allDevices`: no devices for missing (`null`, `undefined`) or empty
      `buildings`, otherwise `extractAllDevices(buildings)`. */
  function AllDevicesOf(buildings: Option<seq<Node>>): (r: seq<Device>)
    ensures buildings.None? ==> r == []
    ensures buildings.Some? ==> r == Extract.AllDevices(buildings.value)
    ensures forall d :: d in r ==> d.locationPath.Some?
  {
    if buildings.None? || |buildings.value| == 0 then []
    else Extract.AllDevices(buildings.value)
  }

  /** The guard for an empty list changes nothing, and the page lists one
      record per device of the buildings tree. */
  lemma AllDevicesOfIsExtraction(buildings: Option<seq<Node>>)
    ensures buildings.Some? ==> AllDevicesOf(buildings) == Extract.AllDevices(buildings.value)
    ensures |AllDevicesOf(buildings)|
         == if buildings.None? then 0 else Counts.SumCount(buildings.value, Counts.Devices)
  {
    if buildings.Some? {
      Extract.ExtractedLength(buildings.value);
    }
  }

  // ---------------------------------------------------------------------
  // Search

  /** `field && field.toLowerCase().includes(term)`. */
  predicate FieldMatches(field: Option<string>, term: string) {
    Truthy(field) && Includes(Lower(field.value), term)
  }

  /** A device matches `term` through its name, serial number, type or
      location path. */
  predicate Matches(d: Device, term: string) {
    || FieldMatches(d.name, term)
    || FieldMatches(d.serialNumber, term)
    || FieldMatches(d.deviceType, term)
    || FieldMatches(d.locationPath, term)
  }

  /** `devices.filter(device => Matches(device, term))`. */
  function Filter(devices: seq<Device>, term: string): (r: seq<Device>)
    ensures |r| <= |devices|
  {
    if devices == [] then []
    else
      var k := |devices| - 1;
      Filter(devices[..k], term) + (if Matches(devices[k], term) then [devices[k]] else [])
  }

  /** `filteredDevices`: a blank search keeps every device; otherwise the
      lower-cased search, untrimmed, is looked for in the four fields. */
  function FilteredDevices(all: seq<Device>, search: string): (r: seq<Device>)
    ensures |r| <= |all|
    ensures IsBlank(search) ==> r == all
  {
    if IsBlank(search) then all else Filter(all, Lower(search))
  }

  lemma {:induction false} FilterMembers(devices: seq<Device>, term: string)
    ensures forall d :: d in Filter(devices, term) <==> d in devices && Matches(d, term)
  {
    if devices != [] {
      var k := |devices| - 1;
      FilterMembers(devices[..k], term);
      assert devices == devices[..k] + [devices[k]];
    }
  }

  lemma {:induction false} FilterKeepsOrder(devices: seq<Device>, term: string)
    ensures IsSubsequence(Filter(devices, term), devices)
  {
    if devices != [] {
      var k := |devices| - 1;
      FilterKeepsOrder(devices[..k], term);
      assert devices[..k] + [devices[k]] == devices;
      var xs := Filter(devices[..k], term);
      if Matches(devices[k], term) {
        SubsequenceKeep(xs, devices[..k], devices[k]);
      } else {
        assert Filter(devices, term) == xs + [] == xs;
        SubsequenceSkip(xs, devices[..k], devices[k]);
      }
    }
  }

  /** The search keeps the devices that match, in their order, and only those;
      a blank search keeps the whole list. */
  lemma SearchSelects(all: seq<Device>, search: string)
    ensures IsBlank(search) ==> FilteredDevices(all, search) == all
    ensures IsSubsequence(FilteredDevices(all, search), all)
    ensures forall d :: d in FilteredDevices(all, search)
                   <==> d in all && (IsBlank(search) || Matches(d, Lower(search)))
  {
    FilterMembers(all, Lower(search));
    FilterKeepsOrder(all, Lower(search));
    SubsequenceOfItself(all);
  }

  lemma LowerIsIdempotent(s: string)
    ensures Lower(Lower(s)) == Lower(s)
    ensures IsBlank(Lower(s)) <==> IsBlank(s)
  {
    forall i | 0 <= i < |s|
      ensures Lower(Lower(s))[i] == Lower(s)[i]
      ensures IsWhitespace(Lower(s)[i]) <==> IsWhitespace(s[i])
    {
      LowerCharIsIdempotent(s[i]);
    }
  }

  lemma LowerCharIsIdempotent(c: char)
    ensures LowerChar(LowerChar(c)) == LowerChar(c)
    ensures IsWhitespace(LowerChar(c)) <==> IsWhitespace(c)
  {
  }

  /** The search is case-insensitive in the search term: searching `s` or its
      lower-case form shows the same devices. */
  lemma SearchIgnoresCase(all: seq<Device>, search: string)
    ensures FilteredDevices(all, search) == FilteredDevices(all, Lower(search))
  {
    LowerIsIdempotent(search);
  }

  /** Devices without a type are tabled under "Unknown", but the search reads
      the `deviceType` field itself: the extracted record of a device with no
      type, name or serial number, located where no place name contains
      "unknown", is not found by searching "unknown". */
  lemma UnknownTableIsNotSearchable(d: Device, path: seq<Place>)
    requires d.deviceType.None? && d.name.None? && d.serialNumber.None?
    requires !Includes(Lower(Join(Extract.Names(path), Extract.Separator)), "unknown")
    ensures var e := Extract.Annotate(d, path);
      && Grouping.TypeKey(e) == Grouping.UnknownType
      && FilteredDevices([e], "unknown") == []
  {
    var e := Extract.Annotate(d, path);
    SearchTermUnknown();
    assert !Matches(e, "unknown");
    assert Filter([e][..0], "unknown") == [];
  }

  lemma SearchTermUnknown()
    ensures !IsBlank("unknown") && Lower("unknown") == "unknown"
  {
    assert !IsWhitespace("unknown"[0]);
  }

  // ---------------------------------------------------------------------
  // Selection

  /** The updater of `handleSelectDevice(id, isSelected)`: `id` is selected
      afterwards exactly when `isSelected`, and no other id changes. */
  function SelectDevice(prev: set<string>, id: string, isSelected: bool): (next: set<string>)
    ensures id in next <==> isSelected
    ensures forall other :: other != id ==> (other in next <==> other in prev)
  {
    if isSelected then prev + {id} else prev - {id}
  }

  /** The updater of `handleSelectAll(ids, isSelected)`: every id of `ids` is
      selected afterwards exactly when `isSelected`, and no other id changes. */
  function SelectAll(prev: set<string>, ids: seq<string>, isSelected: bool): (next: set<string>)
    ensures forall id :: id in next <==> if id in ids then isSelected else id in prev
  {
    var these := set i | 0 <= i < |ids| :: ids[i];
    if isSelected then prev + these else prev - these
  }

  /** `handleSelectAll`'s `forEach` over `ids`, adding or deleting one id at a
      time. */
  method SelectAllUpdate(prev: set<string>, ids: seq<string>, isSelected: bool) returns (next: set<string>)
    ensures next == SelectAll(prev, ids, isSelected)
  {
    next := prev;
    for i := 0 to |ids|
      invariant next == SelectAll(prev, ids[..i], isSelected)
    {
      assert forall id :: id in ids[..i + 1] <==> id in ids[..i] || id == ids[i] by {
        assert ids[..i + 1] == ids[..i] + [ids[i]];
      }
      if isSelected {
        next := next + {ids[i]};
      } else {
        next := next - {ids[i]};
      }
    }
    assert ids[..|ids|] == ids;
  }

  /** The selection of the devices page. */
  class Selection {
    var selected: set<string>

    /** `useState(new Set())`. */
    constructor()
      ensures selected == {}
    {
      selected := {};
    }

    /** `handleSelectDevice`. */
    method HandleSelectDevice(id: string, isSelected: bool)
      modifies this
      ensures selected == SelectDevice(old(selected), id, isSelected)
    {
      selected := SelectDevice(selected, id, isSelected);
    }

    /** `handleSelectAll`. */
    method HandleSelectAll(ids: seq<string>, isSelected: bool)
      modifies this
      ensures selected == SelectAll(old(selected), ids, isSelected)
    {
      selected := SelectAllUpdate(selected, ids, isSelected);
    }

    /** `handleClearSelection`. */
    method HandleClearSelection()
      modifies this
      ensures selected == {}
    {
      selected := {};
    }
  }

  // ---------------------------------------------------------------------
  // The table of one device type

  /** `d.id || d.serialNumber || `device-${d.name}``: the id a row reports
      when its checkbox changes, and the id the header checkbox toggles. */
  function DeviceKey(d: Device): (r: string)
    ensures r != ""
  {
    OrElse(d.id, OrElse(d.serialNumber, "device-" + Show(d.name)))
  }

  /** `deviceIds` of a table. */
  function TableKeys(devices: seq<Device>): (r: seq<string>)
    ensures |r| == |devices|
    ensures forall i :: 0 <= i < |devices| ==> r[i] == DeviceKey(devices[i])
  {
    seq(|devices|, i requires 0 <= i < |devices| => DeviceKey(devices[i]))
  }

  /** `allSelected`: a non-empty table all of whose ids are selected. */
  predicate AllSelected(ids: seq<string>, selected: set<string>)
    ensures AllSelected(ids, selected) <==> ids != [] && forall id :: id in ids ==> id in selected
  {
    |ids| > 0 && forall i :: 0 <= i < |ids| ==> ids[i] in selected
  }

  /** `someSelected`. */
  predicate SomeSelected(ids: seq<string>, selected: set<string>)
    ensures SomeSelected(ids, selected) <==> exists id :: id in ids && id in selected
  {
    exists i :: 0 <= i < |ids| && ids[i] in selected
  }

  /** The header checkbox is drawn indeterminate. */
  predicate Indeterminate(ids: seq<string>, selected: set<string>) {
    SomeSelected(ids, selected) && !AllSelected(ids, selected)
  }

  /** The header checkbox's `handleSelectAll`: `onSelectAll(deviceIds, !allSelected)`. */
  function ToggleTable(selected: set<string>, ids: seq<string>): (next: set<string>)
    ensures AllSelected(ids, selected) ==> !SomeSelected(ids, next)
    ensures !AllSelected(ids, selected) && |ids| > 0 ==> AllSelected(ids, next)
    ensures forall id :: id !in ids ==> (id in next <==> id in selected)
  {
    SelectAll(selected, ids, !AllSelected(ids, selected))
  }

  /** The header checkbox is never drawn checked and indeterminate at once,
      and a checked header implies that some row id is selected. */
  lemma HeaderStates(ids: seq<string>, selected: set<string>)
    ensures AllSelected(ids, selected) ==> SomeSelected(ids, selected) && !Indeterminate(ids, selected)
  {
    if AllSelected(ids, selected) {
      assert ids[0] in selected;
    }
  }

  /** Clicking a fully selected header twice gives the selection back. */
  lemma ToggleTwice(selected: set<string>, ids: seq<string>)
    requires AllSelected(ids, selected)
    ensures ToggleTable(ToggleTable(selected, ids), ids) == selected
  {
    var once := ToggleTable(selected, ids);
    assert !AllSelected(ids, once) by {
      assert ids[0] !in once;
    }
  }

  // ---------------------------------------------------------------------
  // The row checkboxes

  /** `device.id || device.serialNumber || `device-${index}``: the id under
      which a row looks itself up in the selection. */
  function RowKey(d: Device, index: nat): (r: string)
    ensures r != ""
    ensures Truthy(d.id) ==> r == d.id.value
    ensures !Truthy(d.id) && Truthy(d.serialNumber) ==> r == d.serialNumber.value
  {
    OrElse(d.id, OrElse(d.serialNumber, "device-" + Decimal(index)))
  }

  /** Row `index`'s checkbox as written: `selectedDevices.has(RowKey)`. */
  predicate RowChecked(devices: seq<Device>, index: nat, selected: set<string>)
    requires index < |devices|
  {
    RowKey(devices[index], index) in selected
  }

  /** Row `index`'s checkbox as intended: looked up under the id the row
      reports. */
  predicate RowCheckedIntended(devices: seq<Device>, index: nat, selected: set<string>)
    requires index < |devices|
  {
    DeviceKey(devices[index]) in selected
  }

  /** The two ids of a device agree exactly when it has an id or a serial
      number, or its name prints as its index. */
  lemma KeysAgree(d: Device, index: nat)
    ensures DeviceKey(d) == RowKey(d, index)
        <==> Truthy(d.id) || Truthy(d.serialNumber) || Show(d.name) == Decimal(index)
  {
    if !Truthy(d.id) && !Truthy(d.serialNumber) && DeviceKey(d) == RowKey(d, index) {
      var prefix := "device-";
      assert (prefix + Show(d.name))[|prefix|..] == Show(d.name);
      assert (prefix + Decimal(index))[|prefix|..] == Decimal(index);
    }
  }

  /** As written: ticking the checkbox of a device that has neither id nor
      serial number selects "device-Sensor A", but the row looks up
      "device-0" and stays unticked, while the header shows the table as
      fully selected. */
  lemma SelectedRowShowsUnticked(telemetry: map<string, Value>)
    ensures var d := Device(None, None, Some("Sensor A"), Some("Thermostat"), Undefined, None, None, None, telemetry);
            var selected := SelectDevice({}, DeviceKey(d), true);
            && !RowChecked([d], 0, selected)
            && AllSelected(TableKeys([d]), selected)
  {
    var d := Device(None, None, Some("Sensor A"), Some("Thermostat"), Undefined, None, None, None, telemetry);
    assert DeviceKey(d) == "device-Sensor A";
    assert RowKey(d, 0) == "device-0";
  }

  /** As intended: after a row's checkbox reports `isSelected`, the row shows
      `isSelected`, and a fully selected table shows every row ticked. */
  lemma RowReflectsSelection(devices: seq<Device>, index: nat, prev: set<string>, isSelected: bool)
    requires index < |devices|
    ensures RowCheckedIntended(devices, index, SelectDevice(prev, DeviceKey(devices[index]), isSelected)) == isSelected
    ensures AllSelected(TableKeys(devices), prev) ==>
              forall i :: 0 <= i < |devices| ==> RowCheckedIntended(devices, i, prev)
  {
    if AllSelected(TableKeys(devices), prev) {
      forall i | 0 <= i < |devices|
        ensures RowCheckedIntended(devices, i, prev)
      {
        assert TableKeys(devices)[i] in prev;
      }
    }
  }

  // ---------------------------------------------------------------------
  // The tables

  /** `Object.keys(groupedDevices).sort()`: one table per device type, in
      ascending order of type. */
  method DeviceTypes(grouped: map<string, seq<Device>>) returns (types: seq<string>)
    ensures JsSort.StrictlySorted(types)
    ensures forall t :: t in types <==> t in grouped
    ensures |types| == |grouped|
  {
    types := JsSort.SortKeys(grouped.Keys);
  }

  /** The number of rows of the tables for `types`. */
  function Rows(grouped: map<string, seq<Device>>, types: seq<string>): nat {
    if types == [] then 0
    else
      var k := |types| - 1;
      Rows(grouped, types[..k]) + (if types[k] in grouped then |grouped[types[k]]| else 0)
  }

  /** The number of devices of `devices` whose key is one of `types`. */
  function RowsOfType(devices: seq<Device>, types: seq<string>): nat {
    if types == [] then 0
    else
      var k := |types| - 1;
      RowsOfType(devices, types[..k]) + |Grouping.OfType(devices, types[k])|
  }

  function Occurrences(types: seq<string>, t: string): nat {
    if types == [] then 0
    else
      var k := |types| - 1;
      Occurrences(types[..k], t) + (if types[k] == t then 1 else 0)
  }

  predicate Distinct(types: seq<string>) {
    forall i, j :: 0 <= i < j < |types| ==> types[i] != types[j]
  }

  lemma {:induction false} OccursOnce(types: seq<string>, t: string)
    requires Distinct(types)
    ensures Occurrences(types, t) == if t in types then 1 else 0
  {
    if types != [] {
      var k := |types| - 1;
      OccursOnce(types[..k], t);
      assert types == types[..k] + [types[k]];
    }
  }

  lemma {:induction false} RowsOfTypeStep(devices: seq<Device>, types: seq<string>)
    requires devices != []
    ensures RowsOfType(devices, types)
         == RowsOfType(devices[..|devices| - 1], types)
          + Occurrences(types, Grouping.TypeKey(devices[|devices| - 1]))
  {
    if types != [] {
      RowsOfTypeStep(devices, types[..|types| - 1]);
    }
  }

  lemma {:induction false} RowsOfTypeCovers(devices: seq<Device>, types: seq<string>)
    requires Distinct(types)
    requires forall t :: t in Grouping.TypeKeys(devices) ==> t in types
    ensures RowsOfType(devices, types) == |devices|
  {
    if devices == [] {
      RowsOfTypeEmpty(types);
    } else {
      var k := |devices| - 1;
      forall t | t in Grouping.TypeKeys(devices[..k])
        ensures t in types
      {
        var i :| 0 <= i < k && Grouping.TypeKey(devices[..k][i]) == t;
        assert Grouping.TypeKey(devices[i]) == t;
      }
      RowsOfTypeCovers(devices[..k], types);
      RowsOfTypeStep(devices, types);
      assert Grouping.TypeKey(devices[k]) in Grouping.TypeKeys(devices);
      OccursOnce(types, Grouping.TypeKey(devices[k]));
    }
  }

  lemma {:induction false} RowsOfTypeEmpty(types: seq<string>)
    ensures RowsOfType([], types) == 0
  {
    if types != [] {
      RowsOfTypeEmpty(types[..|types| - 1]);
    }
  }

  lemma {:induction false} RowsAreOfType(devices: seq<Device>, types: seq<string>)
    requires forall t :: t in types ==> t in Grouping.Grouped(devices)
    ensures Rows(Grouping.Grouped(devices), types) == RowsOfType(devices, types)
  {
    Grouping.GroupedIsPartition(devices);
    if types != [] {
      RowsAreOfType(devices, types[..|types| - 1]);
    }
  }

  /** The tables drawn for the sorted types show every filtered device
      exactly once: their rows add up to the filtered list, each device sits
      in the table of its own type, and "No devices match your search"
      appears exactly when nothing was left by the filter. */
  lemma TablesShowEachDeviceOnce(filtered: seq<Device>, types: seq<string>)
    requires JsSort.StrictlySorted(types)
    requires forall t :: t in types <==> t in Grouping.Grouped(filtered)
    ensures Rows(Grouping.Grouped(filtered), types) == |filtered|
    ensures types == [] <==> filtered == []
    ensures forall t, d :: t in types && d in Grouping.Grouped(filtered)[t]
                       <==> d in filtered && t == Grouping.TypeKey(d)
  {
    forall i, j | 0 <= i < j < |types|
      ensures types[i] != types[j]
    {
      JsSort.BelowIrreflexive(types[i]);
    }
    Grouping.GroupedIsPartition(filtered);
    RowsAreOfType(filtered, types);
    RowsOfTypeCovers(filtered, types);
    if filtered != [] {
      assert Grouping.TypeKey(filtered[0]) in Grouping.TypeKeys(filtered);
    }
    forall t, d
      ensures t in types && d in Grouping.Grouped(filtered)[t] <==> d in filtered && t == Grouping.TypeKey(d)
    {
      Grouping.OfTypeMembers(filtered, t);
      if d in filtered && t == Grouping.TypeKey(d) {
        var i :| 0 <= i < |filtered| && filtered[i] == d;
        assert t in Grouping.TypeKeys(filtered);
      }
    }
  }
}
