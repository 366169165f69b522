# Building dashboard: transform layer and view logic

This project is a Dafny model of the logic behind a building-management
dashboard. The dashboard receives a tree of buildings. Any structural node
(building, floor, space or room) may hold ordered `floors`, `spaces`, `rooms`
and `devices`, to any depth. The model covers three parts:

- **The transform layer** (`src/utils/dataTransform.js`):
  - `countItems` and `countOnlineDevices`, the recursive tallies on a building card (module `Counts`);
  - `extractAllDevices`, which flattens the tree into one annotated device list (module `Extract`);
  - `groupDevicesByType` (module `Grouping`);
  - `buildSidebarTree` and `buildChildrenTree`, the navigation tree (module `Sidebar`).
- **The devices page** (`src/components/DevicesView.jsx`, module `DevicesView`):
  - the device list and the search filter;
  - the selection and its handlers;
  - the per-type tables with their header and row checkboxes;
  - the sorted order of the tables. The default string sort is module `JsSort`.
- **The buildings page** (`src/components/BuildingsView.jsx`, module `BuildingsView`):
  - which buildings are shown;
  - the figures on a card;
  - the card title;
  - the split of an address by `/^(\d+)\s*(.+)$/`.

The shared data model is in module `Hierarchy`. Module `Js` holds the
JavaScript behaviour that the code relies on: string truthiness, `||`
fallbacks, the `\s` whitespace class, `toLowerCase`, `includes`, `join`, and
the printing of `undefined` and of numbers in template literals.
`Sequences` defines order-preserving subsequences.

Each recursive or looping operation of the source appears twice:

- as a specification function (`Count`, `Emitted`, `Grouped`, `ChildrenTree`, `SelectAll`);
- as a method whose loops are those of the source, proved equal to that function.

`traverse` pushes into an array shared across recursive calls, so it is a
method of the class `Extract.Collector`. The page's selection state is the
class `DevicesView.Selection`. Properties relate the specification functions
to independent descriptions:

- the reachable nodes of a building;
- the chain of nodes that holds each device;
- a partition of the devices by type;
- the skeleton of a node;
- the greediest split of an address.

The model follows the code as written, including where it departs from
its evident intent. In `locationPath`, every place except the node that
holds the device appears twice, the building included: a device under
floor F of building B is shown at "B > B > F", and one in room R of F at
"B > B > F > F > R". A device type named like a property of `Object.prototype`
("constructor", "toString", ...) makes `groupDevicesByType` throw. Both the
behaviour as written and the evidently intended one are modelled; see
Findings.

## Model

| member | source | states |
|---|---|---|
| Counts.ItemCount | src/utils/dataTransform.js:2-58 | a missing item and an unrecognised kind count 0; otherwise the count follows the kind's own descent rule |
| Counts.CountItems | src/utils/dataTransform.js:2-58 | the recursive `countItems` with its `forEach` loops computes exactly `ItemCount` |
| Counts.AddEach | src/utils/dataTransform.js:10-12 | one `forEach` adds the recursive count of every child in the collection |
| Counts.CountedOnlineIsShownOnline | src/utils/dataTransform.js:67 | a device counted online (`isOnline === true`) is also shown online by the row (`isOnline !== false`, src/components/DevicesView.jsx:6); one with `isOnline` missing is shown online but not counted |
| Counts.OnlineHere | src/utils/dataTransform.js:66-68 | the devices with `isOnline === true` number at most the devices held |
| Counts.OnlineCount | src/utils/dataTransform.js:61-89 | a missing item counts 0 online devices |
| Counts.CountOnlineDevices | src/utils/dataTransform.js:61-89 | the recursive `countOnlineDevices` computes exactly `OnlineCount` |
| Counts.AddEachOnline | src/utils/dataTransform.js:70-86 | one `forEach` adds the online count of every child |
| Counts.OnlineAtMostDevices | src/utils/dataTransform.js:38-89 | the online count of a node never exceeds its device count |
| Counts.OnlineAtMostDevicesAll | src/utils/dataTransform.js:38-89 | the same bound, summed over a collection of nodes |
| Counts.CountSeesOnlyDescended | src/utils/dataTransform.js:7-37 | the floor, space and room counts depend only on the collections their branch descends into; for example, rooms reachable only through floors are never counted |
| Counts.CountSeesOnlyDescendedAll | src/utils/dataTransform.js:7-37 | the same independence, summed over a collection |
| Counts.Reachable | src/utils/dataTransform.js:38-55 | the depth-first list of nodes reachable from a node starts with the node itself |
| Counts.DeviceCountIsSumOverReachable | src/utils/dataTransform.js:38-55 | the device count equals the number of devices held directly by the reachable nodes: each device is counted once |
| Counts.DeviceCountIsSumOverReachableAll | src/utils/dataTransform.js:38-55 | the same, over a collection of nodes |
| Extract.Annotate | src/utils/dataTransform.js:98-103 | a record keeps the device's own id, serial number, name, type, `isOnline` and telemetry; `buildingId` and `buildingName` come from the first place of a non-empty path; `locationPath` is always a string |
| Extract.AnnotateAll | src/utils/dataTransform.js:97-104 | every pushed record is the device with `buildingId` and `buildingName` taken from the path's first element and `locationPath` set to the joined names |
| Extract.Collector.Push | src/utils/dataTransform.js:98-103 | appends one record to the shared array |
| Extract.Emitted | src/utils/dataTransform.js:95-124 | the records `traverse(n, path)` pushes: every one has a string `locationPath`; their order and paths are stated by `EmittedIsRendered` and `DirectDevicesOfBuilding` |
| Extract.Collector.PushAnnotated | src/utils/dataTransform.js:96-104 | the `forEach` over the node's own devices appends exactly their annotated records, in order |
| Extract.Collector.Traverse | src/utils/dataTransform.js:95-124 | appends exactly `Emitted(item, path)` to the shared array: own devices first, then floors, spaces and rooms |
| Extract.Collector.TraverseEach | src/utils/dataTransform.js:107-123 | one child `forEach` appends what each child emits under the path `path + [current, child]` |
| Extract.AllDevices | src/utils/dataTransform.js:92-131 | the result of `extractAllDevices`, in which every record has a `locationPath` |
| Extract.ExtractAllDevices | src/utils/dataTransform.js:92-131 | the result is `AllDevices(buildings)`, each building traversed with the path `[building]` |
| Extract.Holdings | src/utils/dataTransform.js:95-124 | every device below a node is paired with a chain of structural nodes that starts at that node |
| Extract.HoldingsValid | src/utils/dataTransform.js:95-124 | every chain starts at the node, each next node is a floor, space or room of the one before, and the last node holds the device |
| Extract.EmittedIsRendered | src/utils/dataTransform.js:95-124 | the records a traversal emits are the held devices, in order, each annotated with its chain as written: every node of the chain twice except the holder of the device, once |
| Extract.HoldingsFollowReachable | src/utils/dataTransform.js:95-124 | the devices are emitted in the depth-first order of the reachable nodes |
| Extract.EmittedLength | src/utils/dataTransform.js:95-124 | a traversal emits exactly as many records as `countItems(item, 'devices')` counts |
| Extract.ExtractedLength | src/utils/dataTransform.js:126-130 | the flattened list has one record per device of every building |
| Extract.ExtractedFromBuilding | src/utils/dataTransform.js:99-102 | every record of a building carries that building's id and name; a device d levels down has a path of 2d+1 places |
| Extract.DirectDevicesOfBuilding | src/utils/dataTransform.js:96-104 | a building's own devices come first, and their `locationPath` is the building's name alone |
| Extract.LocationOf | src/utils/dataTransform.js:109 | the full path of a device held at depth d has 2d+1 places as written and d+1 as intended |
| Extract.WrittenLocationDoublesAncestors | src/utils/dataTransform.js:109-121 | as written, the full path names every node of the chain twice except the holder of the device, which it names once |
| Extract.RoomLocationExample | src/utils/dataTransform.js:109-121 | a device of room R in floor F of building B is located at B, B, F, F, R as written and at B, F, R as intended |
| Extract.DoubledAncestorExample | src/utils/dataTransform.js:109 | as written, a device of floor "Floor 1" in building "HQ" is located at "HQ > HQ > Floor 1"; as intended it is at "HQ > Floor 1" |
| Extract.EmittedIntendedIsRendered | src/utils/dataTransform.js:109 | with the intended child path `path + [child]`, each record is annotated with its chain written once |
| Extract.IntendedLocationIsChain | src/utils/dataTransform.js:109 | the intended full path of a device is exactly the list of its ancestors' places |
| Extract.ExtractedIntendedFromBuilding | src/utils/dataTransform.js:109 | with the intended path, every record names each structural node from the building down to its holder once |
| Grouping.TypeKey | src/utils/dataTransform.js:138 | the bucket key is never empty; it is "Unknown" exactly for a missing, empty or literal "Unknown" type, and otherwise it is the type itself |
| Grouping.Grouped | src/utils/dataTransform.js:134-146 | the dictionary the grouping builds when it does not throw; no bucket is ever empty |
| Grouping.GroupDevicesByType | src/utils/dataTransform.js:134-146 | the loop throws exactly when some key names an inherited property of a plain object; otherwise it builds exactly `Grouped(devices)` |
| Grouping.InheritedTypeThrows | src/utils/dataTransform.js:135-142 | a device typed "constructor" anywhere in the list makes the grouping throw |
| Grouping.GroupedIsPartition | src/utils/dataTransform.js:134-146 | the keys are exactly the keys that occur in the input; each bucket is non-empty and holds exactly the devices of its key |
| Grouping.OfTypeMembers | src/utils/dataTransform.js:137-143 | a device is in a bucket if and only if it is in the input with that key, so no device lands in two buckets |
| Grouping.OfTypeKeepsOrder | src/utils/dataTransform.js:137-143 | every bucket keeps the input order |
| Sidebar.ChildrenTree | src/utils/dataTransform.js:158-198 | `children` is `null` exactly when the node has no floors, spaces or rooms, and otherwise lists one navigation node per floor, space and room |
| Sidebar.Project | src/utils/dataTransform.js:161-192 | one navigation node per child, in order |
| Sidebar.SidebarTree | src/utils/dataTransform.js:149-156 | one navigation node per building |
| Sidebar.PushEach | src/utils/dataTransform.js:161-192 | one `forEach` pushes one node per child, labelled with the collection's kind |
| Sidebar.BuildChildrenTree | src/utils/dataTransform.js:158-198 | the loops build exactly `ChildrenTree(item)`, which is `null` when nothing was pushed |
| Sidebar.ChildrenNeverEmpty | src/utils/dataTransform.js:197 | `children` is `null` exactly when a node has no floors, spaces or rooms; no empty list appears anywhere in the tree |
| Sidebar.SidebarShape | src/utils/dataTransform.js:149-156 | the `i`-th sidebar node is a `building` node with the `i`-th building's id, and its subtree has no empty `children` list |
| Sidebar.RebuildRoundTrip | src/utils/dataTransform.js:158-198 | reading a navigation node back gives the node's skeleton: floors, spaces and rooms survive in order with ids and names; addresses and devices are dropped |
| Sidebar.ProjectRoundTrip | src/utils/dataTransform.js:161-192 | the children pushed for one collection read back as that collection's skeleton under their own kind, and as nothing under any other kind |
| Sidebar.ProjectLabels | src/utils/dataTransform.js:161-192 | every node pushed for a collection carries that collection's kind |
| Sidebar.ChildrenOrdered | src/utils/dataTransform.js:161-192 | children are floors, then spaces, then rooms |
| JsSort.BelowIrreflexive | src/components/DevicesView.jsx:226 | no string sorts before itself |
| JsSort.BelowTransitive | src/components/DevicesView.jsx:226 | the string order is transitive |
| JsSort.BelowTotal | src/components/DevicesView.jsx:226 | of two different strings, one sorts before the other |
| JsSort.Insert | src/components/DevicesView.jsx:226 | inserting a new key into a strictly ascending list keeps it strictly ascending, with one more element |
| JsSort.SortKeys | src/components/DevicesView.jsx:226 | sorting a key set gives a strictly ascending list of exactly those keys |
| JsSort.SortedIsUnique | src/components/DevicesView.jsx:226 | a key set has exactly one strictly ascending listing, so the sort's result does not depend on the key order |
| DevicesView.AllDevicesOfIsExtraction | src/components/DevicesView.jsx:164-167 | missing buildings give no devices; the guard for an empty list agrees with `extractAllDevices`; the page lists one record per device of the tree |
| DevicesView.AllDevicesOf | src/components/DevicesView.jsx:164-167 | missing buildings give no devices; otherwise the list is `extractAllDevices(buildings)`, the empty-array guard included, and every record has a `locationPath` |
| DevicesView.Filter | src/components/DevicesView.jsx:172-179 | the kept devices are never more than the devices searched |
| DevicesView.FilteredDevices | src/components/DevicesView.jsx:169-180 | a search that trims to empty keeps the whole list; no search lengthens it |
| DevicesView.FilterMembers | src/components/DevicesView.jsx:172-179 | a device survives the filter if and only if it matches through its name, serial number, type or location path |
| DevicesView.FilterKeepsOrder | src/components/DevicesView.jsx:172-179 | the filter keeps the list order |
| DevicesView.SearchSelects | src/components/DevicesView.jsx:169-180 | a blank search keeps every device; otherwise exactly the matching devices remain, in order |
| DevicesView.SearchIgnoresCase | src/components/DevicesView.jsx:170-171 | searching a term or its lower-case form shows the same devices |
| DevicesView.UnknownTableIsNotSearchable | src/components/DevicesView.jsx:172-179 | the extracted record of a device with no type, name or serial number, whose location names no place containing "unknown", is tabled under "Unknown" but not found by searching "unknown" |
| DevicesView.SelectDevice | src/components/DevicesView.jsx:190-200 | the given id is selected afterwards exactly when `isSelected`; no other id changes |
| DevicesView.SelectAll | src/components/DevicesView.jsx:202-212 | every given id is selected afterwards exactly when `isSelected`; no other id changes |
| DevicesView.SelectAllUpdate | src/components/DevicesView.jsx:205-209 | the `forEach` that adds or deletes one id at a time computes `SelectAll` |
| DevicesView.Selection.constructor | src/components/DevicesView.jsx:154 | the selection starts empty |
| DevicesView.Selection.HandleSelectDevice | src/components/DevicesView.jsx:190-200 | the selection becomes `SelectDevice` of the old selection |
| DevicesView.Selection.HandleSelectAll | src/components/DevicesView.jsx:202-212 | the selection becomes `SelectAll` of the old selection |
| DevicesView.Selection.HandleClearSelection | src/components/DevicesView.jsx:214-216 | the selection becomes empty |
| DevicesView.DeviceKey | src/components/DevicesView.jsx:8 | the id a row reports and the header toggles is never empty |
| DevicesView.TableKeys | src/components/DevicesView.jsx:63 | a table's `deviceIds` list has one `DeviceKey` per device, in order |
| DevicesView.ToggleTable | src/components/DevicesView.jsx:64-72 | the header deselects the whole table when all of it is selected, and otherwise selects all of it; other ids are untouched |
| DevicesView.AllSelected | src/components/DevicesView.jsx:64 | `allSelected` holds exactly for a non-empty table every id of which is selected |
| DevicesView.SomeSelected | src/components/DevicesView.jsx:65 | `someSelected` holds exactly when some id of the table is selected |
| DevicesView.HeaderStates | src/components/DevicesView.jsx:64-65 | a checked header implies some row id is selected, and the header is then not indeterminate |
| DevicesView.ToggleTwice | src/components/DevicesView.jsx:67-72 | clicking a fully selected header twice restores the selection |
| DevicesView.RowKey | src/components/DevicesView.jsx:129 | the id a row looks itself up under is never empty: its `id` when truthy, else its serial number when truthy, else `device-` and the row index |
| DevicesView.KeysAgree | src/components/DevicesView.jsx:129 | the id a row reports and the id it looks up agree exactly when the device has an id or a serial number, or its name prints as its index |
| DevicesView.SelectedRowShowsUnticked | src/components/DevicesView.jsx:129-136 | as written, a row without id or serial number stays unticked after it is selected, while its header shows the table as fully selected |
| DevicesView.RowReflectsSelection | src/components/DevicesView.jsx:136 | as intended, a row shows exactly what it last reported, and a fully selected table shows every row ticked |
| DevicesView.DeviceTypes | src/components/DevicesView.jsx:226 | the tables are listed once per type, in strictly ascending order |
| DevicesView.TablesShowEachDeviceOnce | src/components/DevicesView.jsx:291-305 | the tables together hold every filtered device exactly once, each under its own type; no table is drawn exactly when the filter left nothing |
| BuildingsView.ShownBuildings | src/components/BuildingsView.jsx:146-151 | only a non-empty array gives buildings, and it is shown unchanged |
| BuildingsView.CardStats | src/components/BuildingsView.jsx:7-11 | a card's five figures are the floor, space, room, device and online counts, and online never exceeds devices |
| BuildingsView.Title | src/components/BuildingsView.jsx:38 | the title is never empty; a truthy name is used as it is, and a missing or empty name gives exactly "Unnamed Building" |
| BuildingsView.ShowsAddressRow | src/components/BuildingsView.jsx:39 | the address row is drawn exactly for a present, non-empty address |
| BuildingsView.AddressRowHasText | src/components/BuildingsView.jsx:39-43 | a drawn address row always has non-empty text |
| BuildingsView.LeadingRuns | src/components/BuildingsView.jsx:41 | the leading digit and whitespace runs are maximal |
| BuildingsView.TrySpaces | src/components/BuildingsView.jsx:41 | backtracking `\s*` from the longest whitespace run finds the longest run after which `.+$` accepts the rest, or reports that none exists |
| BuildingsView.TryDigits | src/components/BuildingsView.jsx:41 | a result of `\d+` backtracking from `d` digits uses between 1 and `d` digits, followed by the longest whitespace run after which `.+$` matches |
| BuildingsView.MatchAddress | src/components/BuildingsView.jsx:41 | a match takes between 1 and all of the leading digits as the number, and a suffix of the address without line terminators as the non-empty text |
| BuildingsView.TryDigitsIsGreedy | src/components/BuildingsView.jsx:41 | backtracking `\d+` yields the split with the most digits and, for those, the most whitespace |
| BuildingsView.SplitsAreWithinRuns | src/components/BuildingsView.jsx:41 | every way the expression can match lies within the runs the backtracking visits, and every such candidate is a match |
| BuildingsView.MatchIsGreediestSplit | src/components/BuildingsView.jsx:41 | the expression matches exactly when some digits-whitespace-rest split exists; the match found is such a split, and it is the greediest one |
| BuildingsView.AddressParts | src/components/BuildingsView.jsx:41-43 | without a match there is no number and the text is the whole address; with one, number and text are both non-empty and fit in the address |
| BuildingsView.AddressPartsRoundTrip | src/components/BuildingsView.jsx:41-43 | without a match the whole address is the text; with one, the number is non-empty digits and the address is number, whitespace and non-empty text |
| BuildingsView.NoLeadingDigitNoNumber | src/components/BuildingsView.jsx:40-43 | an address that does not start with a digit has no number |
| BuildingsView.AllDigitsGiveUpOne | src/components/BuildingsView.jsx:41-43 | "123" splits as number "12" and text "3" |
| BuildingsView.NumberedStreet | src/components/BuildingsView.jsx:41-43 | "12 Main St" splits as number "12" and text "Main St" |
| BuildingsView.TrailingSpaceIsText | src/components/BuildingsView.jsx:41-43 | "7 " splits as number "7" and text " " |

## Left out

- An absent child collection is modelled as an empty one. Every core function treats the two alike.
- A `null` entry inside a child array is not modelled. The source treats it differently in each function:
  - `countItems` counts it in the collection's length and adds 0 for it (`if (!item) return 0`), and `countOnlineDevices` adds 0 for a `null` floor, space or room;
  - `extractAllDevices` turns a `null` device into a record holding only the three path fields, because spreading `null` gives `{}`;
  - `countOnlineDevices` throws on a `null` device (`device.isOnline`), `traverse` and `buildChildrenTree` throw on a `null` floor, space or room (`floor.id`), and `groupDevicesByType` throws on a `null` device (`device.deviceType`).
- Non-string ids, names and types are not modelled. Text fields are absent (`undefined`) or strings, and `isOnline` is a small JSON value type.
- `toLowerCase` is modelled on ASCII letters only. Unicode case mapping is not modelled.
- The default sort compares UTF-16 code units. The model compares characters (Unicode scalar values), which orders supplementary characters differently.
- The search debounce (a 300 ms timer) is not modelled, because it is timing only. The filter reads the debounced term.
- React machinery is not modelled: memoisation, rendering, expand and collapse state, and event propagation.
- Telemetry cell formatting is not modelled. Telemetry fields pass through extraction unchanged in the device's `telemetry` map.
- The simulated offline row colouring (`index % 4 === 1`) is not modelled. It is display-only.
- The floating action bar's "N devices selected" wording is not modelled.
- The API client, the application shell and the sidebar component are not part of this model.

## Findings

| source | as written | input that shows it | evidently intended | confidence | as-written member | corrected member |
|---|---|---|---|---|---|---|
| src/utils/dataTransform.js:109 | a child's path is `[...path, current, child]`, but `path` already ends with `current` (also at lines 115 and 121) | building "HQ" whose floor "Floor 1" holds one device: its `locationPath` is "HQ > HQ > Floor 1" | the child's path is `[...path, child]`, giving "HQ > Floor 1" | high, not executed | Extract.DoubledAncestorExample | Extract.ExtractedIntendedFromBuilding |
| src/utils/dataTransform.js:135 | the buckets live in a plain object `{}`, so `grouped[type]` also finds the properties every object inherits | a device with `deviceType` "constructor": `grouped["constructor"]` is the `Object` function, no bucket is created, and `.push` is not a function, so the devices page fails to render | a dictionary without inherited keys (a `Map`, or `Object.create(null)`), grouping every type | high, not executed | Grouping.InheritedTypeThrows | Grouping.GroupedIsPartition |
| src/components/DevicesView.jsx:129 | a row looks itself up under a key that falls back from `id` to `serialNumber` to `"device-"+index`, while the key it reports and the header toggles ends in `"device-"+name` (lines 8 and 63) | a device with no id or serial number, named "Sensor A", at index 0: ticking it selects "device-Sensor A", but the row looks up "device-0" and stays unticked while the header shows all selected | the row looks itself up under the same key it reports | high, not executed | DevicesView.SelectedRowShowsUnticked | DevicesView.RowReflectsSelection |

The page model keeps the extraction as written, since that is what the page
displays. Its tables use `Grouping.Grouped`, which is what the grouping
returns whenever it does not throw. The corrected extraction, `Extract.AllDevicesIntended`, is defined
alongside it, and its path property is proved.
