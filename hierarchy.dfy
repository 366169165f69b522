/** The buildings tree as the dashboard receives it. One node shape serves
    every structural role (building, floor, space, room): any node may hold
    ordered `floors`, `spaces`, `rooms` and `devices`, to any depth.
    An absent child collection is modelled as the empty sequence: every
    operation of the transform layer treats the two alike. */
module Hierarchy {
  import opened Js

  /** A device record. `isOnline` keeps its JavaScript value so that strict
      `=== true` can be told apart from truthiness; `buildingId`,
      `buildingName` and `locationPath` are the fields the extractor writes;
      `telemetry` holds the remaining fields, passed through unchanged. */
  datatype Device = Device(
    id: Option<string>,
    serialNumber: Option<string>,
    name: Option<string>,
    deviceType: Option<string>,
    isOnline: Value,
    buildingId: Option<string>,
    buildingName: Option<string>,
    locationPath: Option<string>,
    telemetry: map<string, Value>)

  /** A structural node. `address` is only read on buildings. */
  datatype Node = Node(
    id: Option<string>,
    name: Option<string>,
    address: Option<string>,
    floors: seq<Node>,
    spaces: seq<Node>,
    rooms: seq<Node>,
    devices: seq<Device>)

  /** One element of a traversal path: `{ id, name }` of a structural node. */
  datatype Place = Place(id: Option<string>, name: Option<string>)

  function PlaceOf(n: Node): Place {
    Place(n.id, n.name)
  }
}
