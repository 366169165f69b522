/** The sidebar tree builder: `buildSidebarTree` projects the buildings
    tree onto navigation nodes `{ id, name, type, children }`. The children
    of a node are its floors, then its spaces, then its rooms; devices never
    appear; `children` is `null` rather than an empty list. */
module Sidebar {
  import opened Js
  import opened Hierarchy

  /** The `type` of a navigation node. There is no kind for devices. */
  datatype Label = Building | Floor | Space | Room

  function LabelText(l: Label): string {
    match l
    case Building => "building"
    case Floor => "floor"
    case Space => "space"
    case Room => "room"
  }

  /** The `children` of a navigation node: `null`, or a list. */
  datatype Children = Null | Nodes(list: seq<TreeNode>)

  /** A navigation node `{ id, name, type, children }`. */
  datatype TreeNode = TreeNode(id: Option<string>, name: Option<string>, kind: Label, children: Children)

  /** `buildChildrenTree(item)`. */
  function ChildrenTree(n: Node): (r: Children)
    ensures r.Null? <==> n.floors == [] && n.spaces == [] && n.rooms == []
    ensures r.Nodes? ==> |r.list| == |n.floors| + |n.spaces| + |n.rooms|
    decreases n, 1
  {
    var children := Project(n.floors, Floor) + Project(n.spaces, Space) + Project(n.rooms, Room);
    if |children| > 0 then Nodes(children) else Children.Null
  }

  /** The navigation nodes pushed for the collection `ns`, each labelled `l`. */
  function Project(ns: seq<Node>, l: Label): (r: seq<TreeNode>)
    ensures |r| == |ns|
    decreases ns, 0
  {
    if ns == [] then []
    else
      var k := |ns| - 1;
      Project(ns[..k], l) + [TreeNode(ns[k].id, ns[k].name, l, ChildrenTree(ns[k]))]
  }

  /** `buildSidebarTree(buildings)`: one `building` node per building. */
  function SidebarTree(buildings: seq<Node>): (r: seq<TreeNode>)
    ensures |r| == |buildings|
  {
    seq(|buildings|, i requires 0 <= i < |buildings| =>
      TreeNode(buildings[i].id, buildings[i].name, Building, ChildrenTree(buildings[i])))
  }

  /** One `forEach` of `buildChildrenTree`: pushes a node labelled `l` for
      every element of `ns`. */
  method PushEach(ns: seq<Node>, l: Label, children0: seq<TreeNode>) returns (children: seq<TreeNode>)
    ensures children == children0 + Project(ns, l)
    decreases ns, 0
  {
    children := children0;
    var i := 0;
    while i < |ns|
      invariant 0 <= i <= |ns|
      invariant children == children0 + Project(ns[..i], l)
    {
      var grandchildren := BuildChildrenTree(ns[i]);
      children := children + [TreeNode(ns[i].id, ns[i].name, l, grandchildren)];
      ghost var next := ns[..i + 1];
      assert next[..i] == ns[..i] && next[i] == ns[i];
      assert Project(next, l) == Project(ns[..i], l) + [TreeNode(ns[i].id, ns[i].name, l, ChildrenTree(ns[i]))];
      i := i + 1;
    }
    assert ns[..|ns|] == ns;
  }

  /** `buildChildrenTree(item)` as the source computes it. */
  method BuildChildrenTree(item: Node) returns (children: Children)
    ensures children == ChildrenTree(item)
    decreases item, 1
  {
    var pushed: seq<TreeNode> := [];
    if |item.floors| > 0 {
      pushed := PushEach(item.floors, Floor, pushed);
    }
    assert pushed == Project(item.floors, Floor);
    if |item.spaces| > 0 {
      pushed := PushEach(item.spaces, Space, pushed);
    }
    assert pushed == Project(item.floors, Floor) + Project(item.spaces, Space);
    if |item.rooms| > 0 {
      pushed := PushEach(item.rooms, Room, pushed);
    }
    assert pushed == Project(item.floors, Floor) + Project(item.spaces, Space) + Project(item.rooms, Room);
    children := if |pushed| > 0 then Nodes(pushed) else Children.Null;
  }

  // ---------------------------------------------------------------------
  // Properties of the sidebar tree

  /** Every `children` in the tree is `null` or a non-empty list. */
  predicate NeverEmpty(t: TreeNode)
    decreases t
  {
    match t.children
    case Null => true
    case Nodes(cs) => |cs| > 0 && forall i :: 0 <= i < |cs| ==> NeverEmpty(cs[i])
  }

  /** `children` is `null` exactly for a node without floors, spaces and
      rooms, and no node anywhere below has an empty `children` list. */
  lemma {:induction false} ChildrenNeverEmpty(n: Node)
    ensures ChildrenTree(n).Null? <==> n.floors == [] && n.spaces == [] && n.rooms == []
    ensures ChildrenTree(n).Nodes? ==>
      && |ChildrenTree(n).list| > 0
      && forall i :: 0 <= i < |ChildrenTree(n).list| ==> NeverEmpty(ChildrenTree(n).list[i])
    decreases n, 1
  {
    ProjectNeverEmpty(n.floors, Floor);
    ProjectNeverEmpty(n.spaces, Space);
    ProjectNeverEmpty(n.rooms, Room);
  }

  lemma {:induction false} ProjectNeverEmpty(ns: seq<Node>, l: Label)
    ensures forall i :: 0 <= i < |ns| ==> NeverEmpty(Project(ns, l)[i])
    decreases ns, 0
  {
    if ns != [] {
      var k := |ns| - 1;
      ProjectNeverEmpty(ns[..k], l);
      ChildrenNeverEmpty(ns[k]);
    }
  }

  /** The sidebar has one `building` node per input building, in order, and
      never an empty `children` list anywhere. */
  lemma SidebarShape(buildings: seq<Node>)
    ensures |SidebarTree(buildings)| == |buildings|
    ensures forall i :: 0 <= i < |buildings| ==>
      && SidebarTree(buildings)[i].kind == Building
      && SidebarTree(buildings)[i].id == buildings[i].id
      && NeverEmpty(SidebarTree(buildings)[i])
  {
    forall i | 0 <= i < |buildings|
      ensures NeverEmpty(SidebarTree(buildings)[i])
    {
      ChildrenNeverEmpty(buildings[i]);
    }
  }

  /** The structural part of a node: its id and name, and the same for its
      floors, spaces and rooms, with address and devices dropped. */
  function Skeleton(n: Node): Node
    decreases n, 1
  {
    Node(n.id, n.name, None, SkeletonAll(n.floors), SkeletonAll(n.spaces), SkeletonAll(n.rooms), [])
  }

  function SkeletonAll(ns: seq<Node>): (r: seq<Node>)
    ensures |r| == |ns|
    decreases ns, 0
  {
    if ns == [] then [] else SkeletonAll(ns[..|ns| - 1]) + [Skeleton(ns[|ns| - 1])]
  }

  /** Reads a node back from a navigation node: its floors, spaces and rooms
      are the children labelled `floor`, `space` and `room`, in order. */
  function Rebuild(t: TreeNode): Node
    decreases t, 1
  {
    match t.children
    case Null => Node(t.id, t.name, None, [], [], [], [])
    case Nodes(cs) => Node(t.id, t.name, None, RebuildAll(cs, Floor), RebuildAll(cs, Space), RebuildAll(cs, Room), [])
  }

  function RebuildAll(ts: seq<TreeNode>, l: Label): seq<Node>
    decreases ts, 0
  {
    if ts == [] then []
    else
      var k := |ts| - 1;
      RebuildAll(ts[..k], l) + (if ts[k].kind == l then [Rebuild(ts[k])] else [])
  }

  lemma {:induction false} RebuildAllAppend(xs: seq<TreeNode>, ys: seq<TreeNode>, l: Label)
    ensures RebuildAll(xs + ys, l) == RebuildAll(xs, l) + RebuildAll(ys, l)
    decreases |ys|
  {
    if ys == [] {
      assert xs + ys == xs;
    } else {
      var k := |ys| - 1;
      assert (xs + ys)[..|xs + ys| - 1] == xs + ys[..k];
      RebuildAllAppend(xs, ys[..k], l);
    }
  }

  /** The child collection of `n` that navigation nodes labelled `l` stand for. */
  function Collection(n: Node, l: Label): seq<Node> {
    match l
    case Building => []
    case Floor => n.floors
    case Space => n.spaces
    case Room => n.rooms
  }

  lemma RebuildChildren(n: Node, m: Label)
    ensures RebuildAll(Project(n.floors, Floor) + Project(n.spaces, Space) + Project(n.rooms, Room), m)
         == SkeletonAll(Collection(n, m))
    decreases n, 1
  {
    var f, s, r := Project(n.floors, Floor), Project(n.spaces, Space), Project(n.rooms, Room);
    RebuildAllAppend(f + s, r, m);
    RebuildAllAppend(f, s, m);
    ProjectRoundTrip(n.floors, Floor, m);
    ProjectRoundTrip(n.spaces, Space, m);
    ProjectRoundTrip(n.rooms, Room, m);
  }

  /** The sidebar tree loses nothing but addresses and devices: reading a
      navigation node back gives the node's structural skeleton, whatever
      its kind. Hence floors, spaces and rooms keep their order and their
      labels, and no device is represented. */
  lemma {:induction false} RebuildRoundTrip(n: Node, l: Label)
    ensures Rebuild(TreeNode(n.id, n.name, l, ChildrenTree(n))) == Skeleton(n)
    decreases n, 2
  {
    match ChildrenTree(n)
    case Null =>
      assert SkeletonAll(n.floors) == [] && SkeletonAll(n.spaces) == [] && SkeletonAll(n.rooms) == [];
    case Nodes(cs) =>
      RebuildChildren(n, Floor);
      RebuildChildren(n, Space);
      RebuildChildren(n, Room);
  }

  lemma {:induction false} ProjectRoundTrip(ns: seq<Node>, l: Label, m: Label)
    ensures RebuildAll(Project(ns, l), m) == if l == m then SkeletonAll(ns) else []
    decreases ns, 0
  {
    if ns != [] {
      var k := |ns| - 1;
      ProjectRoundTrip(ns[..k], l, m);
      RebuildRoundTrip(ns[k], l);
      var ps := Project(ns, l);
      assert ps[..|ps| - 1] == Project(ns[..k], l);
    }
  }

  /** Rank of a kind among a node's children: floors, then spaces, then rooms. */
  function Rank(l: Label): nat {
    match l
    case Building => 0
    case Floor => 1
    case Space => 2
    case Room => 3
  }

  lemma {:induction false} ProjectLabels(ns: seq<Node>, l: Label)
    ensures forall i :: 0 <= i < |ns| ==> Project(ns, l)[i].kind == l
    decreases ns
  {
    if ns != [] {
      ProjectLabels(ns[..|ns| - 1], l);
    }
  }

  /** The children of a node are floors, then spaces, then rooms. */
  lemma ChildrenOrdered(n: Node)
    ensures ChildrenTree(n).Nodes? ==>
      var cs := ChildrenTree(n).list;
      forall i, j :: 0 <= i < j < |cs| ==> Rank(cs[i].kind) <= Rank(cs[j].kind)
  {
    ProjectLabels(n.floors, Floor);
    ProjectLabels(n.spaces, Space);
    ProjectLabels(n.rooms, Room);
  }
}
