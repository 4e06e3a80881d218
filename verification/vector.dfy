/** Manipulator points, groups and subpaths: the vector data the path tool edits. */
module Vector {
  import opened Basics

  /** The three kinds of point in a manipulator group. */
  datatype SelectedType = Anchor | InHandle | OutHandle

  /** Identity of a point: its group and its kind. */
  datatype ManipulatorPointId = ManipulatorPointId(group: GroupId, manipulatorType: SelectedType)

  /** An anchor with its two optional tangent handles. */
  datatype ManipulatorGroup = ManipulatorGroup(id: GroupId, anchor: Vec2, inHandle: Option<Vec2>, outHandle: Option<Vec2>)

  datatype Subpath = Subpath(groups: seq<ManipulatorGroup>, closed: bool)

  /** A selected point together with the layer it belongs to. */
  datatype ManipulatorPointInfo = ManipulatorPointInfo(layer: LayerId, pointId: ManipulatorPointId)

  /** What a point hit test returns: the points hit and the offset from the cursor to the grabbed point. */
  datatype SelectedPointsInfo = SelectedPointsInfo(points: seq<ManipulatorPointInfo>, offset: Vec2)

  /** Snapshot of the selected groups' opposing handle lengths; the model never looks inside it. */
  datatype OpposingHandleLengths = OpposingHandleLengths(snapshot: nat)

  /** The position of one kind of point in a group; handles may be absent. */
  function GetPosition(kind: SelectedType, group: ManipulatorGroup): (r: Option<Vec2>)
    ensures kind == Anchor ==> r == Some(group.anchor)
  {
    match kind
    case Anchor => Some(group.anchor)
    case InHandle => group.inHandle
    case OutHandle => group.outHandle
  }

  /** All groups of a list of subpaths, in order. */
  function AllGroups(subpaths: seq<Subpath>): seq<ManipulatorGroup> {
    if |subpaths| == 0 then [] else AllGroups(subpaths[..|subpaths| - 1]) + subpaths[|subpaths| - 1].groups
  }

  /** The first group with the given id in a list of groups. */
  function FindGroupIn(groups: seq<ManipulatorGroup>, id: GroupId): (r: Option<ManipulatorGroup>)
    ensures r.Some? ==> r.value in groups && r.value.id == id
    ensures r.None? <==> forall i :: 0 <= i < |groups| ==> groups[i].id != id
    ensures r.Some? ==> exists i :: 0 <= i < |groups| && groups[i] == r.value
                                   && forall j :: 0 <= j < i ==> groups[j].id != id
  {
    if |groups| == 0 then None
    else if groups[0].id == id then Some(groups[0])
    else
      var rest := FindGroupIn(groups[1..], id);
      if rest.Some? then
        assert forall j :: 1 <= j < |groups| ==> groups[j] == groups[1..][j - 1];
        rest
      else rest
  }

  /** Looks a group up by id across a layer's subpaths (`get_manipulator_from_id`). */
  function FindGroup(subpaths: seq<Subpath>, id: GroupId): (r: Option<ManipulatorGroup>)
    ensures r.Some? ==> r.value in AllGroups(subpaths) && r.value.id == id
    ensures r.None? <==> forall g :: g in AllGroups(subpaths) ==> g.id != id
  {
    FindGroupIn(AllGroups(subpaths), id)
  }

  /** The two handles of each anchor in `points`, in order. */
  function AnchorHandles(points: seq<ManipulatorPointInfo>): seq<ManipulatorPointInfo> {
    if |points| == 0 then []
    else
      var p := points[|points| - 1];
      AnchorHandles(points[..|points| - 1])
      + (if p.pointId.manipulatorType == Anchor
         then [ManipulatorPointInfo(p.layer, ManipulatorPointId(p.pointId.group, InHandle)),
               ManipulatorPointInfo(p.layer, ManipulatorPointId(p.pointId.group, OutHandle))]
         else [])
  }

  /** A point list extended with both handles of every anchor in it. */
  function WithAnchorHandles(points: seq<ManipulatorPointInfo>): seq<ManipulatorPointInfo> {
    points + AnchorHandles(points)
  }

  /** Number of anchors in a point list. */
  function AnchorCount(points: seq<ManipulatorPointInfo>): nat {
    if |points| == 0 then 0
    else AnchorCount(points[..|points| - 1]) + (if points[|points| - 1].pointId.manipulatorType == Anchor then 1 else 0)
  }

  /** What the extension adds: exactly two handles per anchor, each a handle of some anchor in the list. */
  lemma {:induction false} AnchorHandlesShape(points: seq<ManipulatorPointInfo>)
    ensures |AnchorHandles(points)| == 2 * AnchorCount(points)
    ensures forall q :: q in AnchorHandles(points) ==>
              q.pointId.manipulatorType != Anchor
              && ManipulatorPointInfo(q.layer, ManipulatorPointId(q.pointId.group, Anchor)) in points
    ensures forall p :: p in points && p.pointId.manipulatorType == Anchor ==>
              ManipulatorPointInfo(p.layer, ManipulatorPointId(p.pointId.group, InHandle)) in AnchorHandles(points)
              && ManipulatorPointInfo(p.layer, ManipulatorPointId(p.pointId.group, OutHandle)) in AnchorHandles(points)
  {
    if |points| > 0 {
      var init := points[..|points| - 1];
      AnchorHandlesShape(init);
      assert points == init + [points[|points| - 1]];
    }
  }

  /** The extended list keeps the original points first; every anchor in it was already there, and
      every anchor brings both of its handles. */
  lemma WithAnchorHandlesShape(points: seq<ManipulatorPointInfo>)
    ensures WithAnchorHandles(points)[..|points|] == points
    ensures |WithAnchorHandles(points)| == |points| + 2 * AnchorCount(points)
    ensures forall q :: q in WithAnchorHandles(points) && q.pointId.manipulatorType == Anchor ==> q in points
    ensures forall p :: p in points && p.pointId.manipulatorType == Anchor ==>
              ManipulatorPointInfo(p.layer, ManipulatorPointId(p.pointId.group, InHandle)) in WithAnchorHandles(points)
              && ManipulatorPointInfo(p.layer, ManipulatorPointId(p.pointId.group, OutHandle)) in WithAnchorHandles(points)
  {
    AnchorHandlesShape(points);
  }
}
