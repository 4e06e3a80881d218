/** The path tool's selection status: a classification of the shape editor's selected points as none,
    exactly one (with a snapshot of that point) or several, and how the tool options display it. */
module Selection {
  import opened Basics
  import opened Vector

  /** Smooth: the group's handles are mirrored; Sharp: they are not; Mixed: both occur in a selection. */
  datatype ManipulatorAngle = Smooth | Sharp | Mixed

  datatype SingleSelectedPoint = SingleSelectedPoint(
    coordinates: Vec2,
    id: ManipulatorPointId,
    layer: LayerId,
    manipulatorAngle: ManipulatorAngle)

  datatype SelectionStatus = None | One(one: SingleSelectedPoint) | Multiple(angle: ManipulatorAngle)

  /** One entry of the shape editor's selected-shape state: a layer and its selected points. */
  datatype LayerSelection = LayerSelection(layer: LayerId, points: seq<ManipulatorPointId>)

  /** The selected-shape state, in the order its map and sets are iterated. */
  type ShapeSelection = seq<LayerSelection>

  /** What the selection status reads from the document: each layer's subpaths and mirrored groups
      (a missing entry is a failed lookup) and each layer's transform to document space. */
  datatype DocumentView = DocumentView(
    subpaths: map<LayerId, seq<Subpath>>,
    mirrorHandles: map<LayerId, set<GroupId>>,
    transformToDocument: (LayerId, Vec2) -> Vec2)

  /** Sum of the per-layer selected point counts. */
  function TotalSelected(sel: ShapeSelection): nat {
    if |sel| == 0 then 0 else |sel[0].points| + TotalSelected(sel[1..])
  }

  /** All selected points, layer after layer (`selected_points()`). */
  function SelectedPoints(sel: ShapeSelection): seq<ManipulatorPointId> {
    if |sel| == 0 then [] else sel[0].points + SelectedPoints(sel[1..])
  }

  /** The first layer with at least one selected point. */
  function FirstSelectedLayer(sel: ShapeSelection): Option<LayerId> {
    if |sel| == 0 then Option.None
    else if |sel[0].points| > 0 then Some(sel[0].layer)
    else FirstSelectedLayer(sel[1..])
  }

  /** Classifies the selection. `multipleAngle` is the shape editor's aggregate angle of the selected
      groups (`selected_manipulator_angles`), which is used only for a multiple selection. */
  function GetSelectionStatus(doc: DocumentView, sel: ShapeSelection, multipleAngle: ManipulatorAngle): (r: SelectionStatus)
    ensures TotalSelected(sel) == 0 ==> r.None?
    ensures r.Multiple? <==> TotalSelected(sel) > 1
    ensures r.Multiple? ==> r.angle == multipleAngle
    ensures r.One? ==> TotalSelected(sel) == 1 && r.one.id in SelectedPoints(sel)
    ensures r.One? ==> r.one.layer in doc.mirrorHandles
                       && (r.one.manipulatorAngle == Smooth <==> r.one.id.group in doc.mirrorHandles[r.one.layer])
                       && (r.one.manipulatorAngle == Sharp <==> r.one.id.group !in doc.mirrorHandles[r.one.layer])
  {
    var total := TotalSelected(sel);
    if total == 1 then
      match FirstSelectedLayer(sel)
      case None => SelectionStatus.None
      case Some(layer) =>
        if layer !in doc.subpaths || layer !in doc.mirrorHandles then SelectionStatus.None
        else
          var points := SelectedPoints(sel);
          if |points| == 0 then SelectionStatus.None
          else
            var point := points[0];
            match FindGroup(doc.subpaths[layer], point.group)
            case None => SelectionStatus.None
            case Some(group) =>
              match GetPosition(point.manipulatorType, group)
              case None => SelectionStatus.None
              case Some(localPosition) =>
                var angle := if point.group in doc.mirrorHandles[layer] then Smooth else Sharp;
                One(SingleSelectedPoint(doc.transformToDocument(layer, localPosition), point, layer, angle))
    else if total > 1 then Multiple(multipleAngle)
    else SelectionStatus.None
  }

  /** `p` in `layer` is the one and only selected point. */
  ghost predicate SoleSelection(sel: ShapeSelection, layer: LayerId, p: ManipulatorPointId) {
    TotalSelected(sel) == 1 && exists i :: 0 <= i < |sel| && sel[i].layer == layer && p in sel[i].points
  }

  /** Every document lookup for point `p` of `layer` succeeds. */
  predicate Resolves(doc: DocumentView, layer: LayerId, p: ManipulatorPointId) {
    && layer in doc.subpaths
    && layer in doc.mirrorHandles
    && FindGroup(doc.subpaths[layer], p.group).Some?
    && GetPosition(p.manipulatorType, FindGroup(doc.subpaths[layer], p.group).value).Some?
  }

  lemma {:induction false} SelectedPointsCount(sel: ShapeSelection)
    ensures |SelectedPoints(sel)| == TotalSelected(sel)
  {
    if |sel| > 0 {
      SelectedPointsCount(sel[1..]);
    }
  }

  lemma {:induction false} TotalAtLeastEntry(sel: ShapeSelection, i: nat)
    requires i < |sel|
    ensures TotalSelected(sel) >= |sel[i].points|
  {
    if i > 0 {
      TotalAtLeastEntry(sel[1..], i - 1);
    }
  }

  /** With exactly one selected point, the first non-empty layer is that point's layer and the
      flattened selection is that point alone. */
  lemma {:induction false} SoleEntry(sel: ShapeSelection, i: nat)
    requires TotalSelected(sel) == 1
    requires i < |sel| && |sel[i].points| > 0
    ensures FirstSelectedLayer(sel) == Some(sel[i].layer)
    ensures SelectedPoints(sel) == sel[i].points
    ensures |sel[i].points| == 1
  {
    if i == 0 {
      SelectedPointsCount(sel[1..]);
    } else {
      TotalAtLeastEntry(sel[1..], i - 1);
      assert |sel[0].points| == 0;
      SoleEntry(sel[1..], i - 1);
    }
  }

  /** Some point is the sole selection exactly when one point is selected in total. */
  lemma SoleSelectionExists(sel: ShapeSelection)
    ensures TotalSelected(sel) == 1 <==> exists layer, p :: SoleSelection(sel, layer, p)
  {
    if TotalSelected(sel) == 1 {
      SelectedPointsCount(sel);
      var p := SelectedPoints(sel)[0];
      var i := EntryOf(sel, p);
      assert SoleSelection(sel, sel[i].layer, p);
    }
  }

  /** The entry of the selection that holds a selected point. */
  lemma {:induction false} EntryOf(sel: ShapeSelection, p: ManipulatorPointId) returns (i: nat)
    requires p in SelectedPoints(sel)
    ensures i < |sel| && p in sel[i].points
  {
    if p in sel[0].points {
      i := 0;
    } else {
      var j := EntryOf(sel[1..], p);
      i := j + 1;
    }
  }

  /** With a sole selected point, the status is `One` exactly when the document lookups succeed, and
      then it describes that point: its layer, its id, its position mapped to document space, and
      Smooth exactly when its group is mirrored. Otherwise it degrades to `None`. */
  lemma SingleSelectionStatus(doc: DocumentView, sel: ShapeSelection, multipleAngle: ManipulatorAngle,
                              layer: LayerId, p: ManipulatorPointId)
    requires SoleSelection(sel, layer, p)
    ensures var st := GetSelectionStatus(doc, sel, multipleAngle);
      && (st.One? <==> Resolves(doc, layer, p))
      && (!Resolves(doc, layer, p) ==> st.None?)
      && (st.One? ==>
            && st.one.id == p
            && st.one.layer == layer
            && st.one.coordinates == doc.transformToDocument(layer,
                 GetPosition(p.manipulatorType, FindGroup(doc.subpaths[layer], p.group).value).value)
            && st.one.manipulatorAngle == (if p.group in doc.mirrorHandles[layer] then Smooth else Sharp))
  {
    var i :| 0 <= i < |sel| && sel[i].layer == layer && p in sel[i].points;
    SoleEntry(sel, i);
  }

  /** The angle the tool options display: the multiple selection's, else the single point's. */
  function DisplayedAngle(st: SelectionStatus): (r: Option<ManipulatorAngle>)
    ensures r.None? <==> st.None?
    ensures st.Multiple? ==> r == Some(st.angle)
    ensures st.One? ==> r == Some(st.one.manipulatorAngle)
  {
    match st
    case Multiple(angle) => Some(angle)
    case One(point) => Some(point.manipulatorAngle)
    case None => Option.None
  }

  /** Index of the Smooth/Sharp radio entry to highlight; a Mixed angle highlights neither. */
  function AngleRadioIndex(angle: Option<ManipulatorAngle>): (r: Option<nat>)
    ensures r.Some? <==> angle.Some? && angle.value != Mixed
    ensures r == Some(0) <==> angle == Some(Smooth)
    ensures r == Some(1) <==> angle == Some(Sharp)
  {
    match angle
    case Some(Smooth) => Some(0)
    case Some(Sharp) => Some(1)
    case Some(Mixed) => Option.None
    case None => Option.None
  }

  /** The coordinates the X/Y fields show; both fields are disabled unless exactly one point is shown. */
  function ShownCoordinates(st: SelectionStatus): (r: Option<Vec2>)
    ensures r.Some? <==> st.One?
    ensures st.One? ==> r.value == st.one.coordinates
  {
    match st
    case One(point) => Some(point.coordinates)
    case _ => Option.None
  }

  /** A status computed for a single point always highlights one of the two radio entries, the
      Smooth entry exactly when its group is mirrored. */
  lemma {:induction false} SinglePointHighlightsRadio(doc: DocumentView, sel: ShapeSelection, multipleAngle: ManipulatorAngle)
    ensures var st := GetSelectionStatus(doc, sel, multipleAngle);
      st.One? ==>
        && AngleRadioIndex(DisplayedAngle(st)).Some?
        && (AngleRadioIndex(DisplayedAngle(st)) == Some(0) <==> st.one.id.group in doc.mirrorHandles[st.one.layer])
  {
  }
}
