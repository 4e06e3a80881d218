/** The messages the two tools receive and emit, and the calls they make on the editor's collaborators.
    Collaborator calls (shape-editor and overlay operations, snapping cleanup) are recorded in the same
    ordered output as the real responses, so that their order relative to the responses is visible. */
module Messages {
  import opened Basics
  import opened Colors
  import opened Vector

  /** Events understood by the path tool. Number inputs are `f64` in the editor and integers here. */
  datatype PathToolMessage =
    | Abort
    | DocumentIsDirty
    | SelectionChanged
    | Delete
    | DragStart(addToSelection: Key)
    | DragStop(shiftMirrorDistance: Key)
    | Enter(addToSelection: Key)
    | InsertPoint
    | ManipulatorAngleMakeSharp
    | ManipulatorAngleMakeSmooth
    | NudgeSelectedPoints(deltaX: int, deltaY: int)
    | PointerMove(alt: Key, shift: Key)
    | SelectAllPoints
    | SelectedPointUpdated
    | SelectedPointXChanged(newX: int)
    | SelectedPointYChanged(newY: int)

  /** Changes to the freehand tool's options. */
  datatype FreehandOptionsUpdate =
    | FillColor(fillColor: Option<Color>)
    | FillColorType(fillColorType: ToolColorType)
    | LineWeight(lineWeight: real)
    | StrokeColor(strokeColor: Option<Color>)
    | StrokeColorType(strokeColorType: ToolColorType)
    | WorkingColors(primary: Option<Color>, secondary: Option<Color>)

  /** Events understood by the freehand tool. */
  datatype FreehandToolMessage =
    | Abort
    | WorkingColorChanged
    | DragStart
    | DragStop
    | PointerMove
    | UpdateOptions(update: FreehandOptionsUpdate)

  /** A message addressed to some tool; `OtherTool` stands for every tool outside this model. */
  datatype ToolMessage = Path(path: PathToolMessage) | Freehand(freehand: FreehandToolMessage) | OtherTool

  datatype DocumentMessage = StartTransaction | CommitTransaction | AbortTransaction | DeselectAllLayers

  datatype NodeGraphMessage = SelectedNodesAdd(nodes: seq<LayerId>) | SelectedNodesSet(nodes: seq<LayerId>)

  /** A layer's fill; `NoFill` is the editor's `Fill::None`. */
  datatype Fill = NoFill | Solid(color: Color)

  datatype Stroke = Stroke(color: Option<Color>, weight: real)

  datatype GraphOperationMessage =
    /** A new vector layer holding one subpath through `anchors` (randomly generated group ids left out). */
    | NewVectorLayer(id: LayerId, anchors: seq<Vec2>, closed: bool, parent: LayerId)
    | FillSet(layer: LayerId, fill: Fill)
    | StrokeSet(layer: LayerId, stroke: Stroke)
    /** `VectorDataModification::AddEndManipulatorGroup` with an anchor-only group at `anchor`. */
    | AddEndManipulatorGroup(layer: LayerId, subpathIndex: nat, anchor: Vec2)

  /** Calls on the overlay renderer and the rubber-band box overlay. */
  datatype OverlayCall =
    /** Hide every layer's overlay, then render the overlays of the shape editor's selected layers. */
    | RefreshOverlays
    | RenderSubpathOverlays(layer: LayerId)
    | ClearAllOverlays
    | AddBoundingBox
    | UpdateBoundingBox(start: Vec2, end: Vec2, overlay: Option<seq<LayerId>>)
    | RemoveBoundingBox(overlay: Option<seq<LayerId>>)

  /** Calls on the shape editor (`ShapeState`); their effects are not part of this model. */
  datatype ShapeCall =
    | SelectPoint(position: Vec2, extend: bool)
    | SelectAllAnchors(layer: LayerId)
    | ToggleHandleMirroringOnSelected
    | ResetOpposingHandleLengths(lengths: OpposingHandleLengths)
    | MoveSelectedPoints(delta: Vec2, mirrorDistance: bool)
    | SelectAllInQuad(start: Vec2, end: Vec2, replace: bool)
    | DeleteSelectedHandlesWithZeroLength(cachedLengths: Option<OpposingHandleLengths>)
    | DeselectAll
    | DeleteSelectedPoints
    | FlipSharp(position: Vec2)
    | Split(position: Vec2)
    | SelectAllPoints
    | RepositionControlPoint(id: ManipulatorPointId, position: Vec2, layer: LayerId)
    | SetHandleMirroringOnSelected(mirror: bool)
    | SmoothSelectedGroups
    | SetSelectedLayers(layers: seq<LayerId>)

  /** One entry of a tool's ordered output. */
  datatype Message =
    | Document(document: DocumentMessage)
    | NodeGraph(nodeGraph: NodeGraphMessage)
    | GraphOperation(graphOperation: GraphOperationMessage)
    | Tool(tool: ToolMessage)
    /** `send_layout(responses, LayoutTarget::ToolOptions)`. */
    | SendLayout
    | Overlay(overlay: OverlayCall)
    | Shape(shape: ShapeCall)
    /** `snap_manager.cleanup(responses)`. */
    | SnapCleanup

  const Start: Message := Document(StartTransaction)
  const Commit: Message := Document(CommitTransaction)
  const Cancel: Message := Document(AbortTransaction)

  /** How many times `m` occurs in `out`. */
  function Occurrences(out: seq<Message>, m: Message): nat {
    if |out| == 0 then 0
    else Occurrences(out[..|out| - 1], m) + (if out[|out| - 1] == m then 1 else 0)
  }

  lemma {:induction false} OccurrencesAppend(a: seq<Message>, b: seq<Message>, m: Message)
    ensures Occurrences(a + b, m) == Occurrences(a, m) + Occurrences(b, m)
    decreases |b|
  {
    if |b| == 0 {
      assert a + b == a;
    } else {
      assert (a + b)[..|a + b| - 1] == a + b[..|b| - 1];
      assert (a + b)[|a + b| - 1] == b[|b| - 1];
      OccurrencesAppend(a, b[..|b| - 1], m);
    }
  }

  /** An entry absent from an output occurs in it no times, and conversely. */
  lemma {:induction false} OccurrencesAbsent(out: seq<Message>, m: Message)
    ensures Occurrences(out, m) == 0 <==> m !in out
    decreases |out|
  {
    if |out| > 0 {
      OccurrencesAbsent(out[..|out| - 1], m);
      assert out == out[..|out| - 1] + [out[|out| - 1]];
    }
  }

  /** An entry that occurs at one position only occurs once. */
  lemma OccursOnce(before: seq<Message>, m: Message, after: seq<Message>)
    requires m !in before && m !in after
    ensures Occurrences(before + [m] + after, m) == 1
  {
    OccurrencesAppend(before + [m], after, m);
    OccurrencesAppend(before, [m], m);
    OccurrencesAbsent(before, m);
    OccurrencesAbsent(after, m);
    assert [m][..0] == [];
  }

  /** An entry found at exactly one index occurs once. */
  lemma OccursAt(out: seq<Message>, i: nat, m: Message)
    requires i < |out| && out[i] == m
    requires forall j :: 0 <= j < |out| && j != i ==> out[j] != m
    ensures Occurrences(out, m) == 1
  {
    assert out == out[..i] + [m] + out[i + 1..];
    OccursOnce(out[..i], m, out[i + 1..]);
  }

  /** Transactions opened and not yet closed (by commit or abort) in a history of responses. */
  function OpenTransactions(history: seq<Message>): int {
    Occurrences(history, Start) - Occurrences(history, Commit) - Occurrences(history, Cancel)
  }

  /** An output without transaction markers leaves the count unchanged. */
  lemma NoTransactionMarkers(out: seq<Message>)
    requires Start !in out && Commit !in out && Cancel !in out
    ensures OpenTransactions(out) == 0
  {
    OccurrencesAbsent(out, Start);
    OccurrencesAbsent(out, Commit);
    OccurrencesAbsent(out, Cancel);
  }

  lemma OpenTransactionsAppend(a: seq<Message>, b: seq<Message>)
    ensures OpenTransactions(a + b) == OpenTransactions(a) + OpenTransactions(b)
  {
    OccurrencesAppend(a, b, Start);
    OccurrencesAppend(a, b, Commit);
    OccurrencesAppend(a, b, Cancel);
  }

  /** Whether an entry asks the shape editor to move the selected points. */
  predicate IsMove(m: Message) {
    m.Shape? && m.shape.MoveSelectedPoints?
  }

  /** Total displacement the selected points are asked to travel by an output. */
  function MoveDeltaSum(out: seq<Message>): Vec2 {
    if |out| == 0 then Origin
    else
      var last := out[|out| - 1];
      MoveDeltaSum(out[..|out| - 1]).Plus(if IsMove(last) then last.shape.delta else Origin)
  }

  lemma {:induction false} MoveDeltaSumAppend(a: seq<Message>, b: seq<Message>)
    ensures MoveDeltaSum(a + b) == MoveDeltaSum(a).Plus(MoveDeltaSum(b))
    decreases |b|
  {
    if |b| == 0 {
      assert a + b == a;
    } else {
      assert (a + b)[..|a + b| - 1] == a + b[..|b| - 1];
      assert (a + b)[|a + b| - 1] == b[|b| - 1];
      MoveDeltaSumAppend(a, b[..|b| - 1]);
    }
  }

  /** An output of a single move asks for exactly that move's displacement. */
  lemma MoveDeltaSumSingle(move: Message)
    requires IsMove(move)
    ensures MoveDeltaSum([move]) == move.shape.delta
  {
    assert [move][..0] == [];
    OriginIsNeutral(move.shape.delta);
  }

  /** An output of one non-move entry followed by a move asks for exactly that move's displacement. */
  lemma MoveDeltaSumAfterOther(other: Message, move: Message)
    requires !IsMove(other) && IsMove(move)
    ensures MoveDeltaSum([other, move]) == move.shape.delta
  {
    assert [other, move][..1] == [other];
    assert [other][..0] == [];
    assert MoveDeltaSum([other]) == Origin;
  }

  /** An output with no move entry asks for no displacement. */
  lemma {:induction false} MoveDeltaSumNoMoves(out: seq<Message>)
    requires forall i :: 0 <= i < |out| ==> !IsMove(out[i])
    ensures MoveDeltaSum(out) == Origin
  {
    if |out| > 0 {
      MoveDeltaSumNoMoves(out[..|out| - 1]);
    }
  }
}
