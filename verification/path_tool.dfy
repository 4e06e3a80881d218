/** The path tool's finite-state machine. A transition turns (state, tool data, event, context) into a
    next state, updated tool data and an ordered list of responses and collaborator calls. */
module PathTool {
  import opened Basics
  import opened Vector
  import opened Messages
  import opened Selection
  import opened Fsm

  datatype PathToolFsmState = Ready | Dragging | DrawingBox

  /** The tool's own data between events. The snap manager holds nothing the model needs. */
  datatype PathToolData = PathToolData(
    dragStartPos: Vec2,
    previousMousePosition: Vec2,
    altDebounce: bool,
    opposingHandleLengths: Option<OpposingHandleLengths>,
    dragBoxOverlayLayer: Option<seq<LayerId>>,
    selectionStatus: SelectionStatus)

  const DefaultData: PathToolData := PathToolData(Origin, Origin, false, Option.None, Option.None, SelectionStatus.None)

  /** What one transition reads from the editor: the pointer, the keyboard, and each collaborator's answer
      at the moment the tool asks it. Hit tests and snapping take a position; `withinDragThreshold(a, b)`
      stands for `a.distance(b) <= DRAG_THRESHOLD`. */
  datatype PathContext = PathContext(
    mouse: Vec2,
    keyboard: set<Key>,
    selectPoint: (Vec2, bool) -> Option<SelectedPointsInfo>,
    click: Vec2 -> Option<LayerId>,
    nearestPoint: Vec2 -> Option<ManipulatorPointId>,
    snapPosition: Vec2 -> Vec2,
    withinDragThreshold: (Vec2, Vec2) -> bool,
    flipSharp: Vec2 -> bool,
    newBoxOverlay: seq<LayerId>,
    currentHandleLengths: OpposingHandleLengths,
    documentSelectedLayers: seq<LayerId>,
    selection: ShapeSelection,
    document: DocumentView,
    selectedManipulatorAngles: ManipulatorAngle)

  type PathStep = Fsm.Step<PathToolFsmState, PathToolData, Message>

  /** `refresh_overlays`: redraw the overlays and forget the cached handle lengths. */
  function RefreshOverlays(d: PathToolData): (r: (PathToolData, seq<Message>))
    ensures r.0 == d.(opposingHandleLengths := Option.None)
    ensures r.1 == [Overlay(OverlayCall.RefreshOverlays)]
  {
    (d.(opposingHandleLengths := Option.None), [Overlay(OverlayCall.RefreshOverlays)])
  }

  /** `mouse_down`: a point hit starts dragging the point inside a new transaction; otherwise a shape hit
      selects that layer and starts dragging it without a transaction; otherwise a rubber-band box starts.
      Every branch forgets the cached handle lengths. */
  function MouseDown(shift: bool, d: PathToolData, ctx: PathContext): (r: PathStep)
    ensures |r.responses| > 0 && r.responses[0] == Shape(SelectPoint(ctx.mouse, shift))
    ensures r.data.opposingHandleLengths.None? && r.data.dragStartPos == ctx.mouse
    ensures r.data.altDebounce == d.altDebounce && r.data.selectionStatus == d.selectionStatus
    ensures Commit !in r.responses && Cancel !in r.responses
    ensures MoveDeltaSum(r.responses) == Origin
    ensures ctx.selectPoint(ctx.mouse, shift).Some? ==>
              && r.state == Dragging
              && Start in r.responses
              && r.data.previousMousePosition == ctx.mouse.Minus(ctx.selectPoint(ctx.mouse, shift).value.offset)
              && r.data.dragBoxOverlayLayer == d.dragBoxOverlayLayer
    ensures ctx.selectPoint(ctx.mouse, shift).None? && ctx.click(ctx.mouse).Some? ==>
              var layer := ctx.click(ctx.mouse).value;
              && r.state == Dragging
              && Start !in r.responses
              && (NodeGraph(SelectedNodesAdd([layer])) in r.responses <==> shift)
              && (NodeGraph(SelectedNodesSet([layer])) in r.responses <==> !shift)
              && Shape(SelectAllAnchors(layer)) in r.responses
              && r.data.previousMousePosition == ctx.mouse
              && r.data.dragBoxOverlayLayer == d.dragBoxOverlayLayer
    ensures ctx.selectPoint(ctx.mouse, shift).None? && ctx.click(ctx.mouse).None? ==>
              && r.state == DrawingBox
              && Start !in r.responses
              && Overlay(AddBoundingBox) in r.responses
              && r.data.previousMousePosition == ctx.mouse
              && r.data.dragBoxOverlayLayer == Some(ctx.newBoxOverlay)
  {
    var d0 := d.(opposingHandleLengths := Option.None, dragStartPos := ctx.mouse);
    var call := Shape(SelectPoint(ctx.mouse, shift));
    match ctx.selectPoint(ctx.mouse, shift)
    case Some(selected) =>
      var out := [call, Start, Overlay(OverlayCall.RefreshOverlays)];
      MoveDeltaSumNoMoves(out);
      Step(Dragging, d0.(previousMousePosition := ctx.mouse.Minus(selected.offset)), out)
    case None =>
      match ctx.click(ctx.mouse)
      case Some(layer) =>
        var select := if shift then SelectedNodesAdd([layer]) else SelectedNodesSet([layer]);
        var out := [call, NodeGraph(select), Shape(SelectAllAnchors(layer))];
        assert out[1] == NodeGraph(select);
        assert NodeGraph(SelectedNodesAdd([layer])) in out <==> shift;
        assert NodeGraph(SelectedNodesSet([layer])) in out <==> !shift;
        MoveDeltaSumNoMoves(out);
        Step(Dragging, d0.(previousMousePosition := ctx.mouse), out)
      case None =>
        var out := [call, Overlay(AddBoundingBox)];
        MoveDeltaSumNoMoves(out);
        Step(DrawingBox, d0.(previousMousePosition := ctx.mouse, dragBoxOverlayLayer := Some(ctx.newBoxOverlay)), out)
  }

  /** Whether `drag` toggles mirroring: the Alt key is down now and was not at the previous move. */
  predicate AltRisingEdge(alt: bool, d: PathToolData) {
    alt && !d.altDebounce
  }

  /** `drag`: toggle mirroring on Alt's rising edge, keep or restore the opposing handle lengths
      depending on Shift, then move the selected points by the snapped displacement. */
  function Drag(shift: bool, alt: bool, d: PathToolData, ctx: PathContext): (r: PathStep)
    ensures r.state == Dragging
    ensures r.data.altDebounce == alt
    // Holding Shift keeps a cache, computed only when there was none to keep.
    ensures shift ==> r.data.opposingHandleLengths.Some?
    ensures shift && !AltRisingEdge(alt, d) && d.opposingHandleLengths.Some? ==>
              r.data.opposingHandleLengths == d.opposingHandleLengths
    ensures shift && (AltRisingEdge(alt, d) || d.opposingHandleLengths.None?) ==>
              r.data.opposingHandleLengths == Some(ctx.currentHandleLengths)
    // Releasing Shift restores the cached lengths, if a cache survived the toggle, and drops the cache.
    ensures !shift ==> r.data.opposingHandleLengths.None?
    // The points follow the snapped pointer.
    ensures r.data.previousMousePosition == ctx.snapPosition(ctx.mouse)
    ensures |r.responses| > 0
    ensures r.responses[|r.responses| - 1] ==
              Shape(MoveSelectedPoints(ctx.snapPosition(ctx.mouse).Minus(d.previousMousePosition), shift))
    ensures MoveDeltaSum(r.responses) == ctx.snapPosition(ctx.mouse).Minus(d.previousMousePosition)
    ensures Start !in r.responses && Commit !in r.responses && Cancel !in r.responses
    ensures r.data.dragStartPos == d.dragStartPos && r.data.dragBoxOverlayLayer == d.dragBoxOverlayLayer
    ensures r.data.selectionStatus == d.selectionStatus
  {
    var toggled := AltRisingEdge(alt, d);
    var cache := if toggled then Option.None else d.opposingHandleLengths;
    var snapped := ctx.snapPosition(ctx.mouse);
    var move := Shape(MoveSelectedPoints(snapped.Minus(d.previousMousePosition), shift));
    var d1 := d.(altDebounce := alt, previousMousePosition := snapped);
    if shift then
      var kept := if cache.None? then Some(ctx.currentHandleLengths) else cache;
      if toggled then
        MoveDeltaSumAfterOther(Shape(ToggleHandleMirroringOnSelected), move);
        Step(Dragging, d1.(opposingHandleLengths := kept), [Shape(ToggleHandleMirroringOnSelected), move])
      else
        MoveDeltaSumSingle(move);
        Step(Dragging, d1.(opposingHandleLengths := kept), [move])
    else
      if toggled then
        MoveDeltaSumAfterOther(Shape(ToggleHandleMirroringOnSelected), move);
        Step(Dragging, d1.(opposingHandleLengths := Option.None), [Shape(ToggleHandleMirroringOnSelected), move])
      else if cache.Some? then
        var reset := Shape(ResetOpposingHandleLengths(cache.value));
        MoveDeltaSumAfterOther(reset, move);
        Step(Dragging, d1.(opposingHandleLengths := Option.None), [reset, move])
      else
        MoveDeltaSumSingle(move);
        Step(Dragging, d1.(opposingHandleLengths := Option.None), [move])
  }

  /** Releasing the rubber-band box (`DragStop`, or `Enter`, in `DrawingBox`). A box with no extent clears
      the layer selection; otherwise the points inside it are selected, replacing the selection unless
      Shift is held. The box overlay is removed either way. */
  function ReleaseBox(shift: bool, isDragStop: bool, d: PathToolData): (r: PathStep)
    ensures r.state == Ready
    ensures r.data.dragBoxOverlayLayer.None?
    ensures Overlay(RemoveBoundingBox(d.dragBoxOverlayLayer)) in r.responses
    ensures (NodeGraph(SelectedNodesSet([])) in r.responses) <==> d.dragStartPos == d.previousMousePosition
    ensures d.dragStartPos == d.previousMousePosition ==>
              forall i :: 0 <= i < |r.responses| ==> !r.responses[i].Shape?
    ensures d.dragStartPos != d.previousMousePosition ==>
              && r.responses[0] == Shape(SelectAllInQuad(d.dragStartPos, d.previousMousePosition, !shift))
              && r.data.opposingHandleLengths.None?
    ensures d.dragStartPos == d.previousMousePosition ==> r.data.opposingHandleLengths == d.opposingHandleLengths
    ensures (Tool(Path(SelectedPointUpdated)) in r.responses) <==> isDragStop
    ensures Start !in r.responses && Commit !in r.responses && Cancel !in r.responses
    ensures r.data.dragStartPos == d.dragStartPos && r.data.previousMousePosition == d.previousMousePosition
    ensures r.data.altDebounce == d.altDebounce && r.data.selectionStatus == d.selectionStatus
  {
    var remove := Overlay(RemoveBoundingBox(d.dragBoxOverlayLayer));
    var update := if isDragStop then [Tool(Path(SelectedPointUpdated))] else [];
    if d.dragStartPos == d.previousMousePosition then
      Step(Ready, d.(dragBoxOverlayLayer := Option.None), [NodeGraph(SelectedNodesSet([])), remove] + update)
    else
      var select := Shape(SelectAllInQuad(d.dragStartPos, d.previousMousePosition, !shift));
      var (d1, refresh) := RefreshOverlays(d);
      var out := [select] + refresh + [remove] + update;
      Step(Ready, d1.(dragBoxOverlayLayer := Option.None), out)
  }

  /** Whether the point nearest the release position is one of the selected points. */
  predicate ClickedSelected(ctx: PathContext) {
    ctx.nearestPoint(ctx.mouse).Some? && ctx.nearestPoint(ctx.mouse).value in SelectedPoints(ctx.selection)
  }

  /** Whether a `DragStop` outside the box state isolates the clicked point: the pointer stayed within the
      drag threshold, Shift is not held, and the point under it was already selected. */
  predicate IsolatesClickedPoint(shift: bool, d: PathToolData, ctx: PathContext) {
    ctx.withinDragThreshold(d.dragStartPos, ctx.mouse) && !shift && ClickedSelected(ctx)
  }

  /** Releasing a point or shape drag (`DragStop` outside `DrawingBox`). */
  function ReleaseDrag(shift: bool, d: PathToolData, ctx: PathContext): (r: PathStep)
    ensures r.state == Ready
    ensures |r.responses| >= 3
    ensures r.responses[0] == Shape(DeleteSelectedHandlesWithZeroLength(d.opposingHandleLengths))
    ensures r.responses[|r.responses| - 2] == Tool(Path(SelectedPointUpdated)) && r.responses[|r.responses| - 1] == SnapCleanup
    ensures (Shape(DeselectAll) in r.responses) <==> IsolatesClickedPoint(shift, d, ctx)
    ensures IsolatesClickedPoint(shift, d, ctx) ==>
              r.responses[1] == Shape(DeselectAll) && r.responses[2] == Shape(SelectPoint(ctx.mouse, false))
    ensures !IsolatesClickedPoint(shift, d, ctx) ==>
              forall i :: 0 < i < |r.responses| ==> !r.responses[i].Shape?
    ensures r.data == (if IsolatesClickedPoint(shift, d, ctx) then d.(opposingHandleLengths := Option.None) else d)
    ensures Start !in r.responses && Commit !in r.responses && Cancel !in r.responses
    ensures MoveDeltaSum(r.responses) == Origin
  {
    var cleanup := Shape(DeleteSelectedHandlesWithZeroLength(d.opposingHandleLengths));
    if IsolatesClickedPoint(shift, d, ctx) then
      var out := [cleanup, Shape(DeselectAll), Shape(SelectPoint(ctx.mouse, false)), Overlay(OverlayCall.RefreshOverlays),
                  Tool(Path(SelectedPointUpdated)), SnapCleanup];
      MoveDeltaSumNoMoves(out);
      Step(Ready, d.(opposingHandleLengths := Option.None), out)
    else
      var out := [cleanup, Tool(Path(SelectedPointUpdated)), SnapCleanup];
      assert Shape(DeselectAll) !in out;
      MoveDeltaSumNoMoves(out);
      Step(Ready, d, out)
  }

  /** `SelectedPointXChanged` / `SelectedPointYChanged`: with exactly one point selected, move it to the
      given coordinate on the changed axis, keeping the other axis. */
  function RepositionSelected(newX: Option<int>, newY: Option<int>, d: PathToolData): (r: PathStep)
    requires newX.Some? != newY.Some?
    ensures r.state == Ready && r.data == d
    ensures Start !in r.responses && Commit !in r.responses && Cancel !in r.responses
    ensures !d.selectionStatus.One? ==> r.responses == []
    ensures d.selectionStatus.One? ==>
              var p := d.selectionStatus.one;
              && |r.responses| == 1
              && r.responses[0].Shape? && r.responses[0].shape.RepositionControlPoint?
              && r.responses[0].shape.id == p.id && r.responses[0].shape.layer == p.layer
              && (newX.Some? ==> r.responses[0].shape.position == Vec2(newX.value, p.coordinates.y))
              && (newY.Some? ==> r.responses[0].shape.position == Vec2(p.coordinates.x, newY.value))
  {
    match d.selectionStatus
    case One(p) =>
      var target := if newX.Some? then Vec2(newX.value, p.coordinates.y) else Vec2(p.coordinates.x, newY.value);
      Step(Ready, d, [Shape(RepositionControlPoint(p.id, target, p.layer))])
    case _ => Step(Ready, d, [])
  }

  /** `ManipulatorAngleMakeSmooth` / `ManipulatorAngleMakeSharp`: one transaction around the change. */
  function SetAngle(smooth: bool, d: PathToolData): (r: PathStep)
    ensures r.state == Ready && r.data == d
    ensures Cancel !in r.responses
    ensures |r.responses| >= 2 && r.responses[0] == Start && r.responses[|r.responses| - 1] == Commit
    ensures Start !in r.responses[1..] && Commit !in r.responses[..|r.responses| - 1]
    ensures Shape(SetHandleMirroringOnSelected(smooth)) in r.responses
    ensures Shape(SetHandleMirroringOnSelected(!smooth)) !in r.responses
    ensures (Shape(SmoothSelectedGroups) in r.responses) <==> smooth
  {
    var body := [Shape(SetHandleMirroringOnSelected(smooth))] + (if smooth then [Shape(SmoothSelectedGroups)] else []);
    assert Start !in body && Commit !in body;
    Step(Ready, d, [Start] + body + [Commit])
  }

  /** `InsertPoint`: flip the sharpness of the point under the cursor, or split the path there. */
  function InsertPoint(s: PathToolFsmState, d: PathToolData, ctx: PathContext): (r: PathStep)
    ensures r.state == s && r.data == d
    ensures |r.responses| >= 2 && r.responses[0] == Shape(FlipSharp(ctx.mouse))
    ensures (Shape(Split(ctx.mouse)) in r.responses) <==> !ctx.flipSharp(ctx.mouse)
    ensures r.responses[|r.responses| - 1] == Tool(Path(SelectedPointUpdated))
    ensures Start !in r.responses && Commit !in r.responses && Cancel !in r.responses
  {
    var split := if ctx.flipSharp(ctx.mouse) then [] else [Shape(Split(ctx.mouse))];
    Step(s, d, [Shape(FlipSharp(ctx.mouse))] + split + [Tool(Path(SelectedPointUpdated))])
  }

  /** One overlay render request per layer. */
  function RenderEach(layers: seq<LayerId>): (r: seq<Message>)
    ensures |r| == |layers|
    ensures forall i :: 0 <= i < |layers| ==> r[i] == Overlay(RenderSubpathOverlays(layers[i]))
    ensures forall m :: m in r ==> m.Overlay?
  {
    if |layers| == 0 then [] else [Overlay(RenderSubpathOverlays(layers[0]))] + RenderEach(layers[1..])
  }

  /** The path tool's events, by the arm of the transition that handles them. */
  function PathTransition(s: PathToolFsmState, m: PathToolMessage, d: PathToolData, ctx: PathContext): PathStep {
    match m
    case SelectionChanged =>
      var (d1, refresh) := RefreshOverlays(d);
      Step(s, d1, [Shape(SetSelectedLayers(ctx.documentSelectedLayers))] + refresh + [Tool(Path(SelectedPointUpdated))])
    case DocumentIsDirty =>
      Step(s, d, RenderEach(ctx.documentSelectedLayers) + [Tool(Path(SelectedPointUpdated))])
    case DragStart(key) =>
      MouseDown(key in ctx.keyboard, d, ctx)
    case PointerMove(alt, shift) =>
      if s == DrawingBox then
        Step(DrawingBox, d.(previousMousePosition := ctx.mouse),
                 [Overlay(UpdateBoundingBox(d.dragStartPos, ctx.mouse, d.dragBoxOverlayLayer))])
      else if s == Dragging then
        Drag(shift in ctx.keyboard, alt in ctx.keyboard, d, ctx)
      else Step(s, d, [])
    case Enter(key) =>
      if s == DrawingBox then ReleaseBox(key in ctx.keyboard, false, d) else Step(Ready, d, [])
    case DragStop(key) =>
      if s == DrawingBox then ReleaseBox(key in ctx.keyboard, true, d) else ReleaseDrag(key in ctx.keyboard, d, ctx)
    case Delete =>
      Step(Ready, d, [Start, Shape(DeleteSelectedPoints), Tool(Path(PathToolMessage.SelectionChanged))])
    case InsertPoint =>
      InsertPoint(s, d, ctx)
    case Abort =>
      Step(Ready, d.(dragBoxOverlayLayer := Option.None),
               [Overlay(ClearAllOverlays), Overlay(RemoveBoundingBox(d.dragBoxOverlayLayer))])
    case NudgeSelectedPoints(dx, dy) =>
      Step(Ready, d, [Shape(MoveSelectedPoints(Vec2(dx, dy), true))])
    case SelectAllPoints =>
      var (d1, refresh) := RefreshOverlays(d);
      Step(Ready, d1, [Shape(ShapeCall.SelectAllPoints)] + refresh)
    case SelectedPointXChanged(x) =>
      RepositionSelected(Some(x), Option.None, d)
    case SelectedPointYChanged(y) =>
      RepositionSelected(Option.None, Some(y), d)
    case SelectedPointUpdated =>
      Step(s, d.(selectionStatus := GetSelectionStatus(ctx.document, ctx.selection, ctx.selectedManipulatorAngles)), [])
    case ManipulatorAngleMakeSmooth =>
      SetAngle(true, d)
    case ManipulatorAngleMakeSharp =>
      SetAngle(false, d)
  }

  /** Events whose arm keeps the current state. */
  predicate KeepsState(m: PathToolMessage) {
    m.SelectionChanged? || m.DocumentIsDirty? || m.InsertPoint? || m.SelectedPointUpdated? || m.PointerMove?
  }

  /** Whether the event opens a transaction in this step. */
  predicate OpensTransaction(m: PathToolMessage, ctx: PathContext) {
    || (m.DragStart? && ctx.selectPoint(ctx.mouse, m.addToSelection in ctx.keyboard).Some?)
    || m.Delete? || m.ManipulatorAngleMakeSmooth? || m.ManipulatorAngleMakeSharp?
  }

  /** `PathToolFsmState::transition`. Messages for other tools change nothing. The standard messages,
      `InsertPoint`, `SelectedPointUpdated` and `PointerMove` keep the state; `DragStart` always leaves
      `Ready`; every other event ends in `Ready`, including the unmatched `Enter` outside `DrawingBox`. */
  function Transition(s: PathToolFsmState, event: ToolMessage, d: PathToolData, ctx: PathContext): (r: PathStep)
    ensures !event.Path? ==> r == Step(s, d, [])
    ensures event.Path? && KeepsState(event.path) ==> r.state == s
    ensures event.Path? && event.path.PointerMove? && s == Ready ==> r == Step(Ready, d, [])
    ensures event.Path? && event.path.DragStart? ==> r.state != Ready
    ensures event.Path? && event.path.Enter? && s != DrawingBox ==> r == Step(Ready, d, [])
    ensures event.Path? && !KeepsState(event.path) && !event.path.DragStart? ==> r.state == Ready
  {
    match event
    case Path(m) => PathTransition(s, m, d, ctx)
    case _ => Step(s, d, [])
  }

  /** The whole tool: its state machine and its data. */
  datatype PathToolInstance = PathToolInstance(fsmState: PathToolFsmState, toolData: PathToolData)

  const DefaultTool: PathToolInstance := PathToolInstance(Ready, DefaultData)

  /** Pressing and dragging never ask for the options layout to be refreshed. */
  lemma PressAndDragSendNoLayout(shift: bool, alt: bool, d: PathToolData, ctx: PathContext)
    ensures SendLayout !in MouseDown(shift, d, ctx).responses
    ensures SendLayout !in Drag(shift, alt, d, ctx).responses
  {
  }

  /** Neither way of releasing asks for the options layout to be refreshed. */
  lemma ReleaseSendsNoLayout(shift: bool, isDragStop: bool, d: PathToolData, ctx: PathContext)
    ensures SendLayout !in ReleaseBox(shift, isDragStop, d).responses
    ensures SendLayout !in ReleaseDrag(shift, d, ctx).responses
  {
  }

  /** The pointer arms never ask for the options layout to be refreshed. */
  lemma GestureArmsSendNoLayout(s: PathToolFsmState, m: PathToolMessage, d: PathToolData, ctx: PathContext)
    requires m.DragStart? || m.PointerMove? || m.Enter? || m.DragStop?
    ensures SendLayout !in PathTransition(s, m, d, ctx).responses
  {
    match m
    case DragStart(key) =>
      PressAndDragSendNoLayout(key in ctx.keyboard, false, d, ctx);
    case PointerMove(alt, shift) =>
      PressAndDragSendNoLayout(shift in ctx.keyboard, alt in ctx.keyboard, d, ctx);
    case Enter(key) =>
      ReleaseSendsNoLayout(key in ctx.keyboard, false, d, ctx);
    case DragStop(key) =>
      ReleaseSendsNoLayout(key in ctx.keyboard, true, d, ctx);
  }

  /** Neither do the remaining arms. */
  lemma OtherArmsSendNoLayout(s: PathToolFsmState, m: PathToolMessage, d: PathToolData, ctx: PathContext)
    requires !(m.DragStart? || m.PointerMove? || m.Enter? || m.DragStop?)
    ensures SendLayout !in PathTransition(s, m, d, ctx).responses
  {
  }

  /** No arm of the transition asks for the options layout to be refreshed. */
  lemma TransitionSendsNoLayout(s: PathToolFsmState, event: ToolMessage, d: PathToolData, ctx: PathContext)
    ensures SendLayout !in Transition(s, event, d, ctx).responses
  {
    if event.Path? {
      var m := event.path;
      if m.DragStart? || m.PointerMove? || m.Enter? || m.DragStop? {
        GestureArmsSendNoLayout(s, m, d, ctx);
      } else {
        OtherArmsSendNoLayout(s, m, d, ctx);
      }
    }
  }

  /** `process_message`: run the transition, then refresh the tool options after a status update. */
  function ProcessMessage(tool: PathToolInstance, message: ToolMessage, ctx: PathContext): (r: (PathToolInstance, seq<Message>))
    ensures var step := Transition(tool.fsmState, message, tool.toolData, ctx);
      && r.0 == PathToolInstance(step.state, step.data)
      && |r.1| >= |step.responses| && r.1[..|step.responses|] == step.responses
      && |r.1| <= |step.responses| + 1
    // No arm of the transition refreshes the layout itself, so the layout is refreshed exactly after a status update.
    ensures SendLayout in r.1 <==> message == Path(SelectedPointUpdated)
  {
    var step := Transition(tool.fsmState, message, tool.toolData, ctx);
    var layout := if message == Path(SelectedPointUpdated) then [SendLayout] else [];
    TransitionSendsNoLayout(tool.fsmState, message, tool.toolData, ctx);
    assert step.responses + layout == step.responses || step.responses + layout == step.responses + [SendLayout];
    (PathToolInstance(step.state, step.data), step.responses + layout)
  }

  /** Kinds of path tool message, as the action list names them. */
  datatype PathAction =
    | InsertPointAction | DragStartAction | DragStopAction | PointerMoveAction | DeleteAction
    | NudgeSelectedPointsAction | EnterAction | SelectAllPointsAction | OtherAction

  function ActionOf(m: PathToolMessage): PathAction {
    match m
    case InsertPoint => InsertPointAction
    case DragStart(_) => DragStartAction
    case DragStop(_) => DragStopAction
    case PointerMove(_, _) => PointerMoveAction
    case Delete => DeleteAction
    case NudgeSelectedPoints(_, _) => NudgeSelectedPointsAction
    case Enter(_) => EnterAction
    case SelectAllPoints => SelectAllPointsAction
    case _ => OtherAction
  }

  /** `actions()`: the input actions the tool listens for in each state. */
  function Actions(s: PathToolFsmState): set<PathAction> {
    match s
    case Ready => {InsertPointAction, DragStartAction, DeleteAction, NudgeSelectedPointsAction, EnterAction, SelectAllPointsAction}
    case Dragging => {InsertPointAction, DragStopAction, PointerMoveAction, DeleteAction, SelectAllPointsAction}
    case DrawingBox => {InsertPointAction, DragStopAction, PointerMoveAction, DeleteAction, EnterAction, SelectAllPointsAction}
  }
}
