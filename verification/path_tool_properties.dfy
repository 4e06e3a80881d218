/** Properties of the path tool over single steps that need a case analysis, and over event sequences. */
module PathToolProperties {
  import opened Basics
  import opened Vector
  import opened Messages
  import opened Selection
  import opened PathTool
  import opened Fsm

  /** What the status, abort and refresh arms do to the tool's data. */
  lemma TransitionArms(s: PathToolFsmState, event: ToolMessage, d: PathToolData, ctx: PathContext)
    // The status update is the only place the tool takes in the shape editor's selection.
    ensures var r := Transition(s, event, d, ctx);
      event == Path(SelectedPointUpdated) ==>
        r == Step(s, d.(selectionStatus := GetSelectionStatus(ctx.document, ctx.selection, ctx.selectedManipulatorAngles)), [])
    // `Abort` takes the pending box and removes it.
    ensures var r := Transition(s, event, d, ctx);
      event == Path(PathToolMessage.Abort) ==>
        && r.data == d.(dragBoxOverlayLayer := Option.None)
        && Overlay(RemoveBoundingBox(d.dragBoxOverlayLayer)) in r.responses
    // A selection change or select-all refreshes the overlays, which forgets the length cache and nothing else.
    ensures var r := Transition(s, event, d, ctx);
      event == Path(PathToolMessage.SelectionChanged) || event == Path(PathToolMessage.SelectAllPoints) ==>
        && r.data == d.(opposingHandleLengths := Option.None)
        && Overlay(OverlayCall.RefreshOverlays) in r.responses
    // A dirty document only redraws, then asks for a status update.
    ensures var r := Transition(s, event, d, ctx);
      event == Path(DocumentIsDirty) ==>
        r.data == d && |r.responses| > 0 && r.responses[|r.responses| - 1] == Tool(Path(SelectedPointUpdated))
  {
  }

  /** A transaction is opened only by a point drag, `Delete` and the two angle commands. */
  lemma TransitionOpens(s: PathToolFsmState, m: PathToolMessage, d: PathToolData, ctx: PathContext)
    ensures Start in Transition(s, Path(m), d, ctx).responses <==> OpensTransaction(m, ctx)
  {
  }

  /** A step opens exactly one transaction when it opens one at all. */
  lemma TransitionOpensOnce(s: PathToolFsmState, m: PathToolMessage, d: PathToolData, ctx: PathContext)
    ensures Occurrences(Transition(s, Path(m), d, ctx).responses, Start) == if OpensTransaction(m, ctx) then 1 else 0
  {
    TransitionOpens(s, m, d, ctx);
    OccurrencesAbsent(Transition(s, Path(m), d, ctx).responses, Start);
    if m.DragStart? {
      MouseDownOpensOnce(m.addToSelection in ctx.keyboard, d, ctx);
    } else if m.Delete? {
      OccursAt(Transition(s, Path(m), d, ctx).responses, 0, Start);
    } else if m.ManipulatorAngleMakeSmooth? || m.ManipulatorAngleMakeSharp? {
      SetAngleOneTransaction(m.ManipulatorAngleMakeSmooth?, d);
    }
  }

  /** An angle command opens one transaction and commits one. */
  lemma SetAngleOneTransaction(smooth: bool, d: PathToolData)
    ensures Occurrences(SetAngle(smooth, d).responses, Start) == 1
    ensures Occurrences(SetAngle(smooth, d).responses, Commit) == 1
  {
    var out := SetAngle(smooth, d).responses;
    assert out == [] + [Start] + out[1..];
    OccursOnce([], Start, out[1..]);
    assert out == out[..|out| - 1] + [Commit] + [];
    OccursOnce(out[..|out| - 1], Commit, []);
  }

  /** Only the two angle commands close a transaction, and the path tool never aborts one. */
  lemma TransitionCloses(s: PathToolFsmState, m: PathToolMessage, d: PathToolData, ctx: PathContext)
    ensures Commit in Transition(s, Path(m), d, ctx).responses <==> m.ManipulatorAngleMakeSmooth? || m.ManipulatorAngleMakeSharp?
    ensures Cancel !in Transition(s, Path(m), d, ctx).responses
  {
  }

  /** A press opens one transaction when it grabs a point and none otherwise. */
  lemma MouseDownOpensOnce(shift: bool, d: PathToolData, ctx: PathContext)
    ensures Occurrences(MouseDown(shift, d, ctx).responses, Start) == if ctx.selectPoint(ctx.mouse, shift).Some? then 1 else 0
  {
    if ctx.selectPoint(ctx.mouse, shift).Some? {
      OccursAt(MouseDown(shift, d, ctx).responses, 1, Start);
    } else {
      OccurrencesAbsent(MouseDown(shift, d, ctx).responses, Start);
    }
  }

  /** One input of an event sequence: the event and what the editor answers during its step. */
  datatype PathInput = PathInput(event: ToolMessage, ctx: PathContext)

  /** The transition as a step function over inputs. */
  function PathStepOf(s: PathToolFsmState, d: PathToolData, input: PathInput): PathStep {
    Transition(s, input.event, d, input.ctx)
  }

  /** Runs the path tool over a sequence of inputs, collecting every response in order. */
  function RunPath(s: PathToolFsmState, d: PathToolData, inputs: seq<PathInput>): PathStep {
    Run(PathStepOf, s, d, inputs)
  }

  /** The last step of a run. */
  lemma RunPathLast(s: PathToolFsmState, d: PathToolData, inputs: seq<PathInput>)
    requires |inputs| > 0
    ensures var before := RunPath(s, d, inputs[..|inputs| - 1]);
      var step := Transition(before.state, inputs[|inputs| - 1].event, before.data, inputs[|inputs| - 1].ctx);
      RunPath(s, d, inputs) == Step(step.state, step.data, before.responses + step.responses)
  {
  }

  predicate IsPointerMove(input: PathInput) {
    input.event.Path? && input.event.path.PointerMove?
  }

  predicate AllPointerMoves(inputs: seq<PathInput>) {
    forall i :: 0 <= i < |inputs| ==> IsPointerMove(inputs[i])
  }

  /** A pointer move as `drag` sees it: whether Shift and Alt are down, and the rest of the context. */
  datatype DragInput = DragInput(shift: bool, alt: bool, ctx: PathContext)

  function AsDrag(input: PathInput): DragInput
    requires IsPointerMove(input)
  {
    DragInput(input.event.path.shift in input.ctx.keyboard, input.event.path.alt in input.ctx.keyboard, input.ctx)
  }

  function AsDrags(inputs: seq<PathInput>): (r: seq<DragInput>)
    requires AllPointerMoves(inputs)
    ensures |r| == |inputs| && forall i :: 0 <= i < |inputs| ==> r[i] == AsDrag(inputs[i])
  {
    seq(|inputs|, i requires 0 <= i < |inputs| => AsDrag(inputs[i]))
  }

  function DragStepOf(s: PathToolFsmState, d: PathToolData, move: DragInput): PathStep {
    Drag(move.shift, move.alt, d, move.ctx)
  }

  /** A run of `drag` steps. */
  function DragRun(d: PathToolData, moves: seq<DragInput>): PathStep {
    Run(DragStepOf, Dragging, d, moves)
  }

  /** The Alt state after a run of moves that started with `initial`. */
  function LastAlt(initial: bool, moves: seq<DragInput>): bool {
    if |moves| == 0 then initial else moves[|moves| - 1].alt
  }

  /** Number of moves at which Alt goes from released to held, starting from `initial`. */
  function RisingEdges(initial: bool, moves: seq<DragInput>): nat {
    if |moves| == 0 then 0
    else
      var init := moves[..|moves| - 1];
      RisingEdges(initial, init) + (if moves[|moves| - 1].alt && !LastAlt(initial, init) then 1 else 0)
  }

  /** A run of `drag` steps stays in `Dragging`, keeps the press position, leaves the previous pointer
      position at the last snapped position and the Alt debounce at the last Alt state. */
  lemma {:induction false} DragRunData(d: PathToolData, moves: seq<DragInput>)
    ensures var r := DragRun(d, moves);
      && r.state == Dragging
      && r.data.dragStartPos == d.dragStartPos
      && r.data.previousMousePosition ==
           (if |moves| == 0 then d.previousMousePosition
            else moves[|moves| - 1].ctx.snapPosition(moves[|moves| - 1].ctx.mouse))
      && r.data.altDebounce == LastAlt(d.altDebounce, moves)
    decreases |moves|
  {
    if |moves| > 0 {
      DragRunData(d, moves[..|moves| - 1]);
    }
  }

  /** While dragging, the pointer-move arm of the transition is `drag`: a run of pointer moves from
      `Dragging` is the run of their `drag` steps. */
  lemma {:induction false} DraggingIsDragRun(d: PathToolData, inputs: seq<PathInput>)
    requires AllPointerMoves(inputs)
    ensures RunPath(Dragging, d, inputs) == DragRun(d, AsDrags(inputs))
    decreases |inputs|
  {
    if |inputs| > 0 {
      var init := inputs[..|inputs| - 1];
      assert AllPointerMoves(init) by {
        assert forall i :: 0 <= i < |init| ==> init[i] == inputs[i];
      }
      assert AsDrags(inputs)[..|inputs| - 1] == AsDrags(init);
      DraggingIsDragRun(d, init);
      DragRunData(d, AsDrags(init));
      PointerMoveIsDrag(DragRun(d, AsDrags(init)).data, inputs[|inputs| - 1]);
    }
  }

  lemma PointerMoveIsDrag(d: PathToolData, input: PathInput)
    requires IsPointerMove(input)
    ensures PathStepOf(Dragging, d, input) == DragStepOf(Dragging, d, AsDrag(input))
  {
  }

  /** Over a run of `drag` steps the selected points travel in total from the previous pointer position
      to the last snapped position. */
  lemma {:induction false} DragRunTravel(d: PathToolData, moves: seq<DragInput>)
    ensures var r := DragRun(d, moves);
      MoveDeltaSum(r.responses) == r.data.previousMousePosition.Minus(d.previousMousePosition)
    decreases |moves|
  {
    if |moves| > 0 {
      var init := moves[..|moves| - 1];
      DragRunTravel(d, init);
      var before := DragRun(d, init);
      var last := moves[|moves| - 1];
      var step := Drag(last.shift, last.alt, before.data, last.ctx);
      MoveDeltaSumAppend(before.responses, step.responses);
      Telescope(d.previousMousePosition, before.data.previousMousePosition, step.data.previousMousePosition);
    }
  }

  /** Over a run of `drag` steps mirroring is toggled once per rising edge of Alt. */
  lemma {:induction false} DragRunToggles(d: PathToolData, moves: seq<DragInput>)
    ensures Occurrences(DragRun(d, moves).responses, Shape(ToggleHandleMirroringOnSelected))
            == RisingEdges(d.altDebounce, moves)
    decreases |moves|
  {
    if |moves| > 0 {
      var init := moves[..|moves| - 1];
      DragRunToggles(d, init);
      DragRunData(d, init);
      var before := DragRun(d, init);
      var last := moves[|moves| - 1];
      OccurrencesAppend(before.responses, Drag(last.shift, last.alt, before.data, last.ctx).responses,
                        Shape(ToggleHandleMirroringOnSelected));
      DragTogglesOnce(last.shift, last.alt, before.data, last.ctx);
    }
  }

  /** What one `drag` step asks of the shape editor besides the move: mirroring is toggled exactly on a
      rising edge of Alt, and the cached opposing handle lengths are restored exactly when Shift was let go
      with a cache that the toggle did not drop. */
  lemma DragRequests(shift: bool, alt: bool, d: PathToolData, ctx: PathContext)
    ensures var out := Drag(shift, alt, d, ctx).responses;
      && ((Shape(ToggleHandleMirroringOnSelected) in out) <==> AltRisingEdge(alt, d))
      && forall c :: Shape(ResetOpposingHandleLengths(c)) in out <==>
           !shift && !AltRisingEdge(alt, d) && d.opposingHandleLengths == Some(c)
  {
  }

  /** One `drag` step toggles mirroring once on a rising edge of Alt and not at all otherwise. */
  lemma DragTogglesOnce(shift: bool, alt: bool, d: PathToolData, ctx: PathContext)
    ensures Occurrences(Drag(shift, alt, d, ctx).responses, Shape(ToggleHandleMirroringOnSelected))
            == if AltRisingEdge(alt, d) then 1 else 0
  {
    var out := Drag(shift, alt, d, ctx).responses;
    if AltRisingEdge(alt, d) {
      OccursAt(out, 0, Shape(ToggleHandleMirroringOnSelected));
    } else {
      OccurrencesAbsent(out, Shape(ToggleHandleMirroringOnSelected));
    }
  }

  /** A run of `drag` steps neither opens nor closes a transaction. */
  lemma {:induction false} DragRunTransactions(d: PathToolData, moves: seq<DragInput>)
    ensures var r := DragRun(d, moves);
      Start !in r.responses && Commit !in r.responses && Cancel !in r.responses
    decreases |moves|
  {
    if |moves| > 0 {
      DragRunTransactions(d, moves[..|moves| - 1]);
    }
  }

  /** While Shift stays held and Alt never rises, the opposing handle lengths are computed at most once:
      a cache present at the start is kept, otherwise the first move's snapshot is kept, and no lengths
      are ever reset. */
  lemma {:induction false} ShiftHeldCachesOnce(d: PathToolData, moves: seq<DragInput>)
    requires forall i :: 0 <= i < |moves| ==> moves[i].shift
    requires RisingEdges(d.altDebounce, moves) == 0
    ensures var r := DragRun(d, moves);
      && r.data.opposingHandleLengths ==
           (if d.opposingHandleLengths.Some? || |moves| == 0 then d.opposingHandleLengths
            else Some(moves[0].ctx.currentHandleLengths))
      && forall c :: Shape(ResetOpposingHandleLengths(c)) !in r.responses
    decreases |moves|
  {
    if |moves| > 0 {
      var init := moves[..|moves| - 1];
      assert forall i :: 0 <= i < |init| ==> init[i] == moves[i];
      ShiftHeldCachesOnce(d, init);
      DragRunData(d, init);
      if |init| == 0 {
        assert moves[0] == moves[|moves| - 1];
      }
    }
  }

  /** A run of pointer moves while drawing the box stays in `DrawingBox`, only updates the box overlay,
      and leaves the previous pointer position at the last pointer position. */
  lemma {:induction false} BoxRun(d: PathToolData, inputs: seq<PathInput>)
    requires AllPointerMoves(inputs)
    ensures var r := RunPath(DrawingBox, d, inputs);
      && r.state == DrawingBox
      && r.data == (if |inputs| == 0 then d else d.(previousMousePosition := inputs[|inputs| - 1].ctx.mouse))
      && forall i :: 0 <= i < |r.responses| ==> r.responses[i].Overlay? && r.responses[i].overlay.UpdateBoundingBox?
    decreases |inputs|
  {
    if |inputs| > 0 {
      var init := inputs[..|inputs| - 1];
      assert forall i :: 0 <= i < |init| ==> init[i] == inputs[i];
      BoxRun(d, init);
      RunPathLast(DrawingBox, d, inputs);
    }
  }

  /** A press that hits neither a point nor a shape starts a box. */
  lemma PressOnNothing(d: PathToolData, key: Key, ctx: PathContext)
    requires ctx.selectPoint(ctx.mouse, key in ctx.keyboard).None? && ctx.click(ctx.mouse).None?
    ensures var r := RunPath(Ready, d, [PathInput(Path(PathToolMessage.DragStart(key)), ctx)]);
      && r.state == DrawingBox
      && r.data.dragStartPos == ctx.mouse && r.data.previousMousePosition == ctx.mouse
      && r.data.dragBoxOverlayLayer == Some(ctx.newBoxOverlay)
      && Overlay(AddBoundingBox) in r.responses
      && NodeGraph(SelectedNodesSet([])) !in r.responses
      && Start !in r.responses
  {
    RunOne(PathStepOf, Ready, d, PathInput(Path(PathToolMessage.DragStart(key)), ctx));
  }

  /** Releasing the box. */
  lemma ReleaseWhileBoxing(d: PathToolData, key: Key, ctx: PathContext)
    ensures var r := RunPath(DrawingBox, d, [PathInput(Path(PathToolMessage.DragStop(key)), ctx)]);
      && r == ReleaseBox(key in ctx.keyboard, true, d)
  {
    RunOne(PathStepOf, DrawingBox, d, PathInput(Path(PathToolMessage.DragStop(key)), ctx));
  }

  /** Press, pointer moves, release. */
  function GestureInputs(startKey: Key, start: PathContext, moves: seq<PathInput>, stopKey: Key, stop: PathContext): seq<PathInput> {
    [PathInput(Path(PathToolMessage.DragStart(startKey)), start)] + moves + [PathInput(Path(PathToolMessage.DragStop(stopKey)), stop)]
  }

  /** A rubber-band gesture: a press that hits neither a point nor a shape, pointer moves, then release.
      It ends in `Ready` with the box overlay it created removed; it clears the layer selection exactly when
      the release position equals the press position, and otherwise selects the points in the box,
      replacing the selection unless Shift is held at release. */
  lemma BoxGesture(d: PathToolData, startKey: Key, start: PathContext, moves: seq<PathInput>, stopKey: Key, stop: PathContext)
    requires start.selectPoint(start.mouse, startKey in start.keyboard).None? && start.click(start.mouse).None?
    requires AllPointerMoves(moves)
    ensures var r := RunPath(Ready, d, GestureInputs(startKey, start, moves, stopKey, stop));
      var release := if |moves| == 0 then start.mouse else moves[|moves| - 1].ctx.mouse;
      && r.state == Ready
      && r.data.dragBoxOverlayLayer.None?
      && Overlay(AddBoundingBox) in r.responses
      && Overlay(RemoveBoundingBox(Some(start.newBoxOverlay))) in r.responses
      && (NodeGraph(SelectedNodesSet([])) in r.responses <==> release == start.mouse)
      && (release != start.mouse ==> Shape(SelectAllInQuad(start.mouse, release, stopKey !in stop.keyboard)) in r.responses)
      && Start !in r.responses
  {
    var first := [PathInput(Path(PathToolMessage.DragStart(startKey)), start)];
    var stopped := [PathInput(Path(PathToolMessage.DragStop(stopKey)), stop)];
    RunPathThree(Ready, d, first, moves, stopped);
    PressOnNothing(d, startKey, start);
    var pressed := RunPath(Ready, d, first);
    BoxRun(pressed.data, moves);
    var moved := RunPath(DrawingBox, pressed.data, moves);
    ReleaseWhileBoxing(moved.data, stopKey, stop);
    var released := RunPath(DrawingBox, moved.data, stopped);
    assert NodeGraph(SelectedNodesSet([])) !in moved.responses;
    assert Start !in moved.responses;
    MembersOfThree(pressed.responses, moved.responses, released.responses);
  }

  lemma MembersOfThree(a: seq<Message>, b: seq<Message>, c: seq<Message>)
    ensures forall m :: m in a + b + c <==> m in a || m in b || m in c
  {
  }

  /** Three input sequences run one after the other. */
  lemma RunPathThree(s: PathToolFsmState, d: PathToolData, a: seq<PathInput>, b: seq<PathInput>, c: seq<PathInput>)
    ensures var ra := RunPath(s, d, a);
      var rb := RunPath(ra.state, ra.data, b);
      var rc := RunPath(rb.state, rb.data, c);
      RunPath(s, d, a + b + c) == Step(rc.state, rc.data, ra.responses + rb.responses + rc.responses)
  {
    RunAppend(PathStepOf, s, d, a, b);
    var rab := RunPath(s, d, a + b);
    RunAppend(PathStepOf, s, d, a + b, c);
  }

  /** A press that grabs a point. */
  lemma PressOnPoint(d: PathToolData, key: Key, ctx: PathContext)
    requires ctx.selectPoint(ctx.mouse, key in ctx.keyboard).Some?
    ensures var r := RunPath(Ready, d, [PathInput(Path(PathToolMessage.DragStart(key)), ctx)]);
      && r.state == Dragging
      && r.data.previousMousePosition == ctx.mouse.Minus(ctx.selectPoint(ctx.mouse, key in ctx.keyboard).value.offset)
      && Occurrences(r.responses, Start) == 1
      && Commit !in r.responses && Cancel !in r.responses
      && MoveDeltaSum(r.responses) == Origin
  {
    RunOne(PathStepOf, Ready, d, PathInput(Path(PathToolMessage.DragStart(key)), ctx));
    MouseDownOpensOnce(key in ctx.keyboard, d, ctx);
  }

  /** Pointer moves while dragging, seen from the run of the whole tool. */
  lemma PointerMovesWhileDragging(d: PathToolData, inputs: seq<PathInput>)
    requires AllPointerMoves(inputs)
    ensures var r := RunPath(Dragging, d, inputs);
      && r.state == Dragging
      && r.data.previousMousePosition ==
           (if |inputs| == 0 then d.previousMousePosition
            else inputs[|inputs| - 1].ctx.snapPosition(inputs[|inputs| - 1].ctx.mouse))
      && MoveDeltaSum(r.responses) == r.data.previousMousePosition.Minus(d.previousMousePosition)
      && Start !in r.responses && Commit !in r.responses && Cancel !in r.responses
  {
    DraggingIsDragRun(d, inputs);
    var drags := AsDrags(inputs);
    DragRunData(d, drags);
    DragRunTravel(d, drags);
    DragRunTransactions(d, drags);
  }

  /** Releasing a drag. */
  lemma ReleaseWhileDragging(d: PathToolData, key: Key, ctx: PathContext)
    ensures var r := RunPath(Dragging, d, [PathInput(Path(PathToolMessage.DragStop(key)), ctx)]);
      && r.state == Ready
      && Start !in r.responses && Commit !in r.responses && Cancel !in r.responses
      && MoveDeltaSum(r.responses) == Origin
  {
    RunOne(PathStepOf, Dragging, d, PathInput(Path(PathToolMessage.DragStop(key)), ctx));
  }

  /** A point drag: a press that hits a point, pointer moves, then release. The gesture opens exactly one
      transaction and closes none, ends in `Ready`, and moves the selected points in total from the grabbed
      point's position to the last snapped pointer position. */
  lemma PointDragGesture(d: PathToolData, startKey: Key, start: PathContext, moves: seq<PathInput>, stopKey: Key, stop: PathContext)
    requires start.selectPoint(start.mouse, startKey in start.keyboard).Some?
    requires AllPointerMoves(moves)
    ensures RunPath(Ready, d, GestureInputs(startKey, start, moves, stopKey, stop)).state == Ready
    ensures Occurrences(RunPath(Ready, d, GestureInputs(startKey, start, moves, stopKey, stop)).responses, Start) == 1
    ensures Commit !in RunPath(Ready, d, GestureInputs(startKey, start, moves, stopKey, stop)).responses
    ensures Cancel !in RunPath(Ready, d, GestureInputs(startKey, start, moves, stopKey, stop)).responses
    ensures var grabbed := start.mouse.Minus(start.selectPoint(start.mouse, startKey in start.keyboard).value.offset);
      var last := if |moves| == 0 then grabbed else moves[|moves| - 1].ctx.snapPosition(moves[|moves| - 1].ctx.mouse);
      MoveDeltaSum(RunPath(Ready, d, GestureInputs(startKey, start, moves, stopKey, stop)).responses) == last.Minus(grabbed)
  {
    var first := [PathInput(Path(PathToolMessage.DragStart(startKey)), start)];
    var stopped := [PathInput(Path(PathToolMessage.DragStop(stopKey)), stop)];
    RunPathThree(Ready, d, first, moves, stopped);
    PressOnPoint(d, startKey, start);
    var pressed := RunPath(Ready, d, first);
    PointerMovesWhileDragging(pressed.data, moves);
    var moved := RunPath(Dragging, pressed.data, moves);
    ReleaseWhileDragging(moved.data, stopKey, stop);
    var released := RunPath(Dragging, moved.data, stopped);
    OccurrencesAbsent(moved.responses, Start);
    OccurrencesAbsent(released.responses, Start);
    ThreeOutputs(pressed.responses, moved.responses, released.responses);
    TravelOfMiddle(pressed.responses, moved.responses, released.responses, MoveDeltaSum(moved.responses));
  }

  /** How the transaction markers and move displacements of three consecutive outputs add up. */
  lemma ThreeOutputs(a: seq<Message>, b: seq<Message>, c: seq<Message>)
    ensures Occurrences(a + b + c, Start) == Occurrences(a, Start) + Occurrences(b, Start) + Occurrences(c, Start)
    ensures Commit in a + b + c <==> Commit in a || Commit in b || Commit in c
    ensures Cancel in a + b + c <==> Cancel in a || Cancel in b || Cancel in c
  {
    OccurrencesAppend(a, b, Start);
    OccurrencesAppend(a + b, c, Start);
  }

  /** Outputs around one that moves the points by `v`, neither of which moves them, leave the total at `v`. */
  lemma TravelOfMiddle(a: seq<Message>, b: seq<Message>, c: seq<Message>, v: Vec2)
    requires MoveDeltaSum(a) == Origin && MoveDeltaSum(b) == v && MoveDeltaSum(c) == Origin
    ensures MoveDeltaSum(a + b + c) == v
  {
    MoveDeltaSumAppend(a, b);
    MoveDeltaSumAppend(a + b, c);
    OriginIsNeutral(v);
  }

  /** Each state listens for the events that move its gesture on: a press in `Ready`, pointer moves and the
      release while dragging or drawing a box, and `Enter` while drawing a box. No state but `Ready`
      listens for a press, and `Ready` does not listen for pointer moves, which do nothing there. */
  lemma ActionsFollowGesture(s: PathToolFsmState)
    ensures s == Ready <==> DragStartAction in Actions(s)
    ensures s != Ready <==> PointerMoveAction in Actions(s) && DragStopAction in Actions(s)
    ensures s == Ready || s == DrawingBox <==> EnterAction in Actions(s)
    ensures InsertPointAction in Actions(s) && DeleteAction in Actions(s) && SelectAllPointsAction in Actions(s)
  {
  }

  /** The action list against the transition. Every event a state listens for changes something there,
      except `Enter` in `Ready`, which falls through to the default arm. A pointer move is listened for
      exactly where its arm is not the identity. */
  lemma ActionsMatchTransition(s: PathToolFsmState, d: PathToolData, ctx: PathContext, alt: Key, shift: Key, key: Key)
    ensures PointerMoveAction in Actions(s) <==> PathTransition(s, PathToolMessage.PointerMove(alt, shift), d, ctx) != Step(s, d, [])
    ensures forall m :: ActionOf(m) in Actions(s) && !(s == Ready && m.Enter?) ==> PathTransition(s, m, d, ctx) != Step(s, d, [])
    ensures EnterAction in Actions(Ready) && PathTransition(Ready, PathToolMessage.Enter(key), d, ctx) == Step(Ready, d, [])
  {
    forall m | ActionOf(m) in Actions(s) && !(s == Ready && m.Enter?)
      ensures PathTransition(s, m, d, ctx) != Step(s, d, [])
    {
      if m.Enter? {
        assert s == DrawingBox;
      }
      assert |PathTransition(s, m, d, ctx).responses| > 0;
    }
  }

  /** The X/Y fields act on the selection the status update saw: after `SelectedPointUpdated`, a
      `SelectedPointXChanged` repositions a point exactly when one point is selected and its document
      lookups succeed, and then it moves that point along X only. */
  lemma StatusGuardsReposition(s: PathToolFsmState, d: PathToolData, ctx: PathContext, later: PathContext, x: int)
    ensures var updated := Transition(s, Path(SelectedPointUpdated), d, ctx);
      var moved := Transition(updated.state, Path(SelectedPointXChanged(x)), updated.data, later);
      && (moved.responses != [] <==>
            exists layer, p :: SoleSelection(ctx.selection, layer, p) && Resolves(ctx.document, layer, p))
      && (TotalSelected(ctx.selection) != 1 ==> moved.responses == [])
      && forall layer, p :: SoleSelection(ctx.selection, layer, p) && Resolves(ctx.document, layer, p) ==>
           var doc := ctx.document;
           var local := GetPosition(p.manipulatorType, FindGroup(doc.subpaths[layer], p.group).value).value;
           moved.responses == [Shape(RepositionControlPoint(p, Vec2(x, doc.transformToDocument(layer, local).y), layer))]
  {
    var sel := ctx.selection;
    var st := GetSelectionStatus(ctx.document, sel, ctx.selectedManipulatorAngles);
    forall layer, p | SoleSelection(sel, layer, p) {
      SingleSelectionStatus(ctx.document, sel, ctx.selectedManipulatorAngles, layer, p);
    }
    if st.One? {
      SoleSelectionExists(sel);
    }
  }
}
