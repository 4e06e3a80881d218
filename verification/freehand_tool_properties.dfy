/** Properties of the freehand tool: its transaction discipline, the layer it holds while drawing, the
    polyline a gesture draws, and its options reducer. */
module FreehandToolProperties {
  import opened Basics
  import opened Colors
  import opened Messages
  import opened Fsm
  import opened FreehandTool

  /** The tool holds a layer exactly while it is drawing. */
  predicate Consistent(s: FreehandToolFsmState, d: FreehandToolData) {
    s == Drawing <==> d.layer.Some?
  }

  /** Transactions the tool has open in a state: one while drawing, none otherwise. */
  function OpenIn(s: FreehandToolFsmState): int {
    if s == Drawing then 1 else 0
  }

  /** A press opens exactly one transaction and closes none. */
  lemma StartStrokeOpensOne(options: FreehandOptions, ctx: FreehandContext)
    ensures OpenTransactions(StartStroke(options, ctx).responses) == 1
    ensures Occurrences(StartStroke(options, ctx).responses, Start) == 1
  {
    var out := StartStroke(options, ctx).responses;
    assert out == [] + [Start] + out[1..];
    OccursOnce([], Start, out[1..]);
    OccurrencesAbsent(out, Commit);
    OccurrencesAbsent(out, Cancel);
  }

  /** The release closes exactly one transaction, by commit or by abort. */
  lemma FinishStrokeCloses(d: FreehandToolData)
    ensures OpenTransactions(FinishStroke(d).responses) == -1
  {
    var out := FinishStroke(d).responses;
    OccurrencesAbsent(out, Start);
    if d.dragged {
      OccursAt(out, 0, Commit);
      OccurrencesAbsent(out, Cancel);
    } else {
      OccursAt(out, 0, Cancel);
      OccurrencesAbsent(out, Commit);
    }
  }

  /** Every transition keeps the tool holding a layer exactly while drawing. */
  lemma TransitionKeepsConsistent(s: FreehandToolFsmState, event: ToolMessage, d: FreehandToolData, options: FreehandOptions, ctx: FreehandContext)
    requires Consistent(s, d)
    ensures var r := Transition(s, event, d, options, ctx); Consistent(r.state, r.data)
  {
  }

  /** Every transition opens a transaction exactly when it enters `Drawing` and closes one (by commit or
      abort) exactly when it leaves it. */
  lemma TransitionBalancesTransactions(s: FreehandToolFsmState, event: ToolMessage, d: FreehandToolData, options: FreehandOptions, ctx: FreehandContext)
    ensures var r := Transition(s, event, d, options, ctx);
      && OpenTransactions(r.responses) == OpenIn(r.state) - OpenIn(s)
      && (Start in r.responses <==> s == Ready && r.state == Drawing)
      && (Commit in r.responses || Cancel in r.responses <==> s == Drawing && r.state == Ready)
  {
    var r := Transition(s, event, d, options, ctx);
    if event.Freehand? && event.freehand.DragStart? && s == Ready {
      StartStrokeOpensOne(options, ctx);
    } else if event.Freehand? && (event.freehand.DragStop? || event.freehand.Abort?) && s == Drawing {
      FinishStrokeCloses(d);
    } else {
      assert r.state == s;
      NoTransactionMarkers(r.responses);
    }
  }

  /** One input of an event sequence: the message and what the editor answers during its step. */
  datatype FreehandInput = FreehandInput(message: ToolMessage, ctx: FreehandContext)

  /** `process_message` as a step function; the whole tool is the state and there is no separate data. */
  function ToolStepOf(tool: FreehandToolInstance, u: (), input: FreehandInput): Step<FreehandToolInstance, (), Message> {
    var (next, out) := ProcessMessage(tool, input.message, input.ctx);
    Step(next, (), out)
  }

  /** Runs the tool over a sequence of inputs, collecting every response in order. */
  function RunTool(tool: FreehandToolInstance, inputs: seq<FreehandInput>): Step<FreehandToolInstance, (), Message> {
    Run(ToolStepOf, tool, (), inputs)
  }

  /** One message, with the options reducer included. */
  lemma ToolStepInvariant(tool: FreehandToolInstance, input: FreehandInput)
    requires Consistent(tool.fsmState, tool.data)
    ensures var r := ToolStepOf(tool, (), input);
      && Consistent(r.state.fsmState, r.state.data)
      && OpenTransactions(r.responses) == OpenIn(r.state.fsmState) - OpenIn(tool.fsmState)
  {
    if !(input.message.Freehand? && input.message.freehand.UpdateOptions?) {
      TransitionKeepsConsistent(tool.fsmState, input.message, tool.data, tool.options, input.ctx);
      TransitionBalancesTransactions(tool.fsmState, input.message, tool.data, tool.options, input.ctx);
    } else {
      NoTransactionMarkers([SendLayout]);
    }
  }

  /** Over any sequence of messages from a consistent tool, the tool stays consistent and the responses
      leave open exactly the transactions the final state accounts for, less those the initial one did. */
  lemma {:induction false} RunToolInvariant(tool: FreehandToolInstance, inputs: seq<FreehandInput>)
    requires Consistent(tool.fsmState, tool.data)
    ensures var r := RunTool(tool, inputs);
      && Consistent(r.state.fsmState, r.state.data)
      && OpenTransactions(r.responses) == OpenIn(r.state.fsmState) - OpenIn(tool.fsmState)
    decreases |inputs|
  {
    if |inputs| > 0 {
      var init := inputs[..|inputs| - 1];
      RunToolInvariant(tool, init);
      var before := RunTool(tool, init);
      ToolStepInvariant(before.state, inputs[|inputs| - 1]);
      OpenTransactionsAppend(before.responses, ToolStepOf(before.state, (), inputs[|inputs| - 1]).responses);
    }
  }

  /** From the default tool, after any sequence of messages, the tool is drawing exactly when it holds a
      layer, exactly when one transaction it started is still open; otherwise none is. */
  lemma FromDefault(inputs: seq<FreehandInput>)
    ensures var r := RunTool(DefaultTool, inputs);
      && (r.state.fsmState == Drawing <==> r.state.data.layer.Some?)
      && OpenTransactions(r.responses) == (if r.state.fsmState == Drawing then 1 else 0)
  {
    RunToolInvariant(DefaultTool, inputs);
  }

  /** The polyline through `start` and then each point that differs from the one before it. */
  function Polyline(start: Vec2, points: seq<Vec2>): (r: seq<Vec2>)
    ensures |r| >= 1
  {
    if |points| == 0 then [start]
    else
      var before := Polyline(start, points[..|points| - 1]);
      if points[|points| - 1] != before[|before| - 1] then before + [points[|points| - 1]] else before
  }

  /** The polyline starts at `start`, ends at the last point, and never repeats a point twice in a row. */
  lemma {:induction false} PolylineShape(start: Vec2, points: seq<Vec2>)
    ensures var p := Polyline(start, points);
      && |p| >= 1 && p[0] == start
      && p[|p| - 1] == (if |points| == 0 then start else points[|points| - 1])
      && forall i :: 0 <= i < |p| - 1 ==> p[i] != p[i + 1]
    decreases |points|
  {
    if |points| > 0 {
      PolylineShape(start, points[..|points| - 1]);
    }
  }

  /** The anchors appended to `layer` by an output, in order. */
  function AddedAnchors(out: seq<Message>, layer: LayerId): seq<Vec2> {
    if |out| == 0 then []
    else
      AddedAnchors(out[..|out| - 1], layer) + AnchorAdded(out[|out| - 1], layer)
  }

  function AnchorAdded(m: Message, layer: LayerId): seq<Vec2> {
    match m
    case GraphOperation(AddEndManipulatorGroup(l, 0, p)) => if l == layer then [p] else []
    case _ => []
  }

  lemma {:induction false} AddedAnchorsAppend(a: seq<Message>, b: seq<Message>, layer: LayerId)
    ensures AddedAnchors(a + b, layer) == AddedAnchors(a, layer) + AddedAnchors(b, layer)
    decreases |b|
  {
    if |b| == 0 {
      assert a + b == a;
    } else {
      assert (a + b)[..|a + b| - 1] == a + b[..|b| - 1];
      assert (a + b)[|a + b| - 1] == b[|b| - 1];
      AddedAnchorsAppend(a, b[..|b| - 1], layer);
    }
  }

  /** Pointer moves as inputs. */
  function PointerMoves(moves: seq<FreehandContext>): (r: seq<FreehandInput>)
    ensures |r| == |moves| && forall i :: 0 <= i < |moves| ==> r[i] == FreehandInput(Freehand(FreehandToolMessage.PointerMove), moves[i])
  {
    seq(|moves|, i requires 0 <= i < |moves| => FreehandInput(Freehand(FreehandToolMessage.PointerMove), moves[i]))
  }

  function Positions(moves: seq<FreehandContext>): (r: seq<Vec2>)
    ensures |r| == |moves| && forall i :: 0 <= i < |moves| ==> r[i] == Position(moves[i])
  {
    seq(|moves|, i requires 0 <= i < |moves| => Position(moves[i]))
  }

  /** A pointer move while drawing is an `ExtendStroke` step. */
  lemma MoveStep(tool: FreehandToolInstance, ctx: FreehandContext)
    requires tool.fsmState == Drawing
    ensures var r := ToolStepOf(tool, (), FreehandInput(Freehand(FreehandToolMessage.PointerMove), ctx));
      var e := ExtendStroke(tool.data, ctx);
      r == Step(tool.(data := e.data), (), e.responses)
  {
  }

  /** Pointer moves while drawing on `layer` keep drawing on it, leave the last anchor at the end of the
      polyline through the pointer positions, and mark the stroke dragged once an anchor was added. */
  lemma {:induction false} DrawingRun(tool: FreehandToolInstance, layer: LayerId, moves: seq<FreehandContext>)
    requires tool.fsmState == Drawing && tool.data.layer == Some(layer)
    ensures var r := RunTool(tool, PointerMoves(moves));
      var line := Polyline(tool.data.lastPoint, Positions(moves));
      && r.state.fsmState == Drawing && r.state.options == tool.options
      && r.state.data.layer == Some(layer) && r.state.data.weight == tool.data.weight
      && r.state.data.lastPoint == line[|line| - 1]
      && r.state.data.dragged == (tool.data.dragged || |line| > 1)
    decreases |moves|
  {
    if |moves| > 0 {
      var init := moves[..|moves| - 1];
      assert PointerMoves(moves)[..|moves| - 1] == PointerMoves(init);
      assert Positions(moves)[..|moves| - 1] == Positions(init);
      DrawingRun(tool, layer, init);
      MoveStep(RunTool(tool, PointerMoves(init)).state, moves[|moves| - 1]);
    }
  }

  /** The anchors pointer moves append while drawing on `layer` are the polyline through the pointer
      positions after its first point, which is the anchor already there. */
  lemma {:induction false} DrawingRunAnchors(tool: FreehandToolInstance, layer: LayerId, moves: seq<FreehandContext>)
    requires tool.fsmState == Drawing && tool.data.layer == Some(layer)
    ensures var r := RunTool(tool, PointerMoves(moves));
      AddedAnchors(r.responses, layer) == Polyline(tool.data.lastPoint, Positions(moves))[1..]
    decreases |moves|
  {
    if |moves| > 0 {
      var init := moves[..|moves| - 1];
      assert PointerMoves(moves)[..|moves| - 1] == PointerMoves(init);
      assert Positions(moves)[..|moves| - 1] == Positions(init);
      DrawingRunAnchors(tool, layer, init);
      DrawingRun(tool, layer, init);
      var before := RunTool(tool, PointerMoves(init));
      var ctx := moves[|moves| - 1];
      MoveStep(before.state, ctx);
      var step := ExtendStroke(before.state.data, ctx);
      AddedAnchorsAppend(before.responses, step.responses, layer);
      ExtendAnchors(before.state.data, ctx, layer);
      PolylineTail(tool.data.lastPoint, Positions(moves));
    }
  }

  /** The anchors one pointer move appends while drawing on `layer`. */
  lemma ExtendAnchors(d: FreehandToolData, ctx: FreehandContext, layer: LayerId)
    requires d.layer == Some(layer)
    ensures AddedAnchors(ExtendStroke(d, ctx).responses, layer) == if d.lastPoint != Position(ctx) then [Position(ctx)] else []
  {
    var out := ExtendStroke(d, ctx).responses;
    if |out| > 0 {
      assert out[..0] == [];
    }
  }

  /** The polyline after its first point grows by the last point exactly when that point moved. */
  lemma PolylineTail(start: Vec2, points: seq<Vec2>)
    requires |points| > 0
    ensures var before := Polyline(start, points[..|points| - 1]);
      var last := points[|points| - 1];
      Polyline(start, points)[1..] == before[1..] + (if last != before[|before| - 1] then [last] else [])
  {
    var before := Polyline(start, points[..|points| - 1]);
    var last := points[|points| - 1];
    if last != before[|before| - 1] {
      assert (before + [last])[1..] == before[1..] + [last];
    }
  }

  /** Pointer moves while drawing open and close no transaction. */
  lemma {:induction false} DrawingRunTransactions(tool: FreehandToolInstance, moves: seq<FreehandContext>)
    requires tool.fsmState == Drawing && tool.data.layer.Some?
    ensures OpenTransactions(RunTool(tool, PointerMoves(moves)).responses) == 0
    decreases |moves|
  {
    if |moves| > 0 {
      var init := moves[..|moves| - 1];
      assert PointerMoves(moves)[..|moves| - 1] == PointerMoves(init);
      DrawingRunTransactions(tool, init);
      DrawingRun(tool, tool.data.layer.value, init);
      var before := RunTool(tool, PointerMoves(init));
      MoveStep(before.state, moves[|moves| - 1]);
      var step := ExtendStroke(before.state.data, moves[|moves| - 1]);
      OpenTransactionsAppend(before.responses, step.responses);
      NoTransactionMarkers(step.responses);
    }
  }

  /** A whole stroke: a press, pointer moves, and a release. */
  function StrokeInputs(press: FreehandContext, moves: seq<FreehandContext>, release: FreehandContext): seq<FreehandInput> {
    [PressInput(press)] + PointerMoves(moves) + [ReleaseInput(release)]
  }

  /** Three input sequences run one after the other. */
  lemma RunToolThree(tool: FreehandToolInstance, a: seq<FreehandInput>, b: seq<FreehandInput>, c: seq<FreehandInput>)
    ensures var ra := RunTool(tool, a);
      var rb := RunTool(ra.state, b);
      var rc := RunTool(rb.state, c);
      RunTool(tool, a + b + c) == Step(rc.state, (), ra.responses + rb.responses + rc.responses)
  {
    RunAppend(ToolStepOf, tool, (), a, b);
    RunAppend(ToolStepOf, tool, (), a + b, c);
  }

  /** The press of a stroke, from `Ready`, is a `StartStroke` step that keeps the options. */
  lemma PressStarts(tool: FreehandToolInstance, press: FreehandContext)
    requires tool.fsmState == Ready
    ensures var e := StartStroke(tool.options, press);
      RunTool(tool, [PressInput(press)])
        == Step(FreehandToolInstance(e.state, e.data, tool.options), (), e.responses)
  {
    RunOne(ToolStepOf, tool, (), PressInput(press));
  }

  /** The press of a stroke opens one transaction. */
  lemma PressOpensOne(tool: FreehandToolInstance, press: FreehandContext)
    requires tool.fsmState == Ready
    ensures OpenTransactions(RunTool(tool, [PressInput(press)]).responses) == 1
  {
    PressStarts(tool, press);
    StartStrokeOpensOne(tool.options, press);
  }

  /** A press appends no anchor: its only point comes with the new layer. */
  lemma StartStrokeAddsNoAnchor(options: FreehandOptions, ctx: FreehandContext, layer: LayerId)
    ensures AddedAnchors(StartStroke(options, ctx).responses, layer) == []
  {
    NoAnchorsAdded(StartStroke(options, ctx).responses, layer);
  }

  /** The release of a stroke, while drawing. */
  lemma ReleaseFinishes(tool: FreehandToolInstance, release: FreehandContext)
    requires tool.fsmState == Drawing
    ensures var r := RunTool(tool, [ReleaseInput(release)]);
      && r.state.fsmState == Ready && r.state.options == tool.options && r.state.data.layer == None
      && r.responses == [if tool.data.dragged then Commit else Cancel]
  {
    RunOne(ToolStepOf, tool, (), ReleaseInput(release));
  }

  /** An output none of whose messages appends an anchor appends none. */
  lemma {:induction false} NoAnchorsAdded(out: seq<Message>, layer: LayerId)
    requires forall i :: 0 <= i < |out| ==> AnchorAdded(out[i], layer) == []
    ensures AddedAnchors(out, layer) == []
    decreases |out|
  {
    if |out| > 0 {
      NoAnchorsAdded(out[..|out| - 1], layer);
    }
  }

  /** The polyline is its first point followed by the rest. */
  lemma PolylineHead(start: Vec2, points: seq<Vec2>)
    ensures [start] + Polyline(start, points)[1..] == Polyline(start, points)
  {
    PolylineShape(start, points);
  }

  /** The anchors of a press, the moves and a release are those of the moves. */
  lemma StrokeAnchors(a: seq<Message>, b: seq<Message>, c: seq<Message>, layer: LayerId)
    requires AddedAnchors(a, layer) == [] && AddedAnchors(c, layer) == []
    ensures AddedAnchors(a + b + c, layer) == AddedAnchors(b, layer)
  {
    AddedAnchorsAppend(a, b, layer);
    AddedAnchorsAppend(a + b, c, layer);
  }

  /** A press that opens one transaction, moves that open none and a release that closes one balance. */
  lemma StrokeTransactions(a: seq<Message>, b: seq<Message>, c: seq<Message>)
    requires OpenTransactions(a) == 1 && OpenTransactions(b) == 0 && OpenTransactions(c) == -1
    ensures OpenTransactions(a + b + c) == 0
  {
    OpenTransactionsAppend(a, b);
    OpenTransactionsAppend(a + b, c);
  }

  /** The inputs of a press and of a release. */
  function PressInput(press: FreehandContext): FreehandInput {
    FreehandInput(Freehand(FreehandToolMessage.DragStart), press)
  }

  function ReleaseInput(release: FreehandContext): FreehandInput {
    FreehandInput(Freehand(FreehandToolMessage.DragStop), release)
  }

  /** A stroke from `Ready` is its three stages run one after the other: the press starts a stroke on the
      new layer, the moves draw it, and the release finishes it, committing exactly when it grew. */
  lemma StrokeStages(tool: FreehandToolInstance, press: FreehandContext, moves: seq<FreehandContext>, release: FreehandContext)
    requires tool.fsmState == Ready
    ensures var pressed := RunTool(tool, [PressInput(press)]);
      var moved := RunTool(pressed.state, PointerMoves(moves));
      var released := RunTool(moved.state, [ReleaseInput(release)]);
      var line := Polyline(Position(press), Positions(moves));
      && RunTool(tool, StrokeInputs(press, moves, release)) == Step(released.state, (), pressed.responses + moved.responses + released.responses)
      && pressed.state == FreehandToolInstance(Drawing, FreehandToolData(Position(press), false, tool.options.lineWeight, Some(press.newLayerId)), tool.options)
      && pressed.responses == StartStroke(tool.options, press).responses
      && moved.state.fsmState == Drawing && moved.state.data.layer == Some(press.newLayerId)
      && released.state.fsmState == Ready && released.state.data.layer == None && released.state.options == tool.options
      && released.responses == [if |line| > 1 then Commit else Cancel]
  {
    RunToolThree(tool, [PressInput(press)], PointerMoves(moves), [ReleaseInput(release)]);
    PressStarts(tool, press);
    var pressed := RunTool(tool, [PressInput(press)]);
    DrawingRun(pressed.state, press.newLayerId, moves);
    var moved := RunTool(pressed.state, PointerMoves(moves));
    ReleaseFinishes(moved.state, release);
  }

  /** A whole stroke from `Ready` creates one new layer at the press and returns to `Ready` holding no
      layer, with the options untouched. */
  lemma StrokeGesture(tool: FreehandToolInstance, press: FreehandContext, moves: seq<FreehandContext>, release: FreehandContext)
    requires tool.fsmState == Ready
    ensures var r := RunTool(tool, StrokeInputs(press, moves, release));
      && r.state.fsmState == Ready && r.state.data.layer == None && r.state.options == tool.options
      && |r.responses| > 2
      && r.responses[2] == GraphOperation(NewVectorLayer(press.newLayerId, [Position(press)], false, press.newLayerParent))
  {
    StrokeStages(tool, press, moves, release);
  }

  /** A press from `Ready` followed by any inputs: the press makes the tool consistent and opens one
      transaction before the rest runs. */
  lemma PressThenRest(tool: FreehandToolInstance, press: FreehandContext, rest: seq<FreehandInput>)
    requires tool.fsmState == Ready
    ensures var pressed := RunTool(tool, [PressInput(press)]);
      var after := RunTool(pressed.state, rest);
      && RunTool(tool, [PressInput(press)] + rest) == Step(after.state, (), pressed.responses + after.responses)
      && Consistent(pressed.state.fsmState, pressed.state.data)
      && OpenTransactions(pressed.responses) == 1
  {
    RunAppend(ToolStepOf, tool, (), [PressInput(press)], rest);
    PressStarts(tool, press);
    PressOpensOne(tool, press);
  }

  /** A whole stroke leaves no transaction open. */
  lemma StrokeGestureTransactions(tool: FreehandToolInstance, press: FreehandContext, moves: seq<FreehandContext>, release: FreehandContext)
    requires tool.fsmState == Ready
    ensures OpenTransactions(RunTool(tool, StrokeInputs(press, moves, release)).responses) == 0
  {
    var rest := PointerMoves(moves) + [ReleaseInput(release)];
    assert StrokeInputs(press, moves, release) == [PressInput(press)] + rest;
    PressThenRest(tool, press, rest);
    var pressed := RunTool(tool, [PressInput(press)]);
    var after := RunTool(pressed.state, rest);
    RunToolInvariant(pressed.state, rest);
    StrokeGesture(tool, press, moves, release);
    OpenTransactionsAppend(pressed.responses, after.responses);
  }

  /** The layer a stroke draws is the polyline through the press and the pointer positions: its first
      point comes with the layer and the stroke appends the rest. */
  lemma StrokeGestureAnchors(tool: FreehandToolInstance, press: FreehandContext, moves: seq<FreehandContext>, release: FreehandContext)
    requires tool.fsmState == Ready
    ensures var r := RunTool(tool, StrokeInputs(press, moves, release));
      [Position(press)] + AddedAnchors(r.responses, press.newLayerId) == Polyline(Position(press), Positions(moves))
  {
    var layer := press.newLayerId;
    StrokeStages(tool, press, moves, release);
    StartStrokeAddsNoAnchor(tool.options, press, layer);
    var pressed := RunTool(tool, [PressInput(press)]);
    DrawingRunAnchors(pressed.state, layer, moves);
    var moved := RunTool(pressed.state, PointerMoves(moves));
    var released := RunTool(moved.state, [ReleaseInput(release)]);
    NoAnchorsAdded(released.responses, layer);
    StrokeAnchors(pressed.responses, moved.responses, released.responses, layer);
    PolylineHead(Position(press), Positions(moves));
  }

  /** A stroke ends by committing exactly when its polyline has more than one point, and by aborting
      otherwise. */
  lemma StrokeGestureOutcome(tool: FreehandToolInstance, press: FreehandContext, moves: seq<FreehandContext>, release: FreehandContext)
    requires tool.fsmState == Ready
    ensures var r := RunTool(tool, StrokeInputs(press, moves, release));
      |r.responses| > 0 && r.responses[|r.responses| - 1] == (if |Polyline(Position(press), Positions(moves))| > 1 then Commit else Cancel)
  {
    StrokeStages(tool, press, moves, release);
  }

  /** Choosing the same option twice is choosing it once. */
  lemma OptionsUpdateIdempotent(options: FreehandOptions, update: FreehandOptionsUpdate)
    ensures ApplyOptionsUpdate(ApplyOptionsUpdate(options, update), update) == ApplyOptionsUpdate(options, update)
  {
  }

  /** Options updates that touch different things commute: the fill and the stroke are independent, and
      the weight is independent of both. */
  lemma OptionsUpdatesCommute(options: FreehandOptions, a: FreehandOptionsUpdate, b: FreehandOptionsUpdate)
    requires (a.FillColor? || a.FillColorType?) && (b.StrokeColor? || b.StrokeColorType? || b.LineWeight?)
    ensures ApplyOptionsUpdate(ApplyOptionsUpdate(options, a), b) == ApplyOptionsUpdate(ApplyOptionsUpdate(options, b), a)
  {
  }

  /** An option switched to the primary type follows the primary working colour once the working colours
      are copied in, whatever colour it showed before. */
  lemma PrimaryFollowsWorkingColor(options: FreehandOptions, primary: Option<Color>, secondary: Option<Color>)
    ensures var r := ApplyOptionsUpdate(ApplyOptionsUpdate(options, FillColorType(Primary)), WorkingColors(primary, secondary));
      r.fill.ActiveColor() == primary
  {
  }

  /** In each state the tool listens for every event that has an arm of its own there, except
      `WorkingColorChanged`, which the editor delivers through the tool's event map instead. It also
      listens in `Ready` for `DragStop` and `Abort`, which change nothing there. */
  lemma ActionsCoverHandled(s: FreehandToolFsmState, m: FreehandToolMessage)
    ensures Handled(s, m) && !m.WorkingColorChanged? ==> ActionOf(m) in Actions(s)
    ensures ActionOf(m) in Actions(s) && !Handled(s, m) ==> s == Ready && (m.DragStop? || m.Abort?)
  {
  }
}
