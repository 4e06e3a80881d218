/** The freehand tool: a press starts a new vector layer inside a transaction, pointer moves append an
    anchor wherever the pointer has moved, and the release commits the stroke if it grew and aborts it
    otherwise. */
module FreehandTool {
  import opened Basics
  import opened Colors
  import opened Messages
  import opened Fsm

  datatype FreehandToolFsmState = Ready | Drawing

  /** The tool's data between events: the last anchor added, whether any anchor was added after the first,
      the stroke weight fixed at the press, and the layer being drawn. */
  datatype FreehandToolData = FreehandToolData(lastPoint: Vec2, dragged: bool, weight: real, layer: Option<LayerId>)

  const DefaultData: FreehandToolData := FreehandToolData(Origin, false, 0.0, None)

  datatype FreehandOptions = FreehandOptions(lineWeight: real, fill: ToolColorOptions, stroke: ToolColorOptions)

  /** Weight 5, no fill, a stroke in the primary working colour. */
  function DefaultOptions(): (r: FreehandOptions)
    ensures r.lineWeight == 5.0
    ensures r.fill.ActiveColor() == None
    ensures r.stroke.colorType == Primary && r.stroke.ActiveColor() == r.stroke.primaryWorkingColor
  {
    FreehandOptions(5.0, NewNone(), NewPrimary())
  }

  /** What one transition reads from the editor: the pointer in viewport space, the inverse of the
      document-to-viewport transform, the identifier the new layer receives, the parent the document picks
      for it, and the working colours. */
  datatype FreehandContext = FreehandContext(
    mouse: Vec2,
    viewportToDocument: Vec2 -> Vec2,
    newLayerId: LayerId,
    newLayerParent: LayerId,
    primaryColor: Color,
    secondaryColor: Color)

  /** The pointer in document space. */
  function Position(ctx: FreehandContext): Vec2 {
    ctx.viewportToDocument(ctx.mouse)
  }

  type FreehandStep = Fsm.Step<FreehandToolFsmState, FreehandToolData, Message>

  /** The fill a new stroke gets: solid in the fill option's active colour, or none when it has none. */
  function FillOf(option: ToolColorOptions): (r: Fill)
    ensures r.Solid? <==> option.ActiveColor().Some?
    ensures r.Solid? ==> Some(r.color) == option.ActiveColor()
  {
    match option.ActiveColor()
    case Some(c) => Solid(c)
    case None => NoFill
  }

  /** `DragStart` in `Ready`: open a transaction, deselect every layer, create a one-anchor layer at the
      pointer and give it the fill and stroke of the options. */
  function StartStroke(options: FreehandOptions, ctx: FreehandContext): (r: FreehandStep)
    ensures r.state == Drawing
    ensures r.data == FreehandToolData(Position(ctx), false, options.lineWeight, Some(ctx.newLayerId))
    ensures |r.responses| == 5 && r.responses[0] == Start && r.responses[1] == Document(DeselectAllLayers)
    ensures r.responses[2] == GraphOperation(NewVectorLayer(ctx.newLayerId, [Position(ctx)], false, ctx.newLayerParent))
    ensures r.responses[3] == GraphOperation(FillSet(ctx.newLayerId, FillOf(options.fill)))
    ensures r.responses[4] == GraphOperation(StrokeSet(ctx.newLayerId, Stroke(options.stroke.ActiveColor(), options.lineWeight)))
  {
    var layer := ctx.newLayerId;
    Step(Drawing, FreehandToolData(Position(ctx), false, options.lineWeight, Some(layer)),
         [Start, Document(DeselectAllLayers),
          GraphOperation(NewVectorLayer(layer, [Position(ctx)], false, ctx.newLayerParent)),
          GraphOperation(FillSet(layer, FillOf(options.fill))),
          GraphOperation(StrokeSet(layer, Stroke(options.stroke.ActiveColor(), options.lineWeight)))])
  }

  /** Whether a pointer move adds an anchor: the pointer left the last anchor and a layer is being drawn. */
  predicate AddsAnchor(d: FreehandToolData, ctx: FreehandContext) {
    d.lastPoint != Position(ctx) && d.layer.Some?
  }

  /** `PointerMove` in `Drawing`: append an anchor at the pointer unless it is where the last one is. */
  function ExtendStroke(d: FreehandToolData, ctx: FreehandContext): (r: FreehandStep)
    ensures r.state == Drawing
    ensures AddsAnchor(d, ctx) ==>
              && r.data == d.(dragged := true, lastPoint := Position(ctx))
              && r.responses == [GraphOperation(AddEndManipulatorGroup(d.layer.value, 0, Position(ctx)))]
    ensures !AddsAnchor(d, ctx) ==> r.data == d && r.responses == []
  {
    if AddsAnchor(d, ctx) then
      Step(Drawing, d.(dragged := true, lastPoint := Position(ctx)),
           [GraphOperation(AddEndManipulatorGroup(d.layer.value, 0, Position(ctx)))])
    else Step(Drawing, d, [])
  }

  /** `DragStop` or `Abort` in `Drawing`: commit the stroke if it grew past its first anchor, abort it
      otherwise, and let go of the layer. */
  function FinishStroke(d: FreehandToolData): (r: FreehandStep)
    ensures r.state == Ready
    ensures r.data == d.(layer := None)
    ensures |r.responses| == 1
    ensures (Commit in r.responses <==> d.dragged) && (Cancel in r.responses <==> !d.dragged)
  {
    Step(Ready, d.(layer := None), [if d.dragged then Commit else Cancel])
  }

  /** The request to copy the working colours into the options. */
  function WorkingColorsUpdate(ctx: FreehandContext): Message {
    Tool(Freehand(UpdateOptions(WorkingColors(Some(ctx.primaryColor), Some(ctx.secondaryColor)))))
  }

  /** The (state, event) pairs with an arm of their own; every other pair changes nothing. */
  predicate Handled(s: FreehandToolFsmState, m: FreehandToolMessage) {
    || (s == Ready && m.DragStart?)
    || (s == Drawing && (m.PointerMove? || m.DragStop? || m.Abort?))
    || m.WorkingColorChanged?
  }

  /** `FreehandToolFsmState::transition`. */
  function Transition(s: FreehandToolFsmState, event: ToolMessage, d: FreehandToolData, options: FreehandOptions, ctx: FreehandContext): (r: FreehandStep)
    ensures !event.Freehand? ==> r == Step(s, d, [])
    ensures event.Freehand? && !Handled(s, event.freehand) ==> r == Step(s, d, [])
    ensures event == Freehand(WorkingColorChanged) ==> r == Step(s, d, [WorkingColorsUpdate(ctx)])
    ensures event == Freehand(FreehandToolMessage.DragStart) && s == Ready ==> r == StartStroke(options, ctx)
    ensures event == Freehand(FreehandToolMessage.PointerMove) && s == Drawing ==> r == ExtendStroke(d, ctx)
    ensures event.Freehand? && (event.freehand.DragStop? || event.freehand.Abort?) && s == Drawing ==> r == FinishStroke(d)
  {
    match event
    case Freehand(m) =>
      (match (s, m)
       case (Ready, DragStart) => StartStroke(options, ctx)
       case (Drawing, PointerMove) => ExtendStroke(d, ctx)
       case (Drawing, DragStop) => FinishStroke(d)
       case (Drawing, Abort) => FinishStroke(d)
       case (_, WorkingColorChanged) => Step(s, d, [WorkingColorsUpdate(ctx)])
       case _ => Step(s, d, []))
    case _ => Step(s, d, [])
  }

  /** The options reducer of `process_message`. Choosing a fill or stroke colour makes it the option's
      custom colour and switches the option to it; choosing a colour type or a weight changes that alone;
      new working colours reach both options. */
  function ApplyOptionsUpdate(options: FreehandOptions, update: FreehandOptionsUpdate): (r: FreehandOptions)
    ensures !update.LineWeight? ==> r.lineWeight == options.lineWeight
    ensures update.LineWeight? ==> r == options.(lineWeight := update.lineWeight)
    ensures (update.FillColor? || update.FillColorType?) ==> r.stroke == options.stroke
    ensures (update.StrokeColor? || update.StrokeColorType?) ==> r.fill == options.fill
    ensures update.FillColor? ==> r.fill.colorType == Custom && r.fill.ActiveColor() == update.fillColor
    ensures update.StrokeColor? ==> r.stroke.colorType == Custom && r.stroke.ActiveColor() == update.strokeColor
    ensures update.FillColorType? ==> r.fill.colorType == update.fillColorType
    ensures update.StrokeColorType? ==> r.stroke.colorType == update.strokeColorType
    ensures !update.WorkingColors? ==>
              && r.fill.primaryWorkingColor == options.fill.primaryWorkingColor
              && r.fill.secondaryWorkingColor == options.fill.secondaryWorkingColor
              && r.stroke.primaryWorkingColor == options.stroke.primaryWorkingColor
              && r.stroke.secondaryWorkingColor == options.stroke.secondaryWorkingColor
    ensures update.WorkingColors? ==>
              && r.fill.colorType == options.fill.colorType && r.fill.customColor == options.fill.customColor
              && r.stroke.colorType == options.stroke.colorType && r.stroke.customColor == options.stroke.customColor
              && r.fill.primaryWorkingColor == update.primary && r.fill.secondaryWorkingColor == update.secondary
              && r.stroke.primaryWorkingColor == update.primary && r.stroke.secondaryWorkingColor == update.secondary
    ensures (update.FillColorType? || update.StrokeColorType?) ==>
              r.fill.customColor == options.fill.customColor && r.stroke.customColor == options.stroke.customColor
  {
    match update
    case FillColor(c) => options.(fill := options.fill.(customColor := c, colorType := Custom))
    case FillColorType(t) => options.(fill := options.fill.(colorType := t))
    case LineWeight(w) => options.(lineWeight := w)
    case StrokeColor(c) => options.(stroke := options.stroke.(customColor := c, colorType := Custom))
    case StrokeColorType(t) => options.(stroke := options.stroke.(colorType := t))
    case WorkingColors(p, q) =>
      options.(fill := options.fill.(primaryWorkingColor := p, secondaryWorkingColor := q),
               stroke := options.stroke.(primaryWorkingColor := p, secondaryWorkingColor := q))
  }

  /** The whole tool: its state machine, its data and its options. */
  datatype FreehandToolInstance = FreehandToolInstance(fsmState: FreehandToolFsmState, data: FreehandToolData, options: FreehandOptions)

  const DefaultTool: FreehandToolInstance := FreehandToolInstance(Ready, DefaultData, DefaultOptions())

  /** `process_message`: an options update goes to the reducer and refreshes the options bar; every other
      message goes to the state machine. */
  function ProcessMessage(tool: FreehandToolInstance, message: ToolMessage, ctx: FreehandContext): (r: (FreehandToolInstance, seq<Message>))
    ensures message.Freehand? && message.freehand.UpdateOptions? ==>
              && r.0 == tool.(options := ApplyOptionsUpdate(tool.options, message.freehand.update))
              && r.1 == [SendLayout]
    ensures !(message.Freehand? && message.freehand.UpdateOptions?) ==>
              var step := Transition(tool.fsmState, message, tool.data, tool.options, ctx);
              r == (FreehandToolInstance(step.state, step.data, tool.options), step.responses)
  {
    if message.Freehand? && message.freehand.UpdateOptions? then
      (tool.(options := ApplyOptionsUpdate(tool.options, message.freehand.update)), [SendLayout])
    else
      var step := Transition(tool.fsmState, message, tool.data, tool.options, ctx);
      (FreehandToolInstance(step.state, step.data, tool.options), step.responses)
  }

  /** Kinds of freehand tool message, as the action list names them. */
  datatype FreehandAction = DragStartAction | DragStopAction | PointerMoveAction | AbortAction | OtherAction

  function ActionOf(m: FreehandToolMessage): FreehandAction {
    match m
    case DragStart => DragStartAction
    case DragStop => DragStopAction
    case PointerMove => PointerMoveAction
    case Abort => AbortAction
    case _ => OtherAction
  }

  /** `actions()`: the input actions the tool listens for in each state. */
  function Actions(s: FreehandToolFsmState): set<FreehandAction> {
    match s
    case Ready => {DragStartAction, DragStopAction, AbortAction}
    case Drawing => {DragStopAction, PointerMoveAction, AbortAction}
  }
}
