# Path tool and freehand tool state machines

This project models two interactive tools of the Graphite editor as pure state machines and proves
properties of them in Dafny.

- **The path tool** edits the points of vector shapes. Its states are `Ready`, `Dragging` and `DrawingBox`.
  - A press grabs the point under the cursor. Failing that, it grabs the shape under the cursor. Failing
    that, it starts a rubber-band box.
  - Pointer moves drag the selection. Alt toggles handle mirroring on its rising edge. Holding Shift caches
    the opposing handle lengths, and letting go of Shift restores them.
  - The release either selects the points inside the box or finishes the drag. Finishing a drag may
    isolate the clicked point.
  - Every other event has an arm of its own or a fallback.
  - The tool also classifies the current point selection as none, one or several (`get_selection_status`),
    and the tool options display that status.
- **The freehand tool** draws a polyline. Its states are `Ready` and `Drawing`.
  - A press opens a transaction and creates a one-anchor vector layer, with the fill and stroke the
    options choose.
  - Each pointer move that changes the position appends an anchor.
  - The release commits the stroke if it grew past its first anchor, and aborts it otherwise.
  - An options reducer updates the weight and the fill and stroke colours.

Every transition is a function from (state, tool data, event, context) to (state, tool data, responses).
The responses are ordered and include:

- the editor messages the tool sends;
- the calls it makes to collaborators whose bodies are not part of this model (the shape editor, overlays,
  snapping), each recorded as a token at the place the call happens.

The context record holds everything the tool reads from the editor during one step. That is the pointer,
the keyboard, and each collaborator's answer (hit tests, snapping, the drag-threshold test, the viewport
transform, new identifiers).

`Fsm.Run` feeds a sequence of inputs to a step function and keeps every response in order. The lemmas
about event sequences are stated over `Run`:

- a point drag;
- a rubber-band box;
- a whole freehand stroke;
- arbitrary event sequences from the default tool.

Transactions are counted with `Messages.OpenTransactions`. It counts the `StartTransaction` markers in a
response history, less the `CommitTransaction` and `AbortTransaction` markers.

Files:

| file | module | contents |
|---|---|---|
| fsm.dfy | `Fsm` | steps and runs of a state machine |
| basics.dfy | `Basics` | optional values, positions, identifiers |
| colors.dfy | `Colors` | colours and the tool colour options |
| vector.dfy | `Vector` | manipulator points, groups, subpaths |
| messages.dfy | `Messages` | tool messages, responses, collaborator-call tokens, transaction and move accounting |
| selection.dfy | `Selection` | the selection status and how the tool options show it |
| path_tool.dfy | `PathTool` | the path tool's transition |
| path_tool_properties.dfy | `PathToolProperties` | lemmas about the path tool over single steps and event sequences |
| freehand_tool.dfy | `FreehandTool` | the freehand tool's transition and options reducer |
| freehand_tool_properties.dfy | `FreehandToolProperties` | lemmas about the freehand tool |

## Model

| member | source | states |
|---|---|---|
| Selection.GetSelectionStatus | editor/src/messages/tool/tool_messages/path_tool.rs:579-624 | No selected point gives `None`. `Multiple` comes exactly when more than one point is selected, and carries the shape editor's aggregate angle. `One` comes only for exactly one selected point, and the point it describes is a selected one. Its angle is `Smooth` exactly when the point's group is in the layer's mirror set, and `Sharp` exactly when it is not. |
| Selection.SingleSelectionStatus | editor/src/messages/tool/tool_messages/path_tool.rs:584-614 | With one point selected, the status is `One` exactly when every document lookup succeeds, and `None` otherwise. A `One` status gives that point's layer and id, its position mapped to document space, and `Smooth` exactly when its group is mirrored. |
| Selection.DisplayedAngle | editor/src/messages/tool/tool_messages/path_tool.rs:83-87 | The options show an angle exactly when some point is selected: the multiple selection's angle, or else the single point's. |
| Selection.AngleRadioIndex | editor/src/messages/tool/tool_messages/path_tool.rs:122-126 | The radio highlights entry 0 exactly for Smooth and entry 1 exactly for Sharp. A Mixed or absent angle highlights nothing. |
| Selection.ShownCoordinates | editor/src/messages/tool/tool_messages/path_tool.rs:80-81 | The X/Y fields show coordinates exactly when one point is selected, and then they show that point's coordinates. |
| Selection.SinglePointHighlightsRadio | editor/src/messages/tool/tool_messages/path_tool.rs:122-126 | A `One` status always highlights a radio entry. The Smooth entry is highlighted exactly when the point's group is mirrored. |
| Vector.AnchorHandlesShape | editor/src/messages/tool/tool_messages/path_tool.rs:281-292 | The expansion adds exactly two entries per anchor. Each added entry is a handle whose own anchor is in the list. Every anchor in the list gets both its in-handle and its out-handle. |
| Vector.WithAnchorHandlesShape | editor/src/messages/tool/tool_messages/path_tool.rs:280-293 | The extended list starts with the original points. Its length grows by twice the number of anchors. It contains no anchor that was not already listed, and it contains both handles of every listed anchor. |
| PathTool.MouseDown | editor/src/messages/tool/tool_messages/path_tool.rs:238-267 | The press asks for the point under the cursor first, and every branch clears the length cache. A point hit goes to `Dragging`, opens a transaction and places the previous position at the cursor less the grab offset. Otherwise a shape hit goes to `Dragging` without a transaction and selects the layer: it asks to add the layer exactly when Shift is held, and to replace the selection with it exactly when Shift is not held. Otherwise a box is created with its start equal to the previous position, and the state is `DrawingBox`. |
| PathToolProperties.MouseDownOpensOnce | editor/src/messages/tool/tool_messages/path_tool.rs:242-271 | A press opens exactly one transaction when it grabs a point and none otherwise. |
| PathTool.Drag | editor/src/messages/tool/tool_messages/path_tool.rs:302-323 | `alt_debounce` becomes the current Alt state. With Shift held a cache is always present afterwards. The cache is computed fresh only when none is present, or when the Alt toggle dropped it. With Shift released the cache ends empty. The last response moves the points by the snapped position less the previous one, which is the total displacement asked for. The previous position ends at the snapped position, and no transaction is opened or closed. |
| PathToolProperties.DragRequests | editor/src/messages/tool/tool_messages/path_tool.rs:304-317 | Mirroring is toggled exactly when Alt is held now and was not before. The cached lengths `c` are restored exactly when Shift is released, there was no toggle, and the cache held `c`. |
| PathToolProperties.DragTogglesOnce | editor/src/messages/tool/tool_messages/path_tool.rs:304-307 | One `drag` toggles mirroring once on Alt's rising edge and not at all otherwise. |
| PathTool.ReleaseBox | editor/src/messages/tool/tool_messages/path_tool.rs:385-413 | The release always ends in `Ready` and takes the box overlay, removing it. A box with no extent clears the layer selection and makes no shape-editor call. Otherwise the first response selects the quad between the two corners, replacing the selection unless Shift is held. The selected-point update follows a `DragStop` but not an `Enter`. |
| PathTool.ReleaseDrag | editor/src/messages/tool/tool_messages/path_tool.rs:415-436 | Releasing a drag always ends in `Ready`, cleans up zero-length handles first, and ends with the point update and the snap cleanup. The selection is rewritten only when the pointer stayed within the drag threshold, Shift is not held and the point under it was already selected. The rewrite is a deselect-all, then a reselect at the pointer, and it also forgets the length cache. Otherwise no further shape-editor call is made and the data are unchanged. |
| PathTool.RepositionSelected | editor/src/messages/tool/tool_messages/path_tool.rs:475-486 | The point is repositioned only when the status is `One`. It gets the new value on the changed axis and keeps the stored coordinate on the other. With a `None` or `Multiple` status nothing is emitted. The state is always `Ready`. |
| PathTool.SetAngle | editor/src/messages/tool/tool_messages/path_tool.rs:491-503 | The angle commands open a transaction first and commit it last, with no other marker in between. They set mirroring to the chosen angle and never to the other one, and they smooth the groups exactly for Smooth. |
| PathToolProperties.SetAngleOneTransaction | editor/src/messages/tool/tool_messages/path_tool.rs:491-503 | An angle command emits `StartTransaction` exactly once and `CommitTransaction` exactly once. |
| PathTool.InsertPoint | editor/src/messages/tool/tool_messages/path_tool.rs:447-456 | The tool tries to flip the sharpness under the cursor. It splits the path exactly when the flip fails, then asks for a point update. State and data are kept. |
| PathTool.RenderEach | editor/src/messages/tool/tool_messages/path_tool.rs:357-359 | One overlay render request per selected layer, in order. |
| PathTool.Transition | editor/src/messages/tool/tool_messages/path_tool.rs:338-505 | A message for another tool changes nothing. `SelectionChanged`, `DocumentIsDirty`, `InsertPoint`, `SelectedPointUpdated` and `PointerMove` keep the state, and a pointer move in `Ready` does nothing at all. A press never ends in `Ready`. `Enter` outside `DrawingBox` falls through to `Ready` with nothing emitted. Every other event ends in `Ready`. |
| PathToolProperties.TransitionArms | editor/src/messages/tool/tool_messages/path_tool.rs:343-490 | `SelectedPointUpdated` stores the status of the current selection and changes nothing else. `Abort` forgets the pending box and removes its overlay. A selection change or select-all refreshes the overlays, which forgets the length cache and nothing else. `DocumentIsDirty` keeps the data and ends with a point update. |
| PathTool.ProcessMessage | editor/src/messages/tool/tool_messages/path_tool.rs:140-148 | The tool takes the transition's state and data. Its responses begin with the transition's responses, and at most one response follows them. The options layout is refreshed if and only if the message is `SelectedPointUpdated`. |
| PathTool.TransitionSendsNoLayout | editor/src/messages/tool/tool_messages/path_tool.rs:330-505 | No arm of the transition asks for the options layout itself, so the layout refresh comes only from `process_message`. |
| PathToolProperties.TransitionOpens | editor/src/messages/tool/tool_messages/path_tool.rs:338-505 | A step opens a transaction exactly for a press that grabs a point, `Delete`, or an angle command. |
| PathToolProperties.TransitionOpensOnce | editor/src/messages/tool/tool_messages/path_tool.rs:338-505 | Such a step opens exactly one transaction, and every other step opens none. |
| PathToolProperties.TransitionCloses | editor/src/messages/tool/tool_messages/path_tool.rs:338-505 | Only the angle commands commit a transaction, and the path tool never aborts one. |
| PathToolProperties.DragRunData | editor/src/messages/tool/tool_messages/path_tool.rs:302-323 | Over any number of drags, the tool stays in `Dragging` and keeps the press position. The previous position is the last snapped position, and the Alt debounce is the last Alt state. |
| PathToolProperties.DraggingIsDragRun | editor/src/messages/tool/tool_messages/path_tool.rs:377-383 | Pointer moves while dragging are exactly the sequence of their `drag` steps. |
| PathToolProperties.DragRunTravel | editor/src/messages/tool/tool_messages/path_tool.rs:319-322 | Over a sequence of drags, the points are asked to travel in total from the first previous position to the last snapped position. |
| PathToolProperties.DragRunToggles | editor/src/messages/tool/tool_messages/path_tool.rs:304-308 | Over a sequence of drags, mirroring is toggled once per rising edge of Alt. |
| PathToolProperties.DragRunTransactions | editor/src/messages/tool/tool_messages/path_tool.rs:302-323 | A sequence of drags opens and closes no transaction. |
| PathToolProperties.ShiftHeldCachesOnce | editor/src/messages/tool/tool_messages/path_tool.rs:310-313 | While Shift stays held and Alt never rises, the opposing lengths are computed at most once and never reset. A cache present at the start is kept; otherwise the first move's snapshot is kept. |
| PathToolProperties.BoxRun | editor/src/messages/tool/tool_messages/path_tool.rs:371-376 | Pointer moves while drawing a box keep `DrawingBox` and only update the box overlay. The previous position ends at the last pointer position. |
| PathToolProperties.PressOnNothing | editor/src/messages/tool/tool_messages/path_tool.rs:260-267 | A press that hits neither a point nor a shape creates a box overlay. Both box corners start at the cursor, and no transaction is opened. |
| PathToolProperties.ReleaseWhileBoxing | editor/src/messages/tool/tool_messages/path_tool.rs:400-413 | A `DragStop` while drawing a box is a box release. |
| PathToolProperties.BoxGesture | editor/src/messages/tool/tool_messages/path_tool.rs:366-413 | A whole rubber-band gesture ends in `Ready` with its overlay created and removed, and it opens no transaction. It clears the layer selection exactly when the last pointer position is the press position; otherwise it selects the quad, replacing the selection unless Shift is held. |
| PathToolProperties.PressOnPoint | editor/src/messages/tool/tool_messages/path_tool.rs:242-247 | A press on a point goes to `Dragging` and opens one transaction, moving nothing. The previous position is the cursor less the grab offset. |
| PathToolProperties.PointerMovesWhileDragging | editor/src/messages/tool/tool_messages/path_tool.rs:377-383 | Pointer moves while dragging stay in `Dragging` and travel from the previous position to the last snapped position. They emit no transaction marker. |
| PathToolProperties.ReleaseWhileDragging | editor/src/messages/tool/tool_messages/path_tool.rs:415-436 | Releasing a drag ends in `Ready`, emits no transaction marker and moves nothing. |
| PathToolProperties.PointDragGesture | editor/src/messages/tool/tool_messages/path_tool.rs:366-436 | A whole point drag ends in `Ready` and opens exactly one transaction, which it neither commits nor aborts. It moves the points in total from the grabbed position to the last snapped position. |
| PathToolProperties.ActionsFollowGesture | editor/src/messages/tool/tool_messages/path_tool.rs:151-179 | Only `Ready` listens for a press. Pointer moves and the release are listened for exactly outside `Ready`. `Enter` is listened for exactly in `Ready` and `DrawingBox`. Every state listens for insert, delete and select-all. |
| PathToolProperties.ActionsMatchTransition | editor/src/messages/tool/tool_messages/path_tool.rs:151-179 | Every event a state listens for changes something in that state, except `Enter` in `Ready`, which is listened for but falls through to the default arm. A pointer move is listened for exactly in the states where its arm does something. |
| PathToolProperties.StatusGuardsReposition | editor/src/messages/tool/tool_messages/path_tool.rs:475-490 | After a status update, a change of the X field repositions a point exactly when one point is selected and its document lookups succeed. It then moves that point to the new X and its current document Y, and with any other number of selected points it does nothing. |
| Colors.NewNone | editor/src/messages/tool/tool_messages/freehand_tool.rs:32 | The "none" colour option stands for no colour. |
| Colors.NewPrimary | editor/src/messages/tool/tool_messages/freehand_tool.rs:33 | The "primary" colour option stands for the primary working colour. |
| FreehandTool.DefaultOptions | editor/src/messages/tool/tool_messages/freehand_tool.rs:28-36 | The default weight is 5, the fill stands for no colour, and the stroke stands for the primary working colour. |
| FreehandTool.FillOf | editor/src/messages/tool/tool_messages/freehand_tool.rs:219 | The fill is solid exactly when the fill option has an active colour, and then it uses that colour; otherwise there is no fill. |
| FreehandTool.StartStroke | editor/src/messages/tool/tool_messages/freehand_tool.rs:201-227 | A press goes to `Drawing`. It emits `StartTransaction`, then `DeselectAllLayers`, then the new one-anchor layer at the pointer, its fill, and its stroke with the options' weight. The tool data record the pointer, `dragged = false`, the weight and the new layer. |
| FreehandTool.ExtendStroke | editor/src/messages/tool/tool_messages/freehand_tool.rs:229-242 | A pointer move appends exactly one anchor, and sets `dragged` and the last point, exactly when the position changed and a layer is held. Otherwise the data are unchanged and nothing is emitted. The state stays `Drawing`. |
| FreehandTool.FinishStroke | editor/src/messages/tool/tool_messages/freehand_tool.rs:244-254 | A release or abort emits one response: `CommitTransaction` exactly when the stroke was dragged, `AbortTransaction` otherwise. It lets go of the layer and goes to `Ready`. |
| FreehandTool.Transition | editor/src/messages/tool/tool_messages/freehand_tool.rs:197-263 | A message for another tool, and any pair without an arm, changes nothing. `WorkingColorChanged` in any state keeps the state and asks to copy the working colours into the options. The three gesture arms are the press, move and release steps. |
| FreehandTool.ApplyOptionsUpdate | editor/src/messages/tool/tool_messages/freehand_tool.rs:127-145 | A colour choice becomes the option's custom colour and switches the option to the custom type. A colour type or a weight changes only that field. Working colours are set on both fill and stroke. Nothing else changes. |
| FreehandTool.ProcessMessage | editor/src/messages/tool/tool_messages/freehand_tool.rs:122-148 | An options update runs the reducer, leaves state and data untouched and refreshes the layout. Any other message runs the transition and leaves the options untouched. |
| FreehandToolProperties.StartStrokeOpensOne | editor/src/messages/tool/tool_messages/freehand_tool.rs:201-227 | A press opens exactly one transaction and closes none. |
| FreehandToolProperties.FinishStrokeCloses | editor/src/messages/tool/tool_messages/freehand_tool.rs:244-249 | A release closes exactly one transaction. |
| FreehandToolProperties.TransitionKeepsConsistent | editor/src/messages/tool/tool_messages/freehand_tool.rs:200-263 | Every transition keeps this invariant: the tool is `Drawing` exactly when it holds a layer. |
| FreehandToolProperties.TransitionBalancesTransactions | editor/src/messages/tool/tool_messages/freehand_tool.rs:200-263 | The transaction count of each step's responses is the change in the number of open strokes. A step emits `StartTransaction` if and only if it goes from `Ready` to `Drawing`. It emits a commit or an abort if and only if it goes from `Drawing` to `Ready`. |
| FreehandToolProperties.ToolStepInvariant | editor/src/messages/tool/tool_messages/freehand_tool.rs:122-148 | Options updates included, one message keeps the tool consistent. The transactions it leaves open match the change of state. |
| FreehandToolProperties.RunToolInvariant | editor/src/messages/tool/tool_messages/freehand_tool.rs:122-126 | From a consistent tool, any message sequence keeps the tool consistent. The transactions its responses leave open are one if it ends drawing, less one if it started drawing. |
| FreehandToolProperties.FromDefault | editor/src/messages/tool/tool_messages/freehand_tool.rs:178-184 | From the default tool, after any message sequence, the tool is `Drawing` exactly when it holds a layer. That is exactly when one transaction is left open; otherwise none is. |
| FreehandToolProperties.PolylineShape | editor/src/messages/tool/tool_messages/freehand_tool.rs:229-242 | The polyline a stroke draws starts at the press and ends at the last pointer position. It never repeats a point twice in a row. |
| FreehandToolProperties.MoveStep | editor/src/messages/tool/tool_messages/freehand_tool.rs:229-242 | A pointer move while drawing is the extend step, with the options untouched. |
| FreehandToolProperties.ExtendAnchors | editor/src/messages/tool/tool_messages/freehand_tool.rs:232-239 | While drawing on a layer, one pointer move appends the pointer as an anchor exactly when it moved. |
| FreehandToolProperties.DrawingRun | editor/src/messages/tool/tool_messages/freehand_tool.rs:229-242 | Pointer moves while drawing keep drawing on the same layer with the same weight. The last point ends at the end of the polyline through the pointer positions, and the stroke counts as dragged once an anchor was added. |
| FreehandToolProperties.DrawingRunAnchors | editor/src/messages/tool/tool_messages/freehand_tool.rs:229-242 | The anchors that pointer moves append are the polyline through the pointer positions, after its first point. |
| FreehandToolProperties.DrawingRunTransactions | editor/src/messages/tool/tool_messages/freehand_tool.rs:229-242 | Pointer moves while drawing open and close no transaction. |
| FreehandToolProperties.PressStarts | editor/src/messages/tool/tool_messages/freehand_tool.rs:201-227 | A press from `Ready` is a stroke start that keeps the options. |
| FreehandToolProperties.PressOpensOne | editor/src/messages/tool/tool_messages/freehand_tool.rs:201-203 | A press from `Ready` opens one transaction. |
| FreehandToolProperties.StartStrokeAddsNoAnchor | editor/src/messages/tool/tool_messages/freehand_tool.rs:212-214 | The press appends no anchor; its one point comes with the new layer. |
| FreehandToolProperties.ReleaseFinishes | editor/src/messages/tool/tool_messages/freehand_tool.rs:244-254 | A release while drawing ends in `Ready` without a layer, and commits exactly when the stroke was dragged. |
| FreehandToolProperties.StrokeStages | editor/src/messages/tool/tool_messages/freehand_tool.rs:201-254 | A stroke is its press, its moves and its release run one after the other. The release commits exactly when the polyline has more than one point. |
| FreehandToolProperties.StrokeGesture | editor/src/messages/tool/tool_messages/freehand_tool.rs:201-254 | A whole stroke's third response creates the new layer with one anchor at the press. It returns to `Ready` holding no layer, with the options untouched. |
| FreehandToolProperties.StrokeGestureTransactions | editor/src/messages/tool/tool_messages/freehand_tool.rs:201-254 | A whole stroke leaves no transaction open. |
| FreehandToolProperties.StrokeGestureAnchors | editor/src/messages/tool/tool_messages/freehand_tool.rs:201-242 | The press point followed by the anchors a stroke appends is the polyline through the press and the pointer positions. |
| FreehandToolProperties.StrokeGestureOutcome | editor/src/messages/tool/tool_messages/freehand_tool.rs:244-249 | A stroke ends by committing exactly when its polyline has more than one point, and by aborting otherwise. |
| FreehandToolProperties.OptionsUpdateIdempotent | editor/src/messages/tool/tool_messages/freehand_tool.rs:127-145 | Applying the same options update twice is applying it once. |
| FreehandToolProperties.OptionsUpdatesCommute | editor/src/messages/tool/tool_messages/freehand_tool.rs:127-145 | A fill update commutes with a stroke update and with a weight update. |
| FreehandToolProperties.PrimaryFollowsWorkingColor | editor/src/messages/tool/tool_messages/freehand_tool.rs:132-144 | A fill switched to the primary type stands for the primary working colour once the working colours are copied in. |
| FreehandToolProperties.ActionsCoverHandled | editor/src/messages/tool/tool_messages/freehand_tool.rs:150-165 | Each state listens for every event that has an arm of its own there, except `WorkingColorChanged`, which arrives through the event map. The only events listened for without an arm are `DragStop` and `Abort` in `Ready`. |

## Left out

- Layout, hints and cursor: the widget layout (`layout`, `create_weight_widget`) is left out, except how the selection status is shown. The hint and cursor messages (`update_hints`, `update_cursor`) and the trait's `process_event` wrapper that sends them after a transition are left out too. They are constant UI data.
- The event-to-message maps of both tools are left out. They route editor events to tool messages and hold no logic.
- Shape editor operations: their bodies are not part of this model. Each becomes a token in the response list, with no contract. These are `select_point`, `select_all_in_quad`, `select_all_anchors`, `move_selected_points`, `toggle_handle_mirroring_on_selected`, `reset_opposing_handle_lengths`, `delete_selected_handles_with_zero_length`, `deselect_all`, `flip_sharp`, `split`, `delete_selected_points`, `select_all_points`, `reposition_control_point`, `set_handle_mirroring_on_selected`, `set_selected_layers` and `smooth_selected_groups`.
- Collaborator answers: the answers of `select_point`, `click`, `find_nearest_point_indices`, `flip_sharp` and `opposing_handle_lengths` come from the step's context. So do `selected_manipulator_angles`, the selected layers and the shape selection. The model does not follow how the shape editor's own calls change them within one step.
- Overlays are recorded as tokens. That covers `refresh_overlays`' visibility and render loops, `render_subpath_overlays`, `clear_all_overlays`, and the bounding-box helpers. `add_bounding_box`'s returned overlay handle comes from the context.
- Snapping: `snap_position` is a function in the context and `cleanup` is a token. The snapping code that is commented out is not modelled.
- Geometry: positions and displacements are integer pairs rather than `f64`, and the line weight is a real. `distance(..) <= DRAG_THRESHOLD` is a predicate in the context, and the viewport-to-document transform is a function in the context. The mantissa bounds of the number inputs are left out.
- Identifiers: `generate_uuid` and `new_layer_parent` supply values through the context. Node-graph and document storage are left out.
- Vector.FindGroup: `get_manipulator_from_id` and `get_position` are not part of this model. The model looks up the first group with the id across the layer's subpaths, and a handle's position is its optional coordinate.
- FreehandTool.StartStroke: the responses of `new_vector_layer` are one `NewVectorLayer` token. This is because graph_modification_utils.rs is not part of this model.
- Colors: color_selector.rs is not part of this model. `ToolColorOptions` is modelled with a custom colour, two working colours and a colour type, and the active colour follows the type. `new_none` is a custom option without a colour and `new_primary` is a primary option; both start without working colours.
- Path tool transactions: the path tool opens a transaction for a point drag and for `Delete`, and never closes either itself. No commit property is stated for them; `TransitionCloses` states that only the angle commands commit.
- frontend/src/state-providers/portfolio.ts is left out. It is asynchronous I/O plumbing for files, the clipboard and rasterisation.
