# Figma-clone document state, in Dafny

This project models the document state of a small in-browser vector editor and
the transitions applied to it:

- the layer record (`src/types/index.ts`): a three-way shape tag, mandatory
  geometry and fill, optional stroke and text properties;
- the store (`src/store/useFigmaStore.ts`): a canvas viewport (zoom and
  offset), a flat list of layers and a list of selected identifiers, with the
  five update functions `setZoom`, `setOffset`, `addLayer`, `selectLayer` and
  `updateLayer`;
- the canvas input rules (`src/components/Canvas/Stage.tsx`): shape click,
  stage mouse-down, shape and stage drag-end, rectangle transform-end, the
  minimum-size bound on the transformer box, and wheel zoom-to-cursor;
- the "Add Interaction" form (`src/components/AddInteraction.tsx`): the add
  guard, the emitted interaction, the reset after an add, the target
  drop-down and the preview labels.

Every store update is a pure function from the old state to the new one.
Numbers are `real`. The modules follow the source files: `Types`, `Store`,
`Stage` and `Interaction`.

What the code does, and the model with it:

- there is no history, grouping, alignment, clipboard or deletion;
- `addLayer` does not select the new layer;
- `selectLayer('')` leaves the selection `['']`, not empty;
- `setZoom` and the wheel do not clamp the zoom;
- `updateLayer` validates nothing, so a negative width is stored;
- the stage's drag-end handler does not check what was dragged, so the
  drag-end of a shape, which bubbles up to the stage, also sets the canvas
  offset to the shape's position.

Two consequences of the code as written are proved:

- The form's target drop-down lists only layers whose type is `'frame'`. No
  store layer has that type, so over the store's layers the only value the
  drop-down offers is the empty one, and the add guard never passes
  (`Interaction.NoInteractionFromStore`).
- Store layers have no `name` property, so the preview always calls the
  target "target" (`Interaction.StoreTargetName`).

Both assume the form is given the store's layers. In the code, no component
renders the form (`src/App.tsx` mounts only the toolbar, the sidebars and the
stage), so which layers it would receive is not fixed by the code.

## Model

| member | source | states |
|---|---|---|
| Types.ParseType | src/types/index.ts:8 | A type spelling is accepted exactly when it is "rectangle", "ellipse" or "text", and it reads back as the tag with that spelling. |
| Types.ParseTypeName | src/types/index.ts:8 | Every tag spells to a string that reads back as the same tag, so the three spellings are distinct. |
| Types.Get | src/types/index.ts:6-14 | `id`, `type`, `x`, `y`, `width`, `height`, `rotation` and `fill` are present on every layer of every variant. |
| Types.GetExtensional | src/types/index.ts:6-21 | Two layers that agree on every property are equal, so the property view loses nothing. |
| Types.OptionalFieldsOnEveryVariant | src/types/index.ts:15-20 | Stroke and text properties do not depend on the variant: retagging keeps them, and each may be missing on any variant. |
| Store.Init | src/store/useFigmaStore.ts:19-24 | The editor starts at zoom 1 and offset (0, 0), with no layers and an empty selection. |
| Store.SetZoom | src/store/useFigmaStore.ts:26 | The zoom becomes exactly the given value, with no clamping; offset, layers and selection are kept. |
| Store.SetOffset | src/store/useFigmaStore.ts:27 | The offset becomes the given point; zoom, layers and selection are kept. |
| Store.AddLayer | src/store/useFigmaStore.ts:28 | The list grows by one: the old layers are an unchanged prefix, the new layer is last, and selection and canvas are untouched. |
| Store.SelectLayer | src/store/useFigmaStore.ts:29 | The selection becomes the one-element list of the identifier, including `[""]`, whether or not a layer has it; layers and canvas are kept. |
| Store.Merge | src/store/useFigmaStore.ts:33 | Shallow merge: every property the patch names takes the patch's value, every other property keeps the layer's value. |
| Store.MergeNoChange | src/store/useFigmaStore.ts:33 | Merging a patch that names no property gives back the layer. |
| Store.MergeCombine | src/store/useFigmaStore.ts:33 | Two successive merges equal one merge with the combined patch, in which the later patch wins. |
| Store.MergeIdempotent | src/store/useFigmaStore.ts:33 | Merging the same patch twice equals merging it once. |
| Store.UpdateLayers | src/store/useFigmaStore.ts:32-34 | The list keeps its length and order; layers with the identifier are merged, all other layers are kept. |
| Store.UpdateLayer | src/store/useFigmaStore.ts:30-35 | Only the layer list changes; on matching layers each named property is overwritten and the rest kept; other layers, selection and canvas are unchanged. |
| Store.UpdateMissingId | src/store/useFigmaStore.ts:32-34 | When no layer has the identifier, the update leaves the state unchanged. |
| Store.UpdateIdempotent | src/store/useFigmaStore.ts:30-35 | Applying the same update twice equals applying it once, even when the patch renames the layer. |
| Store.UpdateCombine | src/store/useFigmaStore.ts:30-35 | Two updates of one layer equal one update with the combined patch, unless the first update renames the layer. |
| Store.UpdateAfterAdd | src/store/useFigmaStore.ts:28-35 | Updating a just-added layer with a new identifier equals adding the merged layer. |
| Store.UpdateUniqueTouchesOne | src/store/useFigmaStore.ts:32-34 | With unique identifiers, an update replaces exactly the one matching position and nothing else. |
| Store.UpdateStoresNegativeWidth | src/store/useFigmaStore.ts:32-34 | No validation: a negative width written by an update is stored as given. |
| Stage.HandleShapeClick | src/components/Canvas/Stage.tsx:9-12 | Clicking a shape leaves the selection exactly `[id]`; layers and canvas are kept. |
| Stage.HandleStageMouseDown | src/components/Canvas/Stage.tsx:14-18 | A mouse-down on the stage itself leaves the selection `[""]`; a mouse-down on a shape changes nothing. |
| Stage.ShapeDragEnd | src/components/Canvas/Stage.tsx:78-83 | The shape's own handler: the dragged layer takes the node's x and y and keeps every other property; other layers, selection and canvas are unchanged. This applies to rectangles, ellipses and text alike (lines 117-122 and 139-144). |
| Stage.DragTwiceLastWins | src/components/Canvas/Stage.tsx:78-83 | Two drag-ends of the same shape equal the second one alone. |
| Stage.StageDragEnd | src/components/Canvas/Stage.tsx:32-37 | The stage's handler, which runs for any drag-end that reaches the stage: the canvas offset becomes the dragged node's position; zoom, layers and selection are kept. |
| Stage.DragEnd | src/components/Canvas/Stage.tsx:32-37 | A drag of the stage only moves the offset. A drag of a shape runs the shape's handler (lines 78-83) and then the stage's: the shape takes the position and the canvas offset becomes the same position. The zoom and selection are kept either way. |
| Stage.ShapeDragMovesCanvas | src/components/Canvas/Stage.tsx:32-37 | Dragging a shape to any position other than the current offset changes the viewport. |
| Stage.RectangleTransformEnd | src/components/Canvas/Stage.tsx:84-97 | When the node is found, the layer takes the node's position and rotation and width×scaleX and height×scaleY, and the node's scale is reset to 1. When it is not found, nothing changes. Other layers, selection and canvas are always kept. |
| Stage.TransformEndKeepsDrawnBox | src/components/Canvas/Stage.tsx:84-97 | Baking the scale in keeps what is on screen: the committed layer drawn on the reset node has the extent, position and rotation the transformer left. |
| Stage.BoundBox | src/components/Canvas/Stage.tsx:155-161 | The result is the old box or the new one. It is the new one exactly when both of the new box's sides are at least 5, or when the new box equals the old one. If the old box has both sides at least 5, so does the result. |
| Stage.ResizeGesture | src/components/Canvas/Stage.tsx:155-161 | Over a whole gesture of successive calls from a box with both sides at least 5, every box keeps both sides at least 5, and it is the start box or one of the proposals. |
| Stage.ScreenWorldRoundTrip | src/components/Canvas/Stage.tsx:26-29 | The stage's scale and position define screen = zoom × world + offset; at nonzero zoom, world-to-screen and screen-to-world are inverse. |
| Stage.WheelZoom | src/components/Canvas/Stage.tsx:38-53 | A positive delta divides the zoom by 1.1, any other delta multiplies it by 1.1, and the result is not clamped. The world point under the pointer before the notch is still under it after. |
| Stage.WheelFixesPointer | src/components/Canvas/Stage.tsx:43-53 | The handler's offset arithmetic puts the old world point back under the pointer at any nonzero new zoom. |
| Stage.WheelOffset | src/components/Canvas/Stage.tsx:50-53 | The new offset is the pointer minus the new zoom times the old world point under the pointer. |
| Stage.OnWheel | src/components/Canvas/Stage.tsx:38-53 | Through the store, a positive delta divides the zoom by 1.1 and any other delta multiplies it by 1.1. The world point under the pointer stays fixed, and layers and selection are kept. |
| Stage.SameZoomSameWorldPoint | src/components/Canvas/Stage.tsx:26-29 | A viewport is determined by its zoom together with the world point it shows at one screen point. |
| Stage.WheelInThenOut | src/components/Canvas/Stage.tsx:48 | One notch in and then one notch out at the same pointer restore the viewport exactly. |
| Stage.WheelOutThenIn | src/components/Canvas/Stage.tsx:48 | One notch out and then one notch in at the same pointer restore the viewport exactly. |
| Stage.WheelFromIdentity | src/components/Canvas/Stage.tsx:40-53 | From zoom 1 and offset (0, 0), one notch in at (100, 100) gives zoom 1.1 and offset (-10, -10). |
| Stage.WheelNotClamped | src/components/Canvas/Stage.tsx:48-49 | One notch in at zoom 5 gives zoom 5.5: there is no upper bound. |
| Interaction.Choose | src/components/AddInteraction.tsx:110-195 | Each control (trigger button, action, target, animation) writes its own field of the draft and keeps the other three. |
| Interaction.HandleAdd | src/components/AddInteraction.tsx:61-78 | An interaction is emitted exactly when target, trigger and action are non-empty. It copies them and uses the animation, or "none" when that is empty, and its id is "interaction-" plus the stamp. After an emit the form closes and resets to click / navigate-to / "" / none; otherwise nothing changes. |
| Interaction.DisabledAddDoesNothing | src/components/AddInteraction.tsx:226-229 | With no target chosen, pressing add emits nothing and keeps the draft. |
| Interaction.Frames | src/components/AddInteraction.tsx:169-170 | The filter keeps exactly the layers whose type is "frame". |
| Interaction.FramesSingle | src/components/AddInteraction.tsx:169-170 | A single layer is kept exactly when it is a frame. |
| Interaction.FramesAppend | src/components/AddInteraction.tsx:169-170 | The filter keeps order and multiplicity: the frames of a concatenation are the frames of each part, in order. |
| Interaction.FrameChoice | src/components/AddInteraction.tsx:172-174 | A frame's drop-down entry has the frame's identifier as value and a non-empty label. The label is its name when that is present and non-empty, and "Frame " followed by the identifier otherwise. |
| Interaction.TargetChoices | src/components/AddInteraction.tsx:168-175 | The drop-down starts with the placeholder, whose value is empty, and then has exactly one entry per frame, in the filter's order. |
| Interaction.NoFrameTargets | src/components/AddInteraction.tsx:169-170 | No store layer is a frame, so over the store's layers the drop-down holds only the placeholder. |
| Interaction.DefaultFromControls | src/components/AddInteraction.tsx:26-31 | The initial draft's trigger, action and animation are values the controls offer, and its empty target is the drop-down's placeholder. |
| Interaction.AddFromControls | src/components/AddInteraction.tsx:61-62 | When trigger, action and animation come from the controls, the add guard passes exactly when a target is chosen. |
| Interaction.NoInteractionFromStore | src/components/AddInteraction.tsx:159-176 | Over the store's layers, a draft whose target comes from the drop-down never passes the add guard. |
| Interaction.TriggerLabel | src/components/AddInteraction.tsx:82 | The label is non-empty exactly for the four trigger values, and it has no upper-case letter. |
| Interaction.TriggerLabelAt | src/components/AddInteraction.tsx:35-40 | For each trigger in the table, the preview label is that trigger's button label in lower case. |
| Interaction.TriggerLabels | src/components/AddInteraction.tsx:35-40 | The four previews are "on click", "on hover", "on press" and "on key press". |
| Interaction.ReplaceFirst | src/components/AddInteraction.tsx:83 | Only the first occurrence of the character is replaced. All other characters are kept, and a string without the character is returned unchanged. |
| Interaction.ActionLabel | src/components/AddInteraction.tsx:83 | "navigate-to" reads "navigate to"; an action without a dash is its own label; the length is kept. |
| Interaction.DashAt | src/components/AddInteraction.tsx:83 | When the first dash is at index k, the label is the part before k, a space, and the part after k. |
| Interaction.NavigateLabelIsGeneralRule | src/components/AddInteraction.tsx:83 | The special case for "navigate-to" gives the same label as the general first-dash rule. |
| Interaction.OpenOverlayLabel | src/components/AddInteraction.tsx:83 | "open-overlay" reads "open overlay". |
| Interaction.CloseOverlayLabel | src/components/AddInteraction.tsx:83 | "close-overlay" reads "close overlay". |
| Interaction.BackLabel | src/components/AddInteraction.tsx:83 | "back" reads "back". |
| Interaction.OpenLinkLabel | src/components/AddInteraction.tsx:83 | "open-link" reads "open link". |
| Interaction.SwapVisibilityLabel | src/components/AddInteraction.tsx:83 | "swap-visibility" reads "swap visibility". |
| Interaction.ActionLabelFirstDashOnly | src/components/AddInteraction.tsx:83 | Only the first dash is replaced: "a-b-c" reads "a b-c". |
| Interaction.FindIndex | src/components/AddInteraction.tsx:84 | The lookup finds the first layer with the identifier, or none exactly when no layer has it. |
| Interaction.TargetName | src/components/AddInteraction.tsx:84 | The name is never empty. When the first layer with the identifier has a non-empty display name, the result is that name. When it has none, or no layer has the identifier, the result is "target". |
| Interaction.StoreTargetName | src/components/AddInteraction.tsx:84 | Over the store's layers, which have no display name, the preview always says "target". |
| Interaction.AnimationLabel | src/components/AddInteraction.tsx:85 | The label is empty exactly for "none" or an empty animation; otherwise it is the animation itself. |

## Left out

- Rendering is left out: Konva shapes, the selection highlight stroke and window sizing. Hit-testing (which target a mouse-down hit), node lookup (`findOne`) and the pointer position are inputs of the model.
- JavaScript numbers are modelled as `real`. This is an idealisation: IEEE rounding in the wheel and transform arithmetic is not modelled, so the exact round trips proved for the wheel hold over the reals only.
- Stage.WheelZoom: requires a nonzero zoom. At zoom 0 the handler divides by zero, and JavaScript would produce Infinity or NaN, which reals cannot represent. The same applies to Stage.OnWheel.
- The wheel handler reads the stage's own scale and position. The model takes them to be the store's canvas, which the stage is bound to (lines 26-29). The live position during an unfinished stage drag is not modelled.
- The Transformer in Stage.tsx is never given any nodes. The model treats the transform-end and bound-box rules as reachable anyway. Only rectangles have a transform-end handler; ellipses and text have none, and the model has no handler for them.
- Explicit `undefined` values inside a `Partial<Layer>` patch are not modelled: a patch either omits a property or gives it a value.
- The interaction id comes from `Date.now()`. Here it is a string parameter (`stamp`).
- The form's fields are modelled as always-present strings. The initial draft and every control set strings, so an `undefined` field cannot be reached.
- The form's layers prop is untyped. It is modelled as a view with an identifier, a type spelling and an optional name, and store layers are mapped into it.
- Form chrome is left out: the `isOpen` early return, the Cancel and close buttons (`onClose` is only recorded as `closed` after an add), and the JSX whitespace of the preview sentence. The `darkMode` value the form reads from the store does not exist in the store.
- Settings, Profile, ExportModal, Toolbar, App, the Tailwind configuration, LeftSidebar and RightSidebar are left out. They are presentation, or they only call `selectLayer` and `updateLayer`, which the store model covers.
- Undo/redo, grouping, alignment and distribution, clipboard, deletion, tools, keyboard shortcuts and file open/save are not in the code and are not modelled.
