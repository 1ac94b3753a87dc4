# Drag preview pointer offset

A model of the offset calculator behind the inventory's floating drag preview
(`html/src/components/utils/DragPreview.tsx`). While an item is dragged, the
react-dnd drag layer reports the pointer's current offset, its offset when the
drag began and the drag source's offset when the drag began. From these, and
from the size of the rendered preview element once it exists, the calculator
derives the translation at which the preview image is drawn:

- once the preview element can be measured, the preview is centred under the
  pointer (current offset minus half its box);
- before that, it keeps the position at which the source was grabbed (current
  offset minus the parent offset, the initial pointer offset minus the initial
  source offset), and the parent offset falls back to (0, 0) when either
  initial offset is missing or the initial pointer offset has an undefined
  coordinate;
- with no current pointer offset there is no position, and the preview is
  drawn only while dragging and a position exists.

Modules:

- `Wrappers` (`wrappers.dfy`): the `Option` type standing for `null`/`undefined`.
- `DragPreview` (`drag_preview.dfy`): points, the monitor snapshot, the child
  element, `Subtract`, `CalculateParentOffset`, `CalculatePointerPosition`,
  the render guard, and lemmas about them. Coordinates are exact `real`s.
- `DragSession` (`drag_session.dfy`): the calculator across a drag, under a
  modelling assumption about the host: it is called once per monitor
  notification, with the child ref as the previous notification's render left
  it. The ref is attached to the guarded div, so under that assumption it
  holds the element exactly when the previous notification showed the
  preview. As a consequence of that assumption, the unmeasured fallback is
  used only on the first frame after the preview appears, and every later
  frame is centred.

Every operation is a function, so calling it twice on the same snapshot gives
the same translation by construction.

## Model

| member | source | states |
|---|---|---|
| `DragPreview.Subtract` | html/src/components/utils/DragPreview.tsx:11-16 | the difference is the vector that translates `b` onto `a` (subtraction is the inverse of translation) |
| `DragPreview.SubtractSelf` | html/src/components/utils/DragPreview.tsx:11-16 | a point minus itself is (0, 0) |
| `DragPreview.SubtractOrigin` | html/src/components/utils/DragPreview.tsx:11-16 | a point minus (0, 0) is the point itself |
| `DragPreview.HasInitialOffsets` | html/src/components/utils/DragPreview.tsx:23-28 | the initial offsets are usable exactly when none of the four guards fires: no null initial client offset, no null initial source offset, no undefined client x or y |
| `DragPreview.CalculateParentOffset` | html/src/components/utils/DragPreview.tsx:18-32 | when both initial offsets are present and the initial client offset has defined x and y, the parent offset carries the initial source offset onto the initial client offset; otherwise it is (0, 0) |
| `DragPreview.Measure` | html/src/components/utils/DragPreview.tsx:45-49 | there is no box exactly when the ref is empty or its element has no `getBoundingClientRect`; otherwise the box is the one that element reports |
| `DragPreview.Middle` | html/src/components/utils/DragPreview.tsx:50 | the middle vector is half the box: twice it gives back the width and the height |
| `DragPreview.CalculatePointerPosition` | html/src/components/utils/DragPreview.tsx:34-52 | a position exists exactly when the current client offset does, whatever the child ref and initial offsets; with a measurable child the box drawn at the position is centred on the pointer; without one, the position translated by the parent offset is the pointer |
| `DragPreview.FallbackFollowsPointer` | html/src/components/utils/DragPreview.tsx:43-46 | unmeasured, with both initial offsets known, the preview has moved from the initial source offset by exactly the pointer's displacement from the initial client offset |
| `DragPreview.FallbackAtPointer` | html/src/components/utils/DragPreview.tsx:23-46 | unmeasured, with an initial offset missing or an undefined client coordinate, the position is the current offset unchanged |
| `DragPreview.CenteredExample` | html/src/components/utils/DragPreview.tsx:49-51 | a 40 x 20 box under the pointer at (100, 100) is placed at (80, 90), whatever the initial offsets |
| `DragPreview.FallbackExample` | html/src/components/utils/DragPreview.tsx:31-46 | initial client (50, 50), source (10, 10) and current (60, 60) with no child give parent offset (40, 40) and position (20, 20) |
| `DragPreview.Render` | html/src/components/utils/DragPreview.tsx:66-75 | the preview is drawn exactly when dragging and an offset is present, and it is translated by that offset |
| `DragPreview.Visible` | html/src/components/utils/DragPreview.tsx:56-66 | a monitor state is visible exactly when the render guard, applied to the collected dragging flag and current offset, lets the preview through |
| `DragPreview.PreviewShownIff` | html/src/components/utils/DragPreview.tsx:56-66 | the preview is on screen exactly when the monitor state is `Visible`: dragging, with a current client offset |
| `DragSession.ChildRef` | html/src/components/utils/DragPreview.tsx:55-68 | the ref holds an element exactly when the preview is mounted, and that element then measures as the given box |
| `DragSession.Frame` | html/src/components/utils/DragPreview.tsx:56-68 | one notification renders a frame exactly when the preview is visible for that monitor state |
| `DragSession.Frames` | html/src/components/utils/DragPreview.tsx:54-68 | one frame per notification, rendered exactly at the notifications where the drag is active with a pointer offset |
| `DragSession.FrameAt` | html/src/components/utils/DragPreview.tsx:55-68 | under the one-call-per-notification assumption, frame i is computed with the preview element mounted exactly when notification i - 1 was `Visible` (for the first frame, when it was mounted beforehand) |
| `DragSession.FrameCentered` | html/src/components/utils/DragPreview.tsx:49-68 | a visible notification whose predecessor was visible yields a frame centred under the pointer |
| `DragSession.FrameFallback` | html/src/components/utils/DragPreview.tsx:43-68 | a visible notification whose predecessor was not visible (or that starts unmounted) yields the parent-offset fallback |
| `DragSession.OnlyFirstFrameFallsBack` | html/src/components/utils/DragPreview.tsx:34-68 | under the one-call-per-notification assumption, in a drag visible at every notification and starting unmounted, only the first frame uses the fallback and every later frame is centred under the pointer |

## Left out

- React rendering, JSX and the `useDragLayer` subscription: the per-notification calls are modelled as a sequence of snapshots, and the ref is assumed mounted exactly when the previous notification rendered the preview (see the next line).
- The collector's scheduling: `DragSession` assumes exactly one collector call per monitor notification, made with the ref as of the previous commit. A re-collection after a commit, once the ref is attached, is not modelled. If the host re-collects that way, the fallback frame of `DragSession.FrameFallback` and `DragSession.OnlyFirstFrameFallsBack` is recomputed as centred before it is painted.
- DOM measurement: `getBoundingClientRect` is a foreign call; its result is a box parameter, and an element without it is an element whose box is `None`.
- The react-dnd monitor and its multi-backend: only the values its queries return are modelled.
- The CSS `translate(...)` strings, the style properties and the image URL built from `PUBLIC_URL` and the item name: presentation and environment input.
- JavaScript number semantics: coordinates are exact reals, so rounding and `NaN` are not modelled. An initial source offset with undefined coordinates, which the code does not check and which would yield `NaN`, is not representable.
