# ObjectLightmapViewer — a verified model of the window's rectangle arithmetic

ObjectLightmapViewer is an editor window for the Unity editor. It lists the
baked lightmaps of the active scene as thumbnails, one under another, each
in a square slot of side `S`.
When an object is selected, it outlines the part of the lightmap that holds
that object's lighting. The object's place in the lightmap is given by its
renderer's lightmap scale/offset vector `(sx, sy, ox, oy)`, in UV space.

Apart from Unity API calls, the window does four pieces of arithmetic on
rectangles. This project models those four in Dafny and proves properties
about them:

- **Footprint mapper** (`footprint.dfy`, module `Footprint`). It flips the
  placement's v axis, since UV space grows upward and window space downward.
  It then scales the placement by the lightmap size `S` and moves it to the
  square slot. Finally it clips the result with four guarded updates, in
  the order left, top, right, bottom. `ClampToAtlas` performs these updates
  in sequence, as the source does. It is proved equal to `Clamped`, a
  reference definition that keeps the inner edge of each pair.
- **Slot layout** (`slot_layout.dfy`, module `SlotLayout`). This is the loop
  that fills the slot table. `LayoutSlots` keeps the source's array and its
  moving name-line and slot rectangles. It is proved equal to `Slot`, a
  closed form (first slot top plus one pitch for each earlier lightmap that
  has a texture).
- **Scroll rule, preview guard and frame** (`viewer.dfy`, module `Viewer`).
  A class `LightmapViewerWindow` holds the two fields the source updates:
  the scroll position `m_vScrollPosition.y` and the preview height
  `m_fPreviewSize`.
  - `ProcessLightmapArea` finds the selected renderer's footprint.
  - `OnSelectionChanged` re-scrolls when the footprint lies wholly outside
    the visible area.
  - `ProcessPreview` runs the preview pane's guard chain and stores the pane
    height.
  - `RectFrame` is the pure part of `DrawRectFrame`: it splits a rectangle
    into four one-pixel border strips.
- `geometry.dfy` (module `Geometry`): the host's rectangle with its `xMax` and
  `yMax`, and an `Option` type.

Host inputs are parameters (`HostState`):
- whether the active scene is valid and has a name;
- the lightmap list, each entry possibly null, with optional colour and
  directional textures;
- `EditorGUIUtility.singleLineHeight`;
- the window's width and height;
- the selected object (mesh filter, shared mesh, renderer with lightmap
  index and scale/offset).

The preview pane's height comes from the resize handle. It enters as the
parameter `handleSize`. Coordinates are `real`.

Two points of the code that a reader might expect to work otherwise:
- Footprint scale: the footprint is scaled by the lightmap size
  `fLightmapSize`, which equals the slot's width and height only for a
  recorded slot. For a lightmap that got no slot, the slot is the zero
  rectangle, and the footprint is clipped to it (see
  `SkippedSlotHasNoPositiveExtent`). The source does not test the sign of
  the clipped width and height: the frame is drawn, and the scroll rule
  applied, from a rectangle with no positive extent just as from any other.
- Frame and thumbnail: the footprint is computed and clipped against the
  `S`-square slot, not against the thumbnail the host draws in it with the
  lightmap texture's aspect ratio. The frame lines up with the drawn image
  only for a square lightmap.
- Index out of range: the overlay path checks the lightmap index only for
  `-1`. Any other index outside the slot table raises an index exception at
  `ObjectLightmapViewer.cs:577`. The model returns that exception as the
  outcome `IndexFault` and does not forbid it with a precondition (see
  `OverlayIndexCheckIsPartial`). The preview pane likewise fails on a null
  lightmap entry, a missing texture or an index below `-1`; the model
  returns `PreviewFault` there (see `PreviewFaultExamples`).

## Model

| member | source | states |
|---|---|---|
| Footprint.UnclampedEdges | Assets/ObjectLightmapViewer/Editor/ObjectLightmapViewer.cs:578-579 | each edge of the unclipped footprint is the window image of the matching UV edge: left/right of `ox` and `ox+sx`, top of the UV top edge `oy+sy`, bottom of the UV bottom edge `oy` (the v flip) |
| Footprint.Clamped | Assets/ObjectLightmapViewer/Editor/ObjectLightmapViewer.cs:582-602 | each edge of the clipped rectangle lies between the matching atlas edges (containment proper when its width and height are non-negative, see the sign lemmas); each edge already inside the atlas keeps its position; a rectangle already inside is returned unchanged |
| Footprint.ClampToAtlas | Assets/ObjectLightmapViewer/Editor/ObjectLightmapViewer.cs:582-602 | the four in-place guarded updates (left and top move the origin and shrink the extent by the distance moved, right and bottom shrink the extent) yield exactly the edge-wise reference clip `Clamped` |
| Footprint.UVFootprint | Assets/ObjectLightmapViewer/Editor/ObjectLightmapViewer.cs:577-602 | each edge of the overlay rectangle of any placement lies between the matching atlas edges; with non-negative extents it lies inside the atlas |
| Footprint.ClampIdempotent | Assets/ObjectLightmapViewer/Editor/ObjectLightmapViewer.cs:582-602 | clipping an already clipped rectangle changes nothing |
| Footprint.ClampedWidthSign | Assets/ObjectLightmapViewer/Editor/ObjectLightmapViewer.cs:582-597 | for non-negative widths the clipped width is non-negative iff the horizontal extents meet; wholly outside gives a negative width |
| Footprint.ClampedHeightSign | Assets/ObjectLightmapViewer/Editor/ObjectLightmapViewer.cs:588-602 | the same iff for heights and vertical extents |
| Footprint.InUnitSquareNeedsNoClip | Assets/ObjectLightmapViewer/Editor/ObjectLightmapViewer.cs:578-602 | a placement inside the unit square in an `S`-square slot is not clipped at all |
| Footprint.WholePlacementIsSlot | Assets/ObjectLightmapViewer/Editor/ObjectLightmapViewer.cs:578-602 | placement `(1,1,0,0)` yields exactly the `S`-square slot |
| Footprint.QuadrantExample | Assets/ObjectLightmapViewer/Editor/ObjectLightmapViewer.cs:578-579 | the top-right UV quadrant maps to the top-right window quadrant `(100,0,100,100)` of a 200 slot |
| Footprint.LeftOverhangExample | Assets/ObjectLightmapViewer/Editor/ObjectLightmapViewer.cs:582-586 | a footprint hanging 10 past the left edge is moved to the edge and loses exactly 10 of width |
| Footprint.OutOfRangeExample | Assets/ObjectLightmapViewer/Editor/ObjectLightmapViewer.cs:594-597 | an offset of 2 leaves a negative width |
| SlotLayout.DisplayedTexture | Assets/ObjectLightmapViewer/Editor/ObjectLightmapViewer.cs:533-538 | an entry has a texture to show iff it is non-null and has a colour or a directional texture; the colour texture is preferred |
| SlotLayout.LightmapSize | Assets/ObjectLightmapViewer/Editor/ObjectLightmapViewer.cs:508 | the slot side is the larger of `width - 5 - 50` and 256, so always at least 256 |
| SlotLayout.LayoutSlots | Assets/ObjectLightmapViewer/Editor/ObjectLightmapViewer.cs:511-567 | the loop's slot array has one entry per lightmap and equals the closed-form table `Slot` at every index |
| SlotLayout.NextSlotYStep | Assets/ObjectLightmapViewer/Editor/ObjectLightmapViewer.cs:560-564 | a lightmap with a texture moves the next slot down by slot side + gap + line height; a skipped one does not move it |
| SlotLayout.DrawnCountSplit | Assets/ObjectLightmapViewer/Editor/ObjectLightmapViewer.cs:530-538 | the number of lightmaps that get a slot only grows along the list, grows at each one with a texture, and stays put over skipped ones |
| SlotLayout.SlotShape | Assets/ObjectLightmapViewer/Editor/ObjectLightmapViewer.cs:515-560 | every recorded slot has `x = 5`, width = height = `S` and lies below the header; a skipped lightmap keeps the zero rectangle |
| SlotLayout.FirstSlotBelowHeader | Assets/ObjectLightmapViewer/Editor/ObjectLightmapViewer.cs:511-515 | the first recorded slot starts right below the scene-name line, tips line, separator and first name line |
| SlotLayout.ConsecutiveSlots | Assets/ObjectLightmapViewer/Editor/ObjectLightmapViewer.cs:560-564 | each successive recorded slot starts at the previous slot's `yMax + 3 + lineHeight` |
| SlotLayout.SlotsStackDownward | Assets/ObjectLightmapViewer/Editor/ObjectLightmapViewer.cs:560-564 | recorded slots never overlap: any later one starts at least gap + name line below an earlier one's bottom |
| Viewer.LightmapArea | Assets/ObjectLightmapViewer/Editor/ObjectLightmapViewer.cs:570-611 | a footprint is found iff the scene is valid, a renderer is selected, its index is not -1 and is within the slot table; the index fault happens exactly when the index is neither -1 nor in range; the window area is the window at the current scroll position |
| Viewer.VisibleArea | Assets/ObjectLightmapViewer/Editor/ObjectLightmapViewer.cs:117 | the visible area is the window area with its bottom raised by the preview height |
| Viewer.RectFrame | Assets/ObjectLightmapViewer/Editor/ObjectLightmapViewer.cs:706-719 | four strips of thickness 1 flush with the top, bottom, left and right edges; inside the area they cover exactly the points within one pixel of an edge, and for an area at least 1 by 1 they stay inside it |
| Viewer.LightmapViewerWindow.constructor | Assets/ObjectLightmapViewer/Editor/ObjectLightmapViewer.cs:37-52 | the scroll position and the preview height start at zero |
| Viewer.LightmapViewerWindow.ProcessLightmapArea | Assets/ObjectLightmapViewer/Editor/ObjectLightmapViewer.cs:494-611 | laying out the slots, looking up the renderer's slot, mapping and clipping gives exactly `LightmapArea` |
| Viewer.LightmapViewerWindow.OnSelectionChanged | Assets/ObjectLightmapViewer/Editor/ObjectLightmapViewer.cs:111-125 | the scroll position becomes `uv.y - 1` exactly when a footprint exists and lies wholly above or below the visible area; otherwise it is unchanged; the handler reports a failure exactly when the footprint search raises the index exception |
| Viewer.LightmapViewerWindow.ProcessPreview | Assets/ObjectLightmapViewer/Editor/ObjectLightmapViewer.cs:630-697 | the preview height is replaced by the handle's size exactly when the selection passes the mesh and renderer checks; past a positive size and a non-empty lightmap list the pane renders iff the first lightmap has a colour texture and the selected entry is non-null with a texture at a non-negative index, and fails otherwise |
| Viewer.RenderedPreviewHasSlot | Assets/ObjectLightmapViewer/Editor/ObjectLightmapViewer.cs:259-263 | a preview that renders in a valid scene shows a lightmap whose footprint is found and whose slot is a recorded one |
| Viewer.PreviewFaultExamples | Assets/ObjectLightmapViewer/Editor/ObjectLightmapViewer.cs:259-263 | a first lightmap without a colour texture (failing at :671-685), a null selected entry and the index -2 (failing at :259-263) each pass the preview guard and then fail in the texture reads |
| Viewer.OverlayWithinSlot | Assets/ObjectLightmapViewer/Editor/ObjectLightmapViewer.cs:577-602 | each edge of the footprint lies between the matching edges of the renderer's slot (inside the slot when its extents are non-negative) |
| Viewer.OverlayInsideSlotSquare | Assets/ObjectLightmapViewer/Editor/ObjectLightmapViewer.cs:560-602 | on a recorded slot the footprint lies between `x = 5` and `5 + S` and between the slot's top and bottom |
| Viewer.SkippedSlotHasNoPositiveExtent | Assets/ObjectLightmapViewer/Editor/ObjectLightmapViewer.cs:529-602 | a renderer whose lightmap got no slot is clipped against the zero rectangle and its footprint has no positive width or height (the source draws its frame all the same) |
| Viewer.InRangePlacementUnclipped | Assets/ObjectLightmapViewer/Editor/ObjectLightmapViewer.cs:577-602 | on a recorded slot, a placement inside the unit square is drawn exactly as mapped |
| Viewer.FootprintIgnoresScroll | Assets/ObjectLightmapViewer/Editor/ObjectLightmapViewer.cs:577-609 | the footprint does not depend on the scroll position; the window area's top is the scroll position |
| Viewer.OutOfViewIffDisjoint | Assets/ObjectLightmapViewer/Editor/ObjectLightmapViewer.cs:118 | for non-negative heights, the re-scroll test holds iff the footprint's vertical span and the visible area's share no row |
| Viewer.ScrollSettles | Assets/ObjectLightmapViewer/Editor/ObjectLightmapViewer.cs:117-121 | after one re-scroll, a second selection change that finds the same footprint leaves the scroll position alone (footprint height ≥ 0, at least one visible row) |
| Viewer.PreviewGuardPreventsFault | Assets/ObjectLightmapViewer/Editor/ObjectLightmapViewer.cs:574-577 | a selection that passes the preview guard with a non-negative index cannot make the overlay path fault |
| Viewer.OverlayIndexCheckIsPartial | Assets/ObjectLightmapViewer/Editor/ObjectLightmapViewer.cs:650 | with one lightmap, index 1 makes the overlay path fault while the preview guard rejects it |

## Left out

- All drawing and layout requests to the host are left out, because they draw or reserve space and change no value the model tracks. These are the scroll view begin/end, `GUILayoutUtility.GetRect` and `GetAspectRect`, the label, rectangle, texture and frame draws, and `EditorGUILayout.Space`. The drawn thumbnail rectangle `rcLightmapCur` is computed by the host and never stored.
- In the on-GUI pass the scroll position is reassigned by the host's scroll view. That is host behaviour, so the model follows the selection-change pass, where it is not reassigned. The host's own clamping of the scroll position is left out for the same reason.
- When no footprint is found, ProcessLightmapArea also writes the window `position` into its out rectangles. Callers ignore them then, so the model returns a plain `NoArea`.
- The check `nLightmapCount >= 0` always holds, so it is not modelled.
- Preview rendering is GPU-side and has no checkable logic. This covers the camera, fog and wireframe state, mesh drawing, the texture filter save and restore, the label text, and the preview pane's own scroll position. The width and height of the first lightmap's colour texture only size the preview, so only its presence is modelled. ProcessPreview models the guard chain, the stored pane height and the texture reads that can fail.
- `InitializeReflection` and the reflective call that yields the preview height are calls into a private host type. The height they return is the parameter `handleSize`.
- Shader, material and mesh construction (`InitPreview`, `ValidateInitialize`, the `CreatePreivew*` helpers) is constant data.
- The window's menu command, its initial position and minimum size, the styles and colours, and the `OnEnable`/`OnDisable` subscription to selection changes are event plumbing and constants.
- All coordinates are `real`, so single-precision rounding is not modelled. For example, the model's `0.3 * 100` is exactly 30.
- ProcessPreview: the model assumes the preview shaders are found when the materials are built; otherwise `m_cMaterial` is null and the texture assignment at `ObjectLightmapViewer.cs:266` throws on a pass the model reports as `Shown`.
- ProcessPreview: the failure outcome `PreviewFault` stands for the exceptions the pane raises at `ObjectLightmapViewer.cs:671`, `:685` and `:259-263`; the host state the pane leaves behind on such a failure (an open scroll view or preview) is not modelled.
- OnSelectionChanged: `Repaint()` is a host request and is not modelled. On the index failure the handler leaves before it, and the model only reports the failure through `faulted`.
