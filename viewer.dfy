/** The viewer window: locating the selected renderer's lightmap footprint in
    the slot table, re-scrolling when the selection changes, the guard and
    preview-size update of the preview pane, and the outline of a rectangle
    as four one-pixel strips. Everything the host editor draws or reports is
    a parameter: the scene's validity, the lightmap list, the label line
    height, the window size, the selection and the preview pane's size. */
module Viewer {
  import opened Geometry
  import opened Footprint
  import opened SlotLayout

  /** The renderer of the selected object: its lightmap index (-1 when it
      has none) and its lightmap scale/offset. */
  datatype Renderer = Renderer(lightmapIndex: int, lightmapScaleOffset: ScaleOffset)

  /** The first selected object, as far as the window inspects it. */
  datatype SelectedObject = SelectedObject(hasMeshFilter: bool, hasSharedMesh: bool, renderer: Option<Renderer>)

  /** What the host reports for one pass of the window. `sceneValid` stands
      for an active scene that is valid and has a non-empty name; `selection`
      is None when nothing is selected. */
  datatype HostState = HostState(
    sceneValid: bool,
    lightmaps: seq<LightmapData>,
    singleLineHeight: real,
    windowWidth: real,
    windowHeight: real,
    selection: Option<SelectedObject>)

  /** The outcome of locating the footprint: no footprint (the false
      return), a footprint with the window area it is seen through, or the
      array-index failure raised by an index outside the slot table. */
  datatype AreaResult =
    | NoArea
    | Area(uvArea: Rect, windowArea: Rect)
    | IndexFault

  /** The renderer of the first selected object, if any. */
  function SelectedRenderer(host: HostState): Option<Renderer> {
    match host.selection
    case None => None
    case Some(obj) => obj.renderer
  }

  /** The selected renderer's lightmap index when there is a renderer with an
      index other than -1, the only value the overlay path rejects. */
  predicate HasLightmapIndex(host: HostState) {
    SelectedRenderer(host).Some? && SelectedRenderer(host).value.lightmapIndex != -1
  }

  /** The slot side for the host's window. */
  function HostLightmapSize(host: HostState): real {
    LightmapSize(host.windowWidth)
  }

  /** Reference definition of the footprint search, given the vertical
      scroll position of the window. */
  function LightmapArea(host: HostState, scrollY: real): (res: AreaResult)
    ensures res.IndexFault? <==>
              host.sceneValid && HasLightmapIndex(host)
              && !(0 <= SelectedRenderer(host).value.lightmapIndex < |host.lightmaps|)
    ensures res.Area? <==>
              host.sceneValid && HasLightmapIndex(host)
              && 0 <= SelectedRenderer(host).value.lightmapIndex < |host.lightmaps|
    ensures res.Area? ==>
              res.windowArea == Rect(0.0, scrollY, host.windowWidth, host.windowHeight)
  {
    if !host.sceneValid || !HasLightmapIndex(host) then NoArea
    else
      var r := SelectedRenderer(host).value;
      if !(0 <= r.lightmapIndex < |host.lightmaps|) then IndexFault
      else
        var size := HostLightmapSize(host);
        var atlas := Slot(size, host.singleLineHeight, host.lightmaps, r.lightmapIndex);
        Area(UVFootprint(atlas, size, r.lightmapScaleOffset),
             Rect(0.0, scrollY, host.windowWidth, host.windowHeight))
  }

  /** The slot of the selected renderer's lightmap. */
  function SelectedSlot(host: HostState): Rect
    requires HasLightmapIndex(host)
    requires 0 <= SelectedRenderer(host).value.lightmapIndex < |host.lightmaps|
  {
    Slot(HostLightmapSize(host), host.singleLineHeight, host.lightmaps, SelectedRenderer(host).value.lightmapIndex)
  }

  /** The visible part of the window: its bottom edge raised by the height
      of the preview pane. */
  function VisibleArea(windowArea: Rect, previewSize: real): (v: Rect)
    ensures v.x == windowArea.x && v.y == windowArea.y && v.width == windowArea.width
    ensures YMax(v) == YMax(windowArea) - previewSize
  {
    windowArea.(height := YMax(windowArea) - previewSize - windowArea.y)
  }

  /** The footprint lies wholly above or wholly below the visible area. */
  predicate OutOfView(uvArea: Rect, visible: Rect) {
    YMax(uvArea) < visible.y || uvArea.y > YMax(visible)
  }

  /** `t` lies in the closed vertical span of `r`. */
  predicate InSpan(t: real, r: Rect) {
    r.y <= t <= YMax(r)
  }

  /** The vertical spans of two rectangles share a row. */
  ghost predicate SpansMeet(a: Rect, b: Rect) {
    exists t :: InSpan(t, a) && InSpan(t, b)
  }

  /** The scroll position after a selection change: one pixel above the
      footprint when the footprint is out of view, unchanged otherwise. */
  function ScrollAfterSelection(res: AreaResult, scrollY: real, previewSize: real): real {
    if res.Area? && OutOfView(res.uvArea, VisibleArea(res.windowArea, previewSize))
    then res.uvArea.y - 1.0
    else scrollY
  }

  /** Whether the preview pane may render for the given host state: an
      object is selected, it has a mesh filter with a shared mesh and a
      renderer whose index is neither -1 nor past the end of the lightmap
      list. */
  predicate PreviewGuard(host: HostState) {
    match host.selection
    case None => false
    case Some(obj) =>
      obj.hasMeshFilter && obj.hasSharedMesh && obj.renderer.Some?
      && obj.renderer.value.lightmapIndex != -1
      && obj.renderer.value.lightmapIndex < |host.lightmaps|
  }

  /** The preview pane gets past its guard, a positive pane size and a
      non-empty lightmap list, and goes on to read the lightmap textures. */
  predicate PreviewReached(host: HostState, handleSize: real) {
    PreviewGuard(host) && handleSize > 0.0 && |host.lightmaps| > 0
  }

  /** The texture reads of the preview pane succeed: the first lightmap is
      non-null with a colour texture (it sizes the drawing area), and the
      selected renderer's index is non-negative and names a non-null entry
      with a texture to show. */
  predicate PreviewTexturesPresent(host: HostState) {
    && |host.lightmaps| > 0
    && host.lightmaps[0].LightmapData? && host.lightmaps[0].lightmapColor.Some?
    && SelectedRenderer(host).Some?
    && 0 <= SelectedRenderer(host).value.lightmapIndex < |host.lightmaps|
    && Drawn(host.lightmaps[SelectedRenderer(host).value.lightmapIndex])
  }

  /** The outcome of one pass of the preview pane: nothing rendered, the
      pane rendered, or the null-reference or index failure raised by a
      missing lightmap entry or texture. */
  datatype PreviewResult = NotShown | Shown | PreviewFault

  /** The four border strips of a rectangle. */
  datatype Frame = Frame(top: Rect, bottom: Rect, left: Rect, right: Rect)

  predicate InFrame(f: Frame, px: real, py: real) {
    Contains(f.top, px, py) || Contains(f.bottom, px, py) || Contains(f.left, px, py) || Contains(f.right, px, py)
  }

  /** The point lies within one pixel of an edge of `area`. */
  predicate OnBorder(area: Rect, px: real, py: real) {
    py < area.y + 1.0 || py >= YMax(area) - 1.0 || px < area.x + 1.0 || px >= XMax(area) - 1.0
  }

  /** The outline drawn around an area: a one-pixel strip flush with each
      edge, spanning the full side. Inside the area, exactly the points within
      one pixel of an edge are covered; and when the area is at least a pixel
      wide and high, no strip leaves it. */
  function RectFrame(area: Rect): (f: Frame)
    ensures f.top.height == 1.0 && f.bottom.height == 1.0 && f.left.width == 1.0 && f.right.width == 1.0
    ensures f.top.y == area.y && YMax(f.bottom) == YMax(area) && f.left.x == area.x && XMax(f.right) == XMax(area)
    ensures f.top.x == f.bottom.x == area.x && f.top.width == f.bottom.width == area.width
    ensures f.left.y == f.right.y == area.y && f.left.height == f.right.height == area.height
    ensures forall px, py :: Contains(area, px, py) ==> (InFrame(f, px, py) <==> OnBorder(area, px, py))
    ensures area.width >= 1.0 && area.height >= 1.0 ==>
              forall px, py :: InFrame(f, px, py) ==> Contains(area, px, py)
  {
    Frame(Rect(area.x, area.y, area.width, 1.0),
          Rect(area.x, YMax(area) - 1.0, area.width, 1.0),
          Rect(area.x, area.y, 1.0, area.height),
          Rect(XMax(area) - 1.0, area.y, 1.0, area.height))
  }

  /** The window's own state: the vertical scroll position of the lightmap
      list and the last height of the preview pane. */
  class LightmapViewerWindow {
    var scrollY: real
    var previewSize: real

    constructor ()
      ensures scrollY == 0.0 && previewSize == 0.0
    {
      scrollY := 0.0;
      previewSize := 0.0;
    }

    /** Lay out the slot table, find the selected renderer's slot, map its
        scale/offset into it and clip; the window area is the window's size
        at the current scroll position. */
    method ProcessLightmapArea(host: HostState) returns (res: AreaResult)
      ensures res == LightmapArea(host, scrollY)
    {
      if !host.sceneValid {
        return NoArea;
      }
      var size := LightmapSize(host.windowWidth);
      var areas := LayoutSlots(host.windowWidth, host.singleLineHeight, host.lightmaps);
      if !HasLightmapIndex(host) {
        return NoArea;
      }
      var r := SelectedRenderer(host).value;
      if r.lightmapIndex < 0 || r.lightmapIndex >= areas.Length {
        return IndexFault;
      }
      var curLightmap := areas[r.lightmapIndex];
      var uvSize := Unclamped(curLightmap, size, r.lightmapScaleOffset);
      uvSize := ClampToAtlas(uvSize, curLightmap);
      res := Area(uvSize, Rect(0.0, scrollY, host.windowWidth, host.windowHeight));
    }

    /** On a selection change, scroll so that the footprint's top is one
        pixel below the window's top when the footprint lies wholly outside
        the part of the window the preview pane leaves visible. `faulted`
        reports the index failure of the footprint search, which leaves the
        handler before it does anything else. */
    method OnSelectionChanged(host: HostState) returns (faulted: bool)
      modifies this`scrollY
      ensures faulted <==> LightmapArea(host, old(scrollY)).IndexFault?
      ensures scrollY == ScrollAfterSelection(LightmapArea(host, old(scrollY)), old(scrollY), previewSize)
    {
      var res := ProcessLightmapArea(host);
      faulted := res.IndexFault?;
      if res.Area? {
        var windowArea := res.windowArea;
        windowArea := windowArea.(height := YMax(windowArea) - previewSize - windowArea.y);
        if YMax(res.uvArea) < windowArea.y || res.uvArea.y > YMax(windowArea) {
          scrollY := res.uvArea.y - 1.0;
        }
      }
    }

    /** The preview pane's guard chain. Once the selection passes the
      checks on mesh and renderer, the pane's size is taken from the resize
      handle (`handleSize`, a host value) and stored. When that size is
      positive and there is at least one lightmap, the pane reads the first
      lightmap's colour texture to size its drawing area and then the
      selected lightmap's texture to render it; a missing entry or texture
      there ends the pass with a failure instead. */
    method ProcessPreview(host: HostState, handleSize: real) returns (res: PreviewResult)
      modifies this`previewSize
      ensures previewSize == if PreviewGuard(host) then handleSize else old(previewSize)
      ensures res.Shown? <==> PreviewReached(host, handleSize) && PreviewTexturesPresent(host)
      ensures res.PreviewFault? <==> PreviewReached(host, handleSize) && !PreviewTexturesPresent(host)
    {
      res := NotShown;
      if host.selection.None? {
        return;
      }
      var obj := host.selection.value;
      if !obj.hasMeshFilter || !obj.hasSharedMesh {
        return;
      }
      if obj.renderer.None? || obj.renderer.value.lightmapIndex == -1
         || obj.renderer.value.lightmapIndex >= |host.lightmaps| {
        return;
      }
      previewSize := handleSize;
      if previewSize <= 0.0 {
        return;
      }
      if |host.lightmaps| <= 0 {
        return;
      }
      var first := host.lightmaps[0];
      if first.NullData? || first.lightmapColor.None? {
        return PreviewFault;
      }
      var r := obj.renderer.value;
      if r.lightmapIndex < 0 {
        return PreviewFault;
      }
      var entry := host.lightmaps[r.lightmapIndex];
      if entry.NullData? {
        return PreviewFault;
      }
      var texture := if entry.lightmapColor.Some? then entry.lightmapColor else entry.lightmapDir;
      if texture.None? {
        return PreviewFault;
      }
      res := Shown;
    }
  }

  /** The footprint never leaves the slot of the renderer's lightmap. */
  lemma OverlayWithinSlot(host: HostState, scrollY: real)
    requires LightmapArea(host, scrollY).Area?
    ensures Within(LightmapArea(host, scrollY).uvArea, SelectedSlot(host))
  {
  }

  /** A footprint in a recorded slot stays inside that slot's `S` square:
      between the left margin and the margin plus the slot side horizontally,
      and between the slot's top and bottom vertically. The thumbnail the
      host draws in the slot fills that square only for a square lightmap. */
  lemma OverlayInsideSlotSquare(host: HostState, scrollY: real)
    requires LightmapArea(host, scrollY).Area?
    requires Drawn(host.lightmaps[SelectedRenderer(host).value.lightmapIndex])
    ensures LIGHTMAP_LEFT_MARGIN <= LightmapArea(host, scrollY).uvArea.x
    ensures XMax(LightmapArea(host, scrollY).uvArea) <= LIGHTMAP_LEFT_MARGIN + HostLightmapSize(host)
    ensures SelectedSlot(host).y <= LightmapArea(host, scrollY).uvArea.y
    ensures YMax(LightmapArea(host, scrollY).uvArea) <= SelectedSlot(host).y + HostLightmapSize(host)
  {
  }

  /** A renderer whose lightmap got no slot is matched against the zero
      rectangle: its footprint has no positive width or height. The source
      does not test the sign and draws the frame from it all the same. */
  lemma SkippedSlotHasNoPositiveExtent(host: HostState, scrollY: real)
    requires LightmapArea(host, scrollY).Area?
    requires !Drawn(host.lightmaps[SelectedRenderer(host).value.lightmapIndex])
    ensures LightmapArea(host, scrollY).uvArea.width <= 0.0
    ensures LightmapArea(host, scrollY).uvArea.height <= 0.0
  {
  }

  /** A placement inside the unit square, on a recorded slot, is drawn
      unclipped: the footprint is the scaled placement moved to the slot. */
  lemma InRangePlacementUnclipped(host: HostState, scrollY: real)
    requires LightmapArea(host, scrollY).Area?
    requires Drawn(host.lightmaps[SelectedRenderer(host).value.lightmapIndex])
    requires var so := SelectedRenderer(host).value.lightmapScaleOffset;
             && 0.0 <= so.offsetX && 0.0 <= so.scaleX && so.offsetX + so.scaleX <= 1.0
             && 0.0 <= so.offsetY && 0.0 <= so.scaleY && so.offsetY + so.scaleY <= 1.0
    ensures LightmapArea(host, scrollY).uvArea
         == Unclamped(SelectedSlot(host), HostLightmapSize(host), SelectedRenderer(host).value.lightmapScaleOffset)
  {
    InUnitSquareNeedsNoClip(SelectedSlot(host), HostLightmapSize(host), SelectedRenderer(host).value.lightmapScaleOffset);
  }

  /** The footprint does not depend on the scroll position; only the window
      area does. */
  lemma FootprintIgnoresScroll(host: HostState, s1: real, s2: real)
    requires LightmapArea(host, s1).Area?
    ensures LightmapArea(host, s2).Area?
    ensures LightmapArea(host, s2).uvArea == LightmapArea(host, s1).uvArea
    ensures LightmapArea(host, s2).windowArea.y == s2
  {
  }

  /** For spans of non-negative height, the out-of-view test holds exactly
      when the footprint's vertical span and the visible area's share no
      row. */
  lemma OutOfViewIffDisjoint(uvArea: Rect, visible: Rect)
    requires uvArea.height >= 0.0 && visible.height >= 0.0
    ensures OutOfView(uvArea, visible) <==> !SpansMeet(uvArea, visible)
  {
    if !OutOfView(uvArea, visible) {
      var t := Max(uvArea.y, visible.y);
      assert InSpan(t, uvArea) && InSpan(t, visible);
    }
  }

  /** Scrolling settles: once a selection change has scrolled to a
      footprint, a second change that finds the same footprint (which does not
      depend on the scroll position, see FootprintIgnoresScroll) leaves the
      scroll position alone, provided the footprint has non-negative height
      and the preview pane leaves at least one pixel row of the window
      visible. */
  lemma ScrollSettles(uvArea: Rect, width: real, height: real, scrollY: real, previewSize: real)
    requires uvArea.height >= 0.0 && height - previewSize >= 1.0
    ensures var s1 := ScrollAfterSelection(Area(uvArea, Rect(0.0, scrollY, width, height)), scrollY, previewSize);
            ScrollAfterSelection(Area(uvArea, Rect(0.0, s1, width, height)), s1, previewSize) == s1
  {
  }

  /** A preview that passes its guard with a non-negative index never hits
      the overlay path's index failure. */
  lemma PreviewGuardPreventsFault(host: HostState, scrollY: real)
    requires PreviewGuard(host) && SelectedRenderer(host).value.lightmapIndex >= 0
    ensures !LightmapArea(host, scrollY).IndexFault?
  {
  }

  /** The overlay path rejects only the index -1: with one lightmap, a
      renderer at index 1 passes its check and then indexes past the slot
      table, while the preview path, which also checks the upper bound,
      skips it. */
  lemma OverlayIndexCheckIsPartial()
    ensures var host := HostState(true, [LightmapData(Some(Texture(1, 1)), None)], 18.0, 500.0, 600.0,
                                  Some(SelectedObject(true, true, Some(Renderer(1, ScaleOffset(1.0, 1.0, 0.0, 0.0))))));
            LightmapArea(host, 0.0).IndexFault? && !PreviewGuard(host)
  {
  }

  /** A rendered preview shows a lightmap the slot table has a slot for: in
      a valid scene the footprint search finds that slot, and the slot is a
      recorded one. */
  lemma RenderedPreviewHasSlot(host: HostState, handleSize: real, scrollY: real)
    requires host.sceneValid
    requires PreviewReached(host, handleSize) && PreviewTexturesPresent(host)
    ensures LightmapArea(host, scrollY).Area?
    ensures Drawn(host.lightmaps[SelectedRenderer(host).value.lightmapIndex])
  {
  }

  /** The preview pane's checks stop at an index of -1 and past the end of
      the list, but not at the other negative indices, nor at a null entry or
      a lightmap without a colour texture in the first place; each of these
      passes the guard and then fails in the texture reads. */
  lemma PreviewFaultExamples()
    ensures var tex := Texture(1, 1);
            var sel := Some(SelectedObject(true, true, Some(Renderer(0, ScaleOffset(1.0, 1.0, 0.0, 0.0)))));
            var host1 := HostState(true, [LightmapData(None, Some(tex))], 18.0, 500.0, 600.0, sel);
            var host2 := HostState(true, [NullData], 18.0, 500.0, 600.0, sel);
            var host3 := HostState(true, [LightmapData(Some(tex), None)], 18.0, 500.0, 600.0,
                                   Some(SelectedObject(true, true, Some(Renderer(-2, ScaleOffset(1.0, 1.0, 0.0, 0.0))))));
            && PreviewReached(host1, 100.0) && !PreviewTexturesPresent(host1)
            && PreviewReached(host2, 100.0) && !PreviewTexturesPresent(host2)
            && PreviewReached(host3, 100.0) && !PreviewTexturesPresent(host3)
  {
  }
}
