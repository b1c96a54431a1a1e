/** The UV-footprint mapper: from a renderer's lightmap scale/offset to the
    window-space rectangle that frames its part of the lightmap's square
    slot, clipped to that slot. */
module Footprint {
  import opened Geometry

  /** A renderer's lightmap scale/offset vector: (x, y) scale and (z, w)
      offset, in the lightmap's normalized UV space, whose v axis points up. */
  datatype ScaleOffset = ScaleOffset(scaleX: real, scaleY: real, offsetX: real, offsetY: real)

  /** Window x of the UV abscissa `u` in a slot whose origin is `atlas`'s and
      whose side is `size`. */
  function WindowX(atlas: Rect, size: real, u: real): real {
    atlas.x + u * size
  }

  /** Window y of the UV ordinate `v`: v = 1 is the top of the slot, v = 0 the
      bottom, since UV space grows bottom-up and window space top-down. */
  function WindowY(atlas: Rect, size: real, v: real): real {
    atlas.y + (1.0 - v) * size
  }

  /** The placement as a top-down rectangle of the unit square: the UV top
      edge `offsetY + scaleY` becomes the rectangle's top, the UV bottom edge
      `offsetY` its bottom. */
  function UVRect(so: ScaleOffset): Rect {
    Rect(so.offsetX, 1.0 - (so.offsetY + so.scaleY), so.scaleX, so.scaleY)
  }

  /** The footprint before clipping: the UV rectangle scaled by the slot side
      `size` and moved to the slot's origin. */
  function Unclamped(atlas: Rect, size: real, so: ScaleOffset): Rect {
    var uv := UVRect(so);
    Rect(atlas.x + uv.x * size, atlas.y + uv.y * size, uv.width * size, uv.height * size)
  }

  /** Each edge of the unclipped footprint is the window image of the matching
      UV edge: left and right of offsetX and offsetX + scaleX, top of the UV
      top edge offsetY + scaleY, bottom of the UV bottom edge offsetY. */
  lemma UnclampedEdges(atlas: Rect, size: real, so: ScaleOffset)
    ensures Unclamped(atlas, size, so).x == WindowX(atlas, size, so.offsetX)
    ensures XMax(Unclamped(atlas, size, so)) == WindowX(atlas, size, so.offsetX + so.scaleX)
    ensures Unclamped(atlas, size, so).y == WindowY(atlas, size, so.offsetY + so.scaleY)
    ensures YMax(Unclamped(atlas, size, so)) == WindowY(atlas, size, so.offsetY)
  {
    LeftEdge(atlas, size, so);
    TopEdge(atlas, size, so);
    RightEdge(atlas, size, so);
    BottomEdge(atlas, size, so);
  }

  lemma LeftEdge(atlas: Rect, size: real, so: ScaleOffset)
    ensures Unclamped(atlas, size, so).x == WindowX(atlas, size, so.offsetX)
  {
  }

  lemma TopEdge(atlas: Rect, size: real, so: ScaleOffset)
    ensures Unclamped(atlas, size, so).y == WindowY(atlas, size, so.offsetY + so.scaleY)
  {
  }

  lemma RightEdge(atlas: Rect, size: real, so: ScaleOffset)
    ensures XMax(Unclamped(atlas, size, so)) == WindowX(atlas, size, so.offsetX + so.scaleX)
  {
    Distributes(so.offsetX, so.scaleX, size);
  }

  lemma BottomEdge(atlas: Rect, size: real, so: ScaleOffset)
    ensures YMax(Unclamped(atlas, size, so)) == WindowY(atlas, size, so.offsetY)
  {
    var top := 1.0 - (so.offsetY + so.scaleY);
    Distributes(top, so.scaleY, size);
    assert top + so.scaleY == 1.0 - so.offsetY;
  }

  /** Reference definition of the clip: keep the inner of each pair of edges.
      Left and top are pushed in to the atlas, right and bottom pulled in,
      and each edge that already lies inside stays where it is. */
  function Clamped(r: Rect, atlas: Rect): (c: Rect)
    ensures Within(c, atlas)
    ensures atlas.x <= r.x ==> c.x == r.x
    ensures atlas.y <= r.y ==> c.y == r.y
    ensures XMax(r) <= XMax(atlas) ==> XMax(c) == XMax(r)
    ensures YMax(r) <= YMax(atlas) ==> YMax(c) == YMax(r)
    ensures Within(r, atlas) ==> c == r
  {
    FromEdges(Max(r.x, atlas.x), Max(r.y, atlas.y), Min(XMax(r), XMax(atlas)), Min(YMax(r), YMax(atlas)))
  }

  /** The clip as the window performs it: four guarded updates of one
      rectangle, in the order left, top, right, bottom. The left and top
      updates move the origin and shrink the extent by the distance moved; the
      right and bottom updates shrink the extent only. */
  method ClampToAtlas(uv: Rect, atlas: Rect) returns (r: Rect)
    ensures r == Clamped(uv, atlas)
  {
    r := uv;
    if r.x < atlas.x {
      r := r.(width := r.width - (atlas.x - r.x));
      r := r.(x := atlas.x);
    }
    assert XMax(r) == XMax(uv);
    if r.y < atlas.y {
      r := r.(height := r.height - (atlas.y - r.y));
      r := r.(y := atlas.y);
    }
    assert YMax(r) == YMax(uv);
    if XMax(r) > XMax(atlas) {
      r := r.(width := r.width - (XMax(r) - XMax(atlas)));
    }
    if YMax(r) > YMax(atlas) {
      r := r.(height := r.height - (YMax(r) - YMax(atlas)));
    }
  }

  /** The overlay rectangle of a placement in a slot: map, then clip. */
  function UVFootprint(atlas: Rect, size: real, so: ScaleOffset): (r: Rect)
    ensures Within(r, atlas)
  {
    Clamped(Unclamped(atlas, size, so), atlas)
  }

  /** Clipping a clipped rectangle again changes nothing. */
  lemma ClampIdempotent(r: Rect, atlas: Rect)
    ensures Clamped(Clamped(r, atlas), atlas) == Clamped(r, atlas)
  {
  }

  /** On one axis the clipped width is non-negative exactly when the
      unclipped extent meets the atlas's (for non-negative widths); a
      placement wholly to one side of the atlas leaves a negative width,
      which the source does not test before drawing the frame. */
  lemma ClampedWidthSign(r: Rect, atlas: Rect)
    requires r.width >= 0.0 && atlas.width >= 0.0
    ensures Clamped(r, atlas).width >= 0.0 <==> (r.x <= XMax(atlas) && atlas.x <= XMax(r))
  {
  }

  /** The vertical counterpart of ClampedWidthSign. */
  lemma ClampedHeightSign(r: Rect, atlas: Rect)
    requires r.height >= 0.0 && atlas.height >= 0.0
    ensures Clamped(r, atlas).height >= 0.0 <==> (r.y <= YMax(atlas) && atlas.y <= YMax(r))
  {
  }

  /** A placement inside the unit square, in a square slot of side `size`,
      needs no clipping: the overlay is the mapped rectangle itself. */
  lemma InUnitSquareNeedsNoClip(atlas: Rect, size: real, so: ScaleOffset)
    requires size >= 0.0 && atlas.width == size && atlas.height == size
    requires 0.0 <= so.offsetX && 0.0 <= so.scaleX && so.offsetX + so.scaleX <= 1.0
    requires 0.0 <= so.offsetY && 0.0 <= so.scaleY && so.offsetY + so.scaleY <= 1.0
    ensures UVFootprint(atlas, size, so) == Unclamped(atlas, size, so)
  {
    var u := Unclamped(atlas, size, so);
    UnclampedEdges(atlas, size, so);
    UnitImageInSlot(atlas, size, so.offsetX);
    UnitImageInSlot(atlas, size, so.offsetX + so.scaleX);
    UnitImageInSlot(atlas, size, so.offsetY + so.scaleY);
    UnitImageInSlot(atlas, size, so.offsetY);
    assert Within(u, atlas);
  }

  /** A UV coordinate in [0, 1] maps into the slot on either axis. */
  lemma UnitImageInSlot(atlas: Rect, size: real, t: real)
    requires 0.0 <= t <= 1.0 && size >= 0.0
    ensures atlas.x <= WindowX(atlas, size, t) <= atlas.x + size
    ensures atlas.y <= WindowY(atlas, size, t) <= atlas.y + size
  {
    assert 0.0 <= t * size <= size by {
      assert (1.0 - t) * size >= 0.0;
    }
    assert 0.0 <= (1.0 - t) * size <= size by {
      assert t * size >= 0.0;
    }
  }

  /** The whole-lightmap placement (1, 1, 0, 0) frames exactly a square slot
      whose side is the lightmap size. */
  lemma WholePlacementIsSlot(atlas: Rect, size: real)
    requires atlas.width == size && atlas.height == size
    ensures UVFootprint(atlas, size, ScaleOffset(1.0, 1.0, 0.0, 0.0)) == atlas
  {
    var so := ScaleOffset(1.0, 1.0, 0.0, 0.0);
    assert UVRect(so) == Rect(0.0, 0.0, 1.0, 1.0);
    assert Unclamped(atlas, size, so) == Rect(atlas.x + 0.0 * size, atlas.y + 0.0 * size, 1.0 * size, 1.0 * size);
  }

  /** A placement in the top-right quadrant of UV space lands in the top
      half of the slot, right half, since the v axis is flipped. */
  lemma QuadrantExample()
    ensures UVFootprint(Rect(0.0, 0.0, 200.0, 200.0), 200.0, ScaleOffset(0.5, 0.5, 0.5, 0.5))
         == Rect(100.0, 0.0, 100.0, 100.0)
  {
    InUnitSquareNeedsNoClip(Rect(0.0, 0.0, 200.0, 200.0), 200.0, ScaleOffset(0.5, 0.5, 0.5, 0.5));
    QuadrantMapped();
  }

  lemma QuadrantMapped()
    ensures Unclamped(Rect(0.0, 0.0, 200.0, 200.0), 200.0, ScaleOffset(0.5, 0.5, 0.5, 0.5))
         == Rect(100.0, 0.0, 100.0, 100.0)
  {
    assert UVRect(ScaleOffset(0.5, 0.5, 0.5, 0.5)) == Rect(0.5, 0.0, 0.5, 0.5);
  }

  /** A footprint hanging over the left edge keeps its right edge: the width
      shrinks by exactly the overhang. */
  lemma LeftOverhangExample()
    ensures UVFootprint(Rect(0.0, 0.0, 100.0, 100.0), 100.0, ScaleOffset(0.3, 0.2, -0.1, 0.0))
         == Rect(0.0, 80.0, 20.0, 20.0)
  {
    assert UVRect(ScaleOffset(0.3, 0.2, -0.1, 0.0)) == Rect(-0.1, 0.8, 0.3, 0.2);
    assert Unclamped(Rect(0.0, 0.0, 100.0, 100.0), 100.0, ScaleOffset(0.3, 0.2, -0.1, 0.0))
        == Rect(-10.0, 80.0, 30.0, 20.0);
  }

  /** A placement wholly to the right of the lightmap yields a negative width. */
  lemma OutOfRangeExample()
    ensures UVFootprint(Rect(0.0, 0.0, 100.0, 100.0), 100.0, ScaleOffset(0.5, 0.5, 2.0, 0.0)).width < 0.0
  {
    OutOfRangeMapped();
  }

  lemma OutOfRangeMapped()
    ensures Unclamped(Rect(0.0, 0.0, 100.0, 100.0), 100.0, ScaleOffset(0.5, 0.5, 2.0, 0.0))
         == Rect(200.0, 50.0, 50.0, 50.0)
  {
    assert UVRect(ScaleOffset(0.5, 0.5, 2.0, 0.0)) == Rect(2.0, 0.5, 0.5, 0.5);
  }
}
