/** The vertical layout of the lightmap slots in the viewer window: a
    header of two label lines and a separator, then one square slot per
    displayable lightmap, stacked top to bottom, each preceded by its name
    line. */
module SlotLayout {
  import opened Geometry

  /** The smallest slot side (the source calls it the maximum lightmap size). */
  const MAX_LIGHTMAP_SIZE: real := 256.0
  const LIGHTMAP_LEFT_MARGIN: real := 5.0
  const LIGHTMAP_RIGHT_MARGIN: real := 50.0
  /** The gap above each name line and below each slot. */
  const SINGLE_LINE_GAP: real := 3.0

  /** A lightmap texture; only its presence matters to the layout. */
  datatype Texture = Texture(width: nat, height: nat)

  /** One entry of the scene's lightmap list: possibly null, and otherwise
      holding an optional colour texture and an optional directional one. */
  datatype LightmapData =
    | NullData
    | LightmapData(lightmapColor: Option<Texture>, lightmapDir: Option<Texture>)

  /** The texture shown for an entry: the colour lightmap when there is one,
      the directional one otherwise. */
  function DisplayedTexture(d: LightmapData): (t: Option<Texture>)
    ensures t.Some? <==> d.LightmapData? && (d.lightmapColor.Some? || d.lightmapDir.Some?)
    ensures d.LightmapData? && d.lightmapColor.Some? ==> t == d.lightmapColor
    ensures d.LightmapData? && d.lightmapColor.None? ==> t == d.lightmapDir
  {
    match d
    case NullData => None
    case LightmapData(color, dir) => if color.Some? then color else dir
  }

  /** Only entries with a texture to show get a slot. */
  predicate Drawn(d: LightmapData) {
    DisplayedTexture(d).Some?
  }

  /** The slot side for a window of the given width: the width left between
      the margins, but never below the minimum side. */
  function LightmapSize(windowWidth: real): (s: real)
    ensures s >= MAX_LIGHTMAP_SIZE
    ensures s >= windowWidth - LIGHTMAP_LEFT_MARGIN - LIGHTMAP_RIGHT_MARGIN
    ensures s == MAX_LIGHTMAP_SIZE || s == windowWidth - LIGHTMAP_LEFT_MARGIN - LIGHTMAP_RIGHT_MARGIN
  {
    Max(windowWidth - LIGHTMAP_LEFT_MARGIN - LIGHTMAP_RIGHT_MARGIN, MAX_LIGHTMAP_SIZE)
  }

  /** Top of the first slot, below the scene-name line, the tips line, the
      one-pixel separator and the first lightmap-name line, with a gap before
      the scene-name line, before the separator and after it. */
  function FirstSlotY(lineHeight: real): real {
    3.0 * SINGLE_LINE_GAP + 1.0 + 3.0 * lineHeight
  }

  /** Vertical distance from one slot's top to the next one's: the slot, a
      gap and the next name line. */
  function SlotPitch(size: real, lineHeight: real): real {
    size + SINGLE_LINE_GAP + lineHeight
  }

  /** How many entries of `ls` get a slot. */
  function DrawnCount(ls: seq<LightmapData>): (n: nat)
    ensures n <= |ls|
  {
    if ls == [] then 0
    else DrawnCount(ls[..|ls| - 1]) + (if Drawn(ls[|ls| - 1]) then 1 else 0)
  }

  /** Top of the slot that follows the entries `ls`: one pitch per
      displayable entry below the first slot. */
  function NextSlotY(size: real, lineHeight: real, ls: seq<LightmapData>): real {
    FirstSlotY(lineHeight) + (DrawnCount(ls) as real) * SlotPitch(size, lineHeight)
  }

  /** Reference definition of the slot table: entry `i` gets the slot at the
      left margin, `size` square, as many pitches below the first slot as
      there are displayable entries before it; an entry with nothing to show
      keeps the zero rectangle. */
  function Slot(size: real, lineHeight: real, ls: seq<LightmapData>, i: nat): Rect
    requires i < |ls|
  {
    if Drawn(ls[i]) then
      Rect(LIGHTMAP_LEFT_MARGIN, NextSlotY(size, lineHeight, ls[..i]), size, size)
    else
      ZERO_RECT
  }

  /** Builds the slot table the way the window does: walk the lightmap list
      once, record the current slot for every entry that has a texture, and
      move the name line and the slot down past it. */
  method LayoutSlots(windowWidth: real, lineHeight: real, lightmaps: seq<LightmapData>)
    returns (areas: array<Rect>)
    ensures areas.Length == |lightmaps|
    ensures forall i :: 0 <= i < |lightmaps| ==>
              areas[i] == Slot(LightmapSize(windowWidth), lineHeight, lightmaps, i)
  {
    var size := LightmapSize(windowWidth);
    var lmName := Rect(LIGHTMAP_LEFT_MARGIN, SINGLE_LINE_GAP, size, lineHeight);
    var lmTips := Rect(LIGHTMAP_LEFT_MARGIN, YMax(lmName), size, lineHeight);
    var separator := Rect(LIGHTMAP_LEFT_MARGIN, YMax(lmTips) + SINGLE_LINE_GAP, size, 1.0);
    var lightmapNameBegin := Rect(LIGHTMAP_LEFT_MARGIN, YMax(separator) + SINGLE_LINE_GAP, size, lineHeight);
    var lightmapBegin := Rect(LIGHTMAP_LEFT_MARGIN, YMax(lightmapNameBegin), size, size);

    var lightmapName := lightmapNameBegin;
    var lightmap := lightmapBegin;
    areas := new Rect[|lightmaps|](_ => ZERO_RECT);
    assert lightmaps[..0] == [];
    for i := 0 to |lightmaps|
      invariant areas.Length == |lightmaps|
      invariant lightmap == Rect(LIGHTMAP_LEFT_MARGIN, NextSlotY(size, lineHeight, lightmaps[..i]), size, size)
      invariant lightmapName.height == lineHeight && YMax(lightmapName) == lightmap.y
      invariant forall k :: 0 <= k < i ==> areas[k] == Slot(size, lineHeight, lightmaps, k)
      invariant forall k :: i <= k < |lightmaps| ==> areas[k] == ZERO_RECT
    {
      NextSlotYStep(size, lineHeight, lightmaps, i);
      match lightmaps[i]
      case NullData =>
      case LightmapData(color, dir) =>
        var texture := if color.Some? then color else dir;
        if texture.Some? {
          areas[i] := lightmap;
          lightmapName := lightmapName.(y := YMax(lightmap) + SINGLE_LINE_GAP);
          lightmap := lightmap.(y := YMax(lightmapName));
        }
    }
  }

  /** Each displayable entry moves the next slot down by one pitch; any
      other entry leaves it where it is. */
  lemma NextSlotYStep(size: real, lineHeight: real, ls: seq<LightmapData>, i: nat)
    requires i < |ls|
    ensures NextSlotY(size, lineHeight, ls[..i + 1])
         == NextSlotY(size, lineHeight, ls[..i]) + (if Drawn(ls[i]) then SlotPitch(size, lineHeight) else 0.0)
  {
    assert ls[..i + 1][..i] == ls[..i];
    OnePitchFurther(DrawnCount(ls[..i]) as real, SlotPitch(size, lineHeight));
  }

  /** One more recorded slot moves the next one down by one pitch. */
  lemma OnePitchFurther(c: real, pitch: real)
    ensures c * pitch + pitch == (c + 1.0) * pitch
  {
  }

  /** A product of non-negative factors is non-negative. */
  lemma NonNegativeProduct(a: real, b: real)
    requires a >= 0.0 && b >= 0.0
    ensures a * b >= 0.0
  {
  }

  /** The count of displayable entries grows by one at each displayable
      entry and not otherwise. */
  lemma {:induction false} DrawnCountSplit(ls: seq<LightmapData>, i: nat, j: nat)
    requires i <= j <= |ls|
    ensures DrawnCount(ls[..i]) <= DrawnCount(ls[..j])
    ensures (forall k :: i <= k < j ==> !Drawn(ls[k])) ==> DrawnCount(ls[..j]) == DrawnCount(ls[..i])
    ensures i < j && Drawn(ls[i]) ==> DrawnCount(ls[..i]) + 1 <= DrawnCount(ls[..j])
  {
    if i < j {
      DrawnCountSplit(ls, i, j - 1);
      assert ls[..j][..j - 1] == ls[..j - 1];
      if j - 1 == i {
        assert ls[..j][j - 1] == ls[i];
      }
    }
  }

  /** Each recorded slot sits at the left margin and is `size` square, below
      the header; an entry with nothing to show keeps the zero rectangle. */
  lemma SlotShape(size: real, lineHeight: real, ls: seq<LightmapData>, i: nat)
    requires i < |ls| && size >= 0.0 && lineHeight >= 0.0
    ensures Drawn(ls[i]) ==>
              && Slot(size, lineHeight, ls, i).x == LIGHTMAP_LEFT_MARGIN
              && Slot(size, lineHeight, ls, i).width == size
              && Slot(size, lineHeight, ls, i).height == size
              && Slot(size, lineHeight, ls, i).y >= FirstSlotY(lineHeight)
    ensures !Drawn(ls[i]) ==> Slot(size, lineHeight, ls, i) == ZERO_RECT
  {
    NonNegativeProduct(DrawnCount(ls[..i]) as real, SlotPitch(size, lineHeight));
  }

  /** The first displayable entry gets the slot right below the header. */
  lemma {:induction false} FirstSlotBelowHeader(size: real, lineHeight: real, ls: seq<LightmapData>, i: nat)
    requires i < |ls| && Drawn(ls[i])
    requires forall k :: 0 <= k < i ==> !Drawn(ls[k])
    ensures Slot(size, lineHeight, ls, i).y == FirstSlotY(lineHeight)
  {
    DrawnCountSplit(ls, 0, i);
    assert ls[..0] == [];
  }

  /** The slot after a recorded slot, with only skipped entries between them,
      starts one gap and one name line below the earlier slot's bottom. */
  lemma ConsecutiveSlots(size: real, lineHeight: real, ls: seq<LightmapData>, i: nat, j: nat)
    requires i < j < |ls| && Drawn(ls[i]) && Drawn(ls[j])
    requires forall k :: i < k < j ==> !Drawn(ls[k])
    ensures Slot(size, lineHeight, ls, j).y
         == YMax(Slot(size, lineHeight, ls, i)) + SINGLE_LINE_GAP + lineHeight
  {
    DrawnCountSplit(ls, i + 1, j);
    assert ls[..i + 1][..i] == ls[..i];
    var c := DrawnCount(ls[..i]) as real;
    assert DrawnCount(ls[..j]) as real == c + 1.0;
    OnePitchFurther(c, SlotPitch(size, lineHeight));
  }

  /** Recorded slots never overlap: each later one starts below the earlier
      one's bottom, its gap and a name line. */
  lemma SlotsStackDownward(size: real, lineHeight: real, ls: seq<LightmapData>, i: nat, j: nat)
    requires i < j < |ls| && Drawn(ls[i]) && Drawn(ls[j])
    requires size >= 0.0 && lineHeight >= 0.0
    ensures YMax(Slot(size, lineHeight, ls, i)) + SINGLE_LINE_GAP + lineHeight
         <= Slot(size, lineHeight, ls, j).y
  {
    DrawnCountSplit(ls, i, j);
    var ci := DrawnCount(ls[..i]) as real;
    var cj := DrawnCount(ls[..j]) as real;
    var pitch := SlotPitch(size, lineHeight);
    NonNegativeProduct(cj - (ci + 1.0), pitch);
    Distributes(cj - (ci + 1.0), ci + 1.0, pitch);
    OnePitchFurther(ci, pitch);
  }
}
