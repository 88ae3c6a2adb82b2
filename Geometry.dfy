/**
 * Focus-box geometry of the scanner: the viewport read from the container
 * element, the check of the configured `qrbox`, the region `qrRegion` in the
 * container's coordinates, the four shading strips laid around that region,
 * and the sampling interval derived from the frame rate.
 *
 * Lengths are `real`: the source divides with floating point and promises no
 * pixel rounding.
 */
module Geometry {
  import opened Wrappers

  const DEFAULT_WIDTH: nat := 300
  const DEFAULT_HEIGHT: nat := 300
  const MIN_QR_BOX_SIZE: real := 50.0
  const SCAN_DEFAULT_FPS: real := 2.0

  /** Width and height of a surface or an image. */
  datatype Size = Size(width: real, height: real)

  /** A rectangle in the container's coordinates: top-left corner and size. */
  datatype Region = Region(x: real, y: real, width: real, height: real)

  /** Why a `qrbox` is refused. */
  datatype ConfigError = QrboxBelowMinimum | QrboxExceedsElement

  /** The middle of `r` is the middle of a `v`-sized surface. */
  predicate Centred(r: Region, v: Size) {
    r.x + r.width / 2.0 == v.width / 2.0 && r.y + r.height / 2.0 == v.height / 2.0
  }

  /** `r` has no negative extent and lies inside a `v`-sized surface. */
  predicate Inside(r: Region, v: Size) {
    0.0 <= r.x && 0.0 <= r.y && 0.0 <= r.width && 0.0 <= r.height &&
    r.x + r.width <= v.width && r.y + r.height <= v.height
  }

  /**
   * The viewport: the element's client width and height, where a dimension
   * that reports zero falls back to the 300-pixel default.
   */
  function ResolveViewport(clientWidth: nat, clientHeight: nat): (v: Size)
    ensures v.width >= 1.0 && v.height >= 1.0
    ensures clientWidth != 0 ==> v.width == clientWidth as real
    ensures clientHeight != 0 ==> v.height == clientHeight as real
    ensures clientWidth == 0 ==> v.width == DEFAULT_WIDTH as real
    ensures clientHeight == 0 ==> v.height == DEFAULT_HEIGHT as real
  {
    Size(if clientWidth != 0 then clientWidth as real else DEFAULT_WIDTH as real,
         if clientHeight != 0 then clientHeight as real else DEFAULT_HEIGHT as real)
  }

  /**
   * `_getShadedRegionBounds`: a square of side `qrboxSize` centred in the
   * viewport, refused when it is wider or taller than the viewport.
   */
  function ShadedRegionBounds(width: real, height: real, qrboxSize: real): (r: Result<Region, ConfigError>)
    ensures r.Ok? <==> qrboxSize <= width && qrboxSize <= height
    ensures r.Err? ==> r.error == QrboxExceedsElement
    ensures r.Ok? ==> r.value.width == qrboxSize && r.value.height == qrboxSize
    ensures r.Ok? ==> Centred(r.value, Size(width, height))
    ensures r.Ok? && qrboxSize >= 0.0 ==> Inside(r.value, Size(width, height))
  {
    if qrboxSize > width || qrboxSize > height then
      Err(QrboxExceedsElement)
    else
      Ok(Region((width - qrboxSize) / 2.0, (height - qrboxSize) / 2.0, qrboxSize, qrboxSize))
  }

  /** The `qrbox` the scanner accepts: at least the minimum and no larger than either side. */
  predicate AcceptableQrbox(v: Size, size: real) {
    MIN_QR_BOX_SIZE <= size && size <= v.width && size <= v.height
  }

  /**
   * The check and region choice of `start`: without a `qrbox` the whole
   * viewport at the origin; with one, the minimum is checked first, then both
   * viewport sides, then the centred square is taken.
   */
  function StartRegion(v: Size, qrbox: Option<real>): (r: Result<Region, ConfigError>)
    ensures r.Ok? <==> qrbox.None? || AcceptableQrbox(v, qrbox.value)
    ensures qrbox.Some? && qrbox.value < MIN_QR_BOX_SIZE ==> r == Err(QrboxBelowMinimum)
    ensures qrbox.Some? && MIN_QR_BOX_SIZE <= qrbox.value ==>
              (r == Err(QrboxExceedsElement) <==> qrbox.value > v.width || qrbox.value > v.height)
    ensures qrbox.None? ==> r == Ok(Region(0.0, 0.0, v.width, v.height))
    ensures qrbox.Some? && r.Ok? ==> r.value.width == qrbox.value && r.value.height == qrbox.value
    ensures r.Ok? && v.width >= 0.0 && v.height >= 0.0 ==> Centred(r.value, v) && Inside(r.value, v)
  {
    match qrbox
    case None => Ok(Region(0.0, 0.0, v.width, v.height))
    case Some(size) =>
      if size < MIN_QR_BOX_SIZE then Err(QrboxBelowMinimum)
      else if size > v.width || size > v.height then Err(QrboxExceedsElement)
      else ShadedRegionBounds(v.width, v.height, size)
  }

  /** The four shading strips, in the order the source appends them. */
  datatype ShadingPosition = ShadedLeft | ShadedRight | ShadedTop | ShadedBottom

  /**
   * A CSS offset of an absolutely positioned strip: `Near` is `left`/`top`,
   * `Far` is `right`/`bottom`.
   */
  datatype Edge = Near(offset: real) | Far(offset: real)

  /** One shading element: its position, its horizontal and vertical anchor, and its size. */
  datatype Strip = Strip(position: ShadingPosition, horizontal: Edge, vertical: Edge, width: real, height: real)

  /**
   * The style `_createShadedElement` gives each strip. Left and right strips
   * are `region.x` wide and as tall as the element, anchored at the top-left
   * and top-right corners; top and bottom strips are `region.width` wide and
   * `region.y` tall, starting at `region.x`, anchored at the top and the bottom.
   */
  function ShadedElement(height: real, region: Region, position: ShadingPosition): (s: Strip)
    ensures s.position == position
    ensures position in {ShadedLeft, ShadedRight} ==> s.width == region.x && s.height == height
    ensures position in {ShadedTop, ShadedBottom} ==> s.width == region.width && s.height == region.y
  {
    match position
    case ShadedLeft => Strip(position, Near(0.0), Near(0.0), region.x, height)
    case ShadedRight => Strip(position, Far(0.0), Near(0.0), region.x, height)
    case ShadedTop => Strip(position, Near(region.x), Near(0.0), region.width, region.y)
    case ShadedBottom => Strip(position, Near(region.x), Far(0.0), region.width, region.y)
  }

  /**
   * `_possiblyInsertShadingElement`: no strips when the region sits at the
   * origin, otherwise left, right, top and bottom.
   */
  function ShadingStrips(height: real, region: Region): (strips: seq<Strip>)
    ensures strips == [] <==> region.x == 0.0 && region.y == 0.0
    ensures strips != [] ==>
              strips == [ShadedElement(height, region, ShadedLeft), ShadedElement(height, region, ShadedRight),
                         ShadedElement(height, region, ShadedTop), ShadedElement(height, region, ShadedBottom)]
  {
    if region.x == 0.0 && region.y == 0.0 then []
    else [ShadedElement(height, region, ShadedLeft), ShadedElement(height, region, ShadedRight),
          ShadedElement(height, region, ShadedTop), ShadedElement(height, region, ShadedBottom)]
  }

  /** Where a strip lands inside a `v`-sized container, as a rectangle from its top-left corner. */
  function Place(s: Strip, v: Size): Region {
    var x := match s.horizontal case Near(o) => o case Far(o) => v.width - o - s.width;
    var y := match s.vertical case Near(o) => o case Far(o) => v.height - o - s.height;
    Region(x, y, s.width, s.height)
  }

  function PlaceAll(strips: seq<Strip>, v: Size): (rs: seq<Region>)
    ensures |rs| == |strips|
    ensures forall i :: 0 <= i < |strips| ==> rs[i] == Place(strips[i], v)
  {
    if strips == [] then [] else [Place(strips[0], v)] + PlaceAll(strips[1..], v)
  }

  /**
   * In a `v`-sized container the left strip covers the columns before the
   * region, the right strip as many columns at the far edge, both at full
   * height; the top and bottom strips span the region's columns with a
   * height of `region.y`, against the top and the bottom edge.
   */
  lemma StripPlacement(v: Size, region: Region)
    ensures PlaceAll(ShadingStrips(v.height, region), v)
            == if region.x == 0.0 && region.y == 0.0 then []
               else [Region(0.0, 0.0, region.x, v.height),
                     Region(v.width - region.x, 0.0, region.x, v.height),
                     Region(region.x, 0.0, region.width, region.y),
                     Region(region.x, v.height - region.y, region.width, region.y)]
  {
  }

  /** Point `(px, py)` lies in `r`, right and bottom edges excluded. */
  predicate Covers(r: Region, px: real, py: real) {
    r.x <= px < r.x + r.width && r.y <= py < r.y + r.height
  }

  /** How many of the rectangles `rs` contain the point `(px, py)`. */
  function CoverCount(rs: seq<Region>, px: real, py: real): nat {
    if rs == [] then 0 else (if Covers(rs[0], px, py) then 1 else 0) + CoverCount(rs[1..], px, py)
  }

  /** The region's rectangle in the container together with the shading drawn around it. */
  function Overlay(v: Size, region: Region): seq<Region> {
    [region] + PlaceAll(ShadingStrips(v.height, region), v)
  }

  /**
   * For every accepted `qrbox`, the region's square and the placed shading
   * strips tile the container: every container point is covered exactly
   * once, and no point outside it is covered. Both are in the container's
   * coordinates; the camera frame's own resolution is not part of the model.
   */
  lemma {:induction false} ShadingTilesViewport(v: Size, size: real, px: real, py: real)
    requires AcceptableQrbox(v, size)
    ensures StartRegion(v, Some(size)).Ok?
    ensures CoverCount(Overlay(v, StartRegion(v, Some(size)).value), px, py)
            == if 0.0 <= px < v.width && 0.0 <= py < v.height then 1 else 0
  {
    var region := StartRegion(v, Some(size)).value;
    var strips := ShadingStrips(v.height, region);
    var rs := Overlay(v, region);
    if strips == [] {
      assert rs == [region];
      assert CoverCount(rs, px, py) == (if Covers(region, px, py) then 1 else 0) + CoverCount([], px, py);
    } else {
      var x, y := region.x, region.y;
      var left, right := Region(0.0, 0.0, x, v.height), Region(x + size, 0.0, x, v.height);
      var top, bottom := Region(x, 0.0, size, y), Region(x, y + size, size, y);
      assert rs == [region, left, right, top, bottom];
      assert rs[1..] == [left, right, top, bottom];
      assert rs[2..] == [right, top, bottom];
      assert rs[3..] == [top, bottom];
      assert rs[4..] == [bottom];
      assert rs[5..] == [];
      assert x == (v.width - size) / 2.0 && y == (v.height - size) / 2.0;
      assert CoverCount(rs[4..], px, py) == (if Covers(bottom, px, py) then 1 else 0) + CoverCount(rs[5..], px, py);
      assert CoverCount(rs[3..], px, py) == (if Covers(top, px, py) then 1 else 0) + CoverCount(rs[4..], px, py);
      assert CoverCount(rs[2..], px, py) == (if Covers(right, px, py) then 1 else 0) + CoverCount(rs[3..], px, py);
      assert CoverCount(rs[1..], px, py) == (if Covers(left, px, py) then 1 else 0) + CoverCount(rs[2..], px, py);
      assert CoverCount(rs, px, py) == (if Covers(region, px, py) then 1 else 0) + CoverCount(rs[1..], px, py);
    }
  }

  /** `config.fps ? config.fps : SCAN_DEFAULT_FPS`: an absent or zero rate means 2 frames per second. */
  function EffectiveFps(fps: Option<real>): (r: real)
    ensures r != 0.0
    ensures fps.Some? && fps.value != 0.0 ==> r == fps.value
    ensures fps.None? || fps.value == 0.0 ==> r == SCAN_DEFAULT_FPS
  {
    if fps.Some? && fps.value != 0.0 then fps.value else SCAN_DEFAULT_FPS
  }

  /** `_getTimeoutFps`: the delay in milliseconds between two samples at `fps` frames per second. */
  function TimeoutFps(fps: real): (ms: real)
    requires fps != 0.0
    ensures ms * fps == 1000.0
    ensures fps > 0.0 ==> ms > 0.0
  {
    1000.0 / fps
  }

  /** Without a configured rate the scanner samples every 500 ms. */
  lemma DefaultSamplingInterval(fps: Option<real>)
    requires fps.None? || fps.value == 0.0
    ensures TimeoutFps(EffectiveFps(fps)) == 500.0
  {
  }
}
