/**
 * Scale-to-fit of a static image (`computeCanvasDrawConfig` inside
 * `scanFile`): an image that fits the viewport is centred as it is; a larger
 * one is shrunk, width first and then height, keeping its aspect ratio, and
 * placed by the same function again.
 */
module ScaleFit {
  import opened Geometry

  /** An image of size `image` fits a `v`-sized viewport without scaling. */
  predicate FitsIn(image: Size, v: Size) {
    image.width <= v.width && image.height <= v.height
  }

  /** `image` and `other` have the same width-to-height ratio (cross-multiplied, so zero sides are allowed). */
  predicate SameAspect(image: Size, other: Size) {
    image.width * other.height == image.height * other.width
  }

  /** Shrinking `side` by `limit / over` when `0 < limit < over` keeps it non-negative and no larger. */
  lemma Shrinks(limit: real, over: real, side: real)
    requires 0.0 < limit < over && 0.0 <= side
    ensures 0.0 <= limit / over * side <= side
    ensures limit / over * side * over == limit * side
  {
    var f := limit / over;
    assert f * over == limit;
    assert f <= 0.0 ==> f * over <= 0.0;
    assert f >= 1.0 ==> f * over >= 1.0 * over;
    assert f * side <= 1.0 * side;
  }

  /** Two ratio-preserving steps preserve the ratio, when the middle size has a height. */
  lemma AspectTransitive(a: Size, b: Size, c: Size)
    requires a.height > 0.0 && SameAspect(a, b) && SameAspect(c, a)
    ensures SameAspect(c, b)
  {
  }

  /** The width clamp of `computeCanvasDrawConfig`: an image wider than the viewport takes its width and a proportional height. */
  function ClampWidth(v: Size, image: Size): (s: Size)
    requires v.width > 0.0 && image.width >= 0.0 && image.height >= 0.0
    ensures s.width <= v.width && (image.width > v.width ==> s.width == v.width)
    ensures image.width <= v.width ==> s == image
    ensures 0.0 <= s.width <= image.width && 0.0 <= s.height <= image.height
    ensures SameAspect(s, image)
  {
    if image.width > v.width then
      Shrinks(v.width, image.width, image.height);
      Size(v.width, v.width / image.width * image.height)
    else
      image
  }

  /** The height clamp of `computeCanvasDrawConfig`: an image taller than the viewport takes its height and a proportional width. */
  function ClampHeight(v: Size, image: Size): (s: Size)
    requires v.height > 0.0 && image.width >= 0.0 && image.height >= 0.0
    ensures s.height <= v.height && (image.height > v.height ==> s.height == v.height)
    ensures image.height <= v.height ==> s == image
    ensures 0.0 <= s.width <= image.width && 0.0 <= s.height <= image.height
    ensures SameAspect(s, image)
  {
    if image.height > v.height then
      Shrinks(v.height, image.height, image.width);
      Size(v.height / image.height * image.width, v.height)
    else
      image
  }

  /**
   * One downsampling step of an image that does not fit:
   * clamp the width, then the height. The result fits, keeps the ratio,
   * never grows, and touches the viewport on at least one side.
   */
  function Downsample(v: Size, image: Size): (d: Size)
    requires v.width > 0.0 && v.height > 0.0 && image.width >= 0.0 && image.height >= 0.0
    requires !FitsIn(image, v)
    ensures FitsIn(d, v)
    ensures 0.0 <= d.width <= image.width && 0.0 <= d.height <= image.height
    ensures SameAspect(d, image)
    ensures d.width == v.width || d.height == v.height
  {
    var s := ClampWidth(v, image);
    var d := ClampHeight(v, s);
    assert SameAspect(d, image) by {
      if s.height > 0.0 { AspectTransitive(s, image, d); }
    }
    d
  }

  /**
   * `computeCanvasDrawConfig`: where and at what size the image is drawn in
   * the viewport. The recursive call after a downsampling step always takes
   * the "fits" branch, so there are at most two calls (the `decreases` clause).
   */
  function CanvasDrawConfig(v: Size, image: Size): (r: Region)
    requires v.width > 0.0 && v.height > 0.0 && image.width >= 0.0 && image.height >= 0.0
    ensures FitsIn(image, v) ==> r == Region((v.width - image.width) / 2.0, (v.height - image.height) / 2.0,
                                             image.width, image.height)
    ensures Inside(r, v) && Centred(r, v)
    ensures SameAspect(Size(r.width, r.height), image)
    ensures r.width <= image.width && r.height <= image.height
    ensures !FitsIn(image, v) ==> r.width == v.width || r.height == v.height
    decreases if FitsIn(image, v) then 0 else 1
  {
    if FitsIn(image, v) then
      Region((v.width - image.width) / 2.0, (v.height - image.height) / 2.0, image.width, image.height)
    else
      CanvasDrawConfig(v, Downsample(v, image))
  }

  /**
   * Placing the drawn rectangle again, in the same viewport, changes nothing:
   * the result is a fixed point.
   */
  lemma CanvasDrawConfigIdempotent(v: Size, image: Size)
    requires v.width > 0.0 && v.height > 0.0 && image.width >= 0.0 && image.height >= 0.0
    ensures var r := CanvasDrawConfig(v, image);
            CanvasDrawConfig(v, Size(r.width, r.height)) == r
  {
  }

  /** A 100x50 image in a 300x300 viewport is centred unscaled; a 600x300 one is halved and centred vertically. */
  lemma CanvasDrawConfigExamples()
    ensures CanvasDrawConfig(Size(300.0, 300.0), Size(100.0, 50.0)) == Region(100.0, 125.0, 100.0, 50.0)
    ensures CanvasDrawConfig(Size(300.0, 300.0), Size(600.0, 300.0)) == Region(0.0, 75.0, 300.0, 150.0)
  {
    assert Downsample(Size(300.0, 300.0), Size(600.0, 300.0)) == Size(300.0, 150.0);
  }
}
