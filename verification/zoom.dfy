/** The integer geometry of the zoom effect applied to beat clips
    (`_add_simple_zoom_effect` in video_processor.py): which of the engine's
    transform hooks is used, and, per frame axis of `n` pixels, the size the
    frame is magnified to and the window cut back out of it. Pixel resampling
    is the engine's; only sizes and offsets are modelled. The dynamic zoom's
    sine-shaped scale is taken as a parameter. */
module Zoom {
  import opened Common

  /** What the running engine offers, probed with `hasattr` and the cv2/PIL
      imports. */
  datatype Caps = Caps(
    hasTransform: bool, cv2: bool, pil: bool,
    hasImageTransform: bool, hasFlImage: bool, hasResize: bool)

  datatype ZoomKind =
    | DynamicCv2          // clip.transform with a cv2 per-frame zoom
    | DynamicPil          // clip.transform with a PIL per-frame zoom
    | StaticImageTransform
    | StaticFlImage
    | ResizeRoundTrip     // enlarge by 3 % and resize back to the canvas
    | NoZoom

  /** The fallback chain: the two dynamic variants first, then the static
      ones, then a plain resize, else the clip is returned unchanged. */
  function ZoomKindFor(c: Caps): (k: ZoomKind)
    ensures k == DynamicCv2 <==> c.hasTransform && c.cv2
    ensures k == DynamicPil <==> c.hasTransform && !c.cv2 && c.pil
    ensures (k == StaticImageTransform || k == StaticFlImage) <==>
              !c.hasTransform && c.cv2 && (c.hasImageTransform || c.hasFlImage)
    ensures k == ResizeRoundTrip <==>
              !(c.hasTransform && (c.cv2 || c.pil)) && !(c.cv2 && (c.hasImageTransform || c.hasFlImage)) && c.hasResize
    ensures k == StaticImageTransform <==> !c.hasTransform && c.cv2 && c.hasImageTransform
    ensures k == StaticFlImage <==> !c.hasTransform && c.cv2 && !c.hasImageTransform && c.hasFlImage
  {
    if c.hasTransform && c.cv2 then DynamicCv2
    else if c.hasTransform && !c.cv2 && c.pil then DynamicPil
    else if c.hasImageTransform && c.cv2 then StaticImageTransform
    else if c.hasFlImage && c.cv2 then StaticFlImage
    else if c.hasResize then ResizeRoundTrip
    else NoZoom
  }

  /** One axis of a magnify-then-crop: the frame axis of `n` pixels is scaled
      to `scaled` pixels, the window starts at `offset`, and the numpy slice
      `[offset:offset + n]` yields `kept` pixels. */
  datatype AxisCrop = AxisCrop(scaled: int, offset: int, kept: nat)

  /** `int(n * 1.03)`. For frame sizes below 2^40 the floating-point product
      never crosses an integer boundary (the exact product is a multiple of
      1/100), so this is exact. */
  function StaticScaled(n: nat): nat
  {
    n * 103 / 100
  }

  /** The static zoom on one axis (video_processor.py `zoom_function` and
      `static_zoom_function`): the magnified size is at least the original,
      the centred window starts inside it and fits in it, so the cropped
      frame has exactly the original size. */
  function StaticZoomAxis(n: nat): (c: AxisCrop)
    ensures c.scaled >= n
    ensures 0 <= c.offset && c.offset + n <= c.scaled
    ensures c.scaled - (c.offset + n) - c.offset in {0, 1}
    ensures c.kept == n
  {
    var scaled := StaticScaled(n);
    var offset := (scaled - n) / 2;
    AxisCrop(scaled, offset, SliceLength(scaled, offset, offset + n))
  }

  /** The cv2 dynamic zoom on one axis as written (video_processor.py
      `dynamic_zoom`): `int(n * scale)`, then a centred slice whose start is
      `(scaled - n) // 2`. `scale` is the per-frame value of
      `1 + 0.05 * sin(2 * pi * progress)`. */
  function DynamicZoomAxis(n: nat, scale: real): (c: AxisCrop)
    requires scale > 0.0
    ensures c.scaled >= 0
    ensures c.kept <= c.scaled
  {
    var scaled := ((n as real) * scale).Floor;
    assert scaled >= 0 by { assert (n as real) * scale >= 0.0; }
    var offset := (scaled - n) / 2;
    AxisCrop(scaled, offset, SliceLength(scaled, offset, offset + n))
  }

  /** As written, the dynamic crop keeps the frame size whenever the scale
      does not shrink the frame. */
  lemma DynamicZoomKeepsSizeWhenEnlarging(n: nat, scale: real)
    requires scale >= 1.0
    ensures DynamicZoomAxis(n, scale).kept == n
  {
    ScaleAtLeastOne(n as real, scale);
  }

  /** As written, in the second half of each zoom period the sine makes the
      scale drop below 1: the slice start goes negative, Python counts it
      from the end of the row, and the crop keeps only a sliver. At
      progress 0.75 the scale is 0.95; a 1920 x 1080 frame becomes 48 x 27. */
  lemma DynamicZoomUndersizedCrop()
    ensures DynamicZoomAxis(1920, 0.95).kept == 48
    ensures DynamicZoomAxis(1080, 0.95).kept == 27
  {
    assert (1920 as real) * 0.95 == 1824.0;
    assert (1080 as real) * 0.95 == 1026.0;
  }

  /** More generally, any scale that shrinks the axis loses the frame size. */
  lemma DynamicZoomShrinkLosesSize(n: nat, scale: real)
    requires scale > 0.0 && ((n as real) * scale).Floor < n
    ensures DynamicZoomAxis(n, scale).kept < n
  {
  }

  /** The dynamic zoom with the scale clamped from below at 1, as the effect
      is meant to behave (the magnified frame is never smaller than the
      canvas): the crop always has the original size and stays inside the
      magnified frame. */
  function ClampedZoomAxis(n: nat, scale: real): (c: AxisCrop)
    requires scale > 0.0
    ensures c.scaled >= n
    ensures 0 <= c.offset && c.offset + n <= c.scaled
    ensures c.kept == n
  {
    var raw := ((n as real) * scale).Floor;
    var scaled := if raw < n then n else raw;
    var offset := (scaled - n) / 2;
    AxisCrop(scaled, offset, SliceLength(scaled, offset, offset + n))
  }

  /** The PIL dynamic zoom on one axis (video_processor.py
      `pil_dynamic_zoom`): `ceil(n * scale)` rounded up to even, a crop box
      from `x` to `even - x` with `x = ceil((even - n) / 2)`, and a final
      resize back to the base size. */
  datatype PilAxis = PilAxis(rounded: int, even: int, x: int, boxWidth: int, output: nat)

  function PilZoomAxis(n: nat, scale: real): (p: PilAxis)
    requires scale > 0.0
    ensures p.even % 2 == 0
    ensures p.rounded <= p.even <= p.rounded + 1
    ensures p.output == n
    ensures scale >= 1.0 ==> p.even >= n && p.boxWidth == n - n % 2
  {
    var rounded := Ceil((n as real) * scale);
    var even := rounded + rounded % 2;
    var x := Ceil(((even - n) as real) / 2.0);
    if scale >= 1.0 then
      PilEvenBox(n, scale, rounded, even, x);
      PilAxis(rounded, even, x, even - 2 * x, n)
    else
      PilAxis(rounded, even, x, even - 2 * x, n)
  }

  /** For a scale of at least 1 the even size covers the frame and the crop
      box is the frame's own width, rounded down to even. */
  lemma PilEvenBox(n: nat, scale: real, rounded: int, even: int, x: int)
    requires scale >= 1.0
    requires rounded == Ceil((n as real) * scale)
    requires even == rounded + rounded % 2
    requires x == Ceil(((even - n) as real) / 2.0)
    ensures even >= n && even - 2 * x == n - n % 2
  {
    ScaleAtLeastOne(n as real, scale);
    var d := even - n;
    assert d >= 0;
    if d % 2 == 0 {
      assert (d as real) / 2.0 == (d / 2) as real;
      assert x == d / 2;
    } else {
      assert (d as real) / 2.0 == (d / 2) as real + 0.5;
      assert x == d / 2 + 1;
    }
  }

  /** The last fallback enlarges the canvas by 3 % (`int(1920 * 1.03)`,
      `int(1080 * 1.03)`) and resizes straight back, so the clip keeps the
      canvas size. */
  function ResizeRoundTripSizes(width: nat, height: nat): (r: (int, int, int, int))
    ensures r.0 >= width && r.1 >= height
    ensures r.2 == width && r.3 == height
  {
    (StaticScaled(width), StaticScaled(height), width, height)
  }
}
