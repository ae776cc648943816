/**
  The per-pixel colour transforms: `darken_image_from_noise` in its two
  variants (terrain/jan_terrain.c returns a new image, src/terrain/janperlin.c
  draws into the image in place), `color_noise` of src/janperlin.c, and the
  violet threshold recolour in `main` of janperlin.c.
 */
module Recolor {
  import opened Vectors
  import opened Grid
  import opened Images

  // ---------------------------------------------------------------------
  // Clamped darkening

  /** `min_color_value`: the darkest a darkened channel can get. */
  const MinColorValue: int := 30

  /** The noise value of a pixel: its red channel over 255. */
  function NoiseValue(noise: Color): real {
    noise.r as real / 255.0
  }

  /**
    One channel: `MIN(30 + c*noise, 255)`, stored into an `unsigned char`
    (the float is cut toward zero, and it is never negative here).
   */
  function DarkenChannel(c: int, noise: real): (v: int)
    requires IsByte(c) && 0.0 <= noise <= 1.0
    ensures MinColorValue <= v <= 255
  {
    var raw := MinColorValue as real + c as real * noise;
    (if raw < 255.0 then raw else 255.0).Floor
  }

  /**
    A channel saturates exactly when `30 + c*noise` reaches 255, and below
    that it is the floor of that sum.
   */
  lemma DarkenChannelSaturates(c: int, noise: real)
    requires IsByte(c) && 0.0 <= noise <= 1.0
    ensures DarkenChannel(c, noise) == 255 <==> MinColorValue as real + c as real * noise >= 255.0
    ensures MinColorValue as real + c as real * noise < 255.0 ==>
      DarkenChannel(c, noise) as real <= MinColorValue as real + c as real * noise
        < DarkenChannel(c, noise) as real + 1.0
  {
  }

  /** Brighter noise never gives a darker channel. */
  lemma DarkenChannelMonotone(c: int, n1: real, n2: real)
    requires IsByte(c) && 0.0 <= n1 <= n2 <= 1.0
    ensures DarkenChannel(c, n1) <= DarkenChannel(c, n2)
  {
    var p1, p2 := c as real * n1, c as real * n2;
    assert p2 - p1 == c as real * (n2 - n1);
    ProductNonNegative(c as real, n2 - n1);
  }

  lemma ProductNonNegative(a: real, b: real)
    requires 0.0 <= a && 0.0 <= b
    ensures 0.0 <= a * b
  {
  }

  /** The darkened pixel: every colour channel darkened by the noise, alpha opaque. */
  function DarkenPixel(pixel: Color, noise: Color): (r: Color)
    requires ValidColor(pixel) && ValidColor(noise)
    ensures ValidColor(r) && r.a == 255
    ensures MinColorValue <= r.r && MinColorValue <= r.g && MinColorValue <= r.b
  {
    var f := NoiseValue(noise);
    Color(DarkenChannel(pixel.r, f), DarkenChannel(pixel.g, f), DarkenChannel(pixel.b, f), 255)
  }

  /** Black noise leaves every channel at the minimum, white noise adds the full colour. */
  lemma DarkenPixelExtremes(pixel: Color, noise: Color)
    requires ValidColor(pixel) && ValidColor(noise)
    ensures noise.r == 0 ==> DarkenPixel(pixel, noise) == Color(MinColorValue, MinColorValue, MinColorValue, 255)
    ensures noise.r == 255 && pixel.r <= 255 - MinColorValue ==> DarkenPixel(pixel, noise).r == MinColorValue + pixel.r
  {
  }

  /** Two images of the same size: the one to darken and the noise read beside it. */
  predicate SameShape(a: Image, b: Image) {
    WellFormed(a) && WellFormed(b) && a.width == b.width && a.height == b.height
  }

  /** The darkened image: pixel `i` of `image` darkened by pixel `i` of `noise`. */
  function Darkened(noise: Image, image: Image): (r: Image)
    requires SameShape(noise, image)
    ensures SameShape(r, noise)
    ensures forall i :: 0 <= i < |r.pixels| ==>
      MinColorValue <= r.pixels[i].r && MinColorValue <= r.pixels[i].g && MinColorValue <= r.pixels[i].b
      && r.pixels[i].a == 255
  {
    Image(image.width, image.height,
          seq(|image.pixels|, i requires 0 <= i < |image.pixels| => DarkenPixel(image.pixels[i], noise.pixels[i])))
  }

  /** `ImageResize` to the noise image's size, as a library call the model does not see into. */
  predicate ResizesTo(resize: (Image, int, int) -> Image, image: Image, noise: Image) {
    WellFormed(noise) && SameShape(resize(image, noise.width, noise.height), noise)
  }

  /**
    `darken_image_from_noise` of terrain/jan_terrain.c: resizes a copy of
    the image to the noise's size and fills a fresh buffer row by row.
   */
  method DarkenFromNoise(noise: Image, image: Image, resize: (Image, int, int) -> Image) returns (result: Image)
    requires ResizesTo(resize, image, noise)
    ensures result == Darkened(noise, resize(image, noise.width, noise.height))
  {
    var resized := resize(image, noise.width, noise.height);
    var noisePixels, imagePixels := noise.pixels, resized.pixels;
    var w, h := resized.width, resized.height;
    ghost var target := Darkened(noise, resized).pixels;
    var data := new Color[w * h];
    var y := 0;
    while y < h
      invariant 0 <= y <= h
      invariant forall k :: 0 <= k < y * w ==> data[k] == target[k]
    {
      DarkenRow(data, imagePixels, noisePixels, target, w, h, y);
      y := y + 1;
    }
    result := Image(w, h, data[..]);
  }

  /**
    `darken_image_from_noise` of src/terrain/janperlin.c as written: the
    image is resized and redrawn in place, but the factor of each pixel is
    read from the image's own red channel; the noise only fixes the size.
   */
  method DarkenInPlaceAsWritten(noise: Image, image: ImageBuffer, resize: (Image, int, int) -> Image)
    requires image.Valid() && ResizesTo(resize, image.Snapshot(), noise)
    modifies image, image.data
    ensures image.Valid()
    ensures var resized := resize(old(image.Snapshot()), noise.width, noise.height);
      image.Snapshot() == Darkened(resized, resized)
  {
    image.Resize(noise.width, noise.height, resize);
    var imagePixels := image.data[..];
    ghost var resized := image.Snapshot();
    DrawDarkened(image, imagePixels, imagePixels, Darkened(resized, resized).pixels);
  }

  /**
    The same operation reading the factor from the noise image, as the
    terrain/jan_terrain.c variant does.
   */
  method DarkenInPlace(noise: Image, image: ImageBuffer, resize: (Image, int, int) -> Image)
    requires image.Valid() && ResizesTo(resize, image.Snapshot(), noise)
    modifies image, image.data
    ensures image.Valid()
    ensures image.Snapshot() == Darkened(noise, resize(old(image.Snapshot()), noise.width, noise.height))
  {
    image.Resize(noise.width, noise.height, resize);
    var imagePixels := image.data[..];
    ghost var resized := image.Snapshot();
    DrawDarkened(image, imagePixels, noise.pixels, Darkened(noise, resized).pixels);
  }

  /** The nested loop of the in-place variant: every pixel redrawn once with `DrawPixel`. */
  method DrawDarkened(image: ImageBuffer, imagePixels: seq<Color>, factorPixels: seq<Color>,
                      ghost target: seq<Color>)
    requires image.Valid() && image.data.Length == |target|
    requires DarkenTarget(imagePixels, factorPixels, target)
    modifies image.data
    ensures image.Valid() && image.data[..] == target
  {
    var w, h := image.width, image.height;
    var y := 0;
    while y < h
      invariant 0 <= y <= h && image.Valid()
      invariant forall k :: 0 <= k < y * w ==> image.data[k] == target[k]
    {
      DrawDarkenedRow(image, imagePixels, factorPixels, target, y);
      y := y + 1;
    }
  }

  /** Pixel `i` of the target is pixel `i` darkened by factor pixel `i`. */
  ghost predicate DarkenTarget(imagePixels: seq<Color>, factorPixels: seq<Color>, target: seq<Color>) {
    |imagePixels| == |factorPixels| == |target|
    && forall i :: 0 <= i < |target| ==>
      ValidColor(imagePixels[i]) && ValidColor(factorPixels[i])
      && target[i] == DarkenPixel(imagePixels[i], factorPixels[i])
  }

  /** The inner loop of terrain/jan_terrain.c: row `y` of the fresh buffer. */
  method DarkenRow(data: array<Color>, imagePixels: seq<Color>, factorPixels: seq<Color>,
                   ghost target: seq<Color>, w: int, h: int, y: int)
    requires 0 <= y < h && 0 <= w && data.Length == w * h == |target|
    requires DarkenTarget(imagePixels, factorPixels, target)
    requires forall k :: 0 <= k < y * w ==> data[k] == target[k]
    modifies data
    ensures forall k :: 0 <= k < (y + 1) * w ==> data[k] == target[k]
  {
    var row := y * w;
    assert row + w <= w * h by {
      MulMono(y + 1, h, w);
    }
    var x := 0;
    while x < w
      invariant 0 <= x <= w
      invariant forall k :: 0 <= k < row + x ==> data[k] == target[k]
    {
      CellRange(x, y, w, h);
      var i := row + x;
      assert target[i] == DarkenPixel(imagePixels[i], factorPixels[i]);
      data[i] := DarkenPixel(imagePixels[i], factorPixels[i]);
      x := x + 1;
    }
    assert row + w == (y + 1) * w;
  }

  /** The inner loop of src/terrain/janperlin.c: row `y` redrawn pixel by pixel. */
  method DrawDarkenedRow(image: ImageBuffer, imagePixels: seq<Color>, factorPixels: seq<Color>,
                         ghost target: seq<Color>, y: int)
    requires image.Valid() && 0 <= y < image.height && image.data.Length == |target|
    requires DarkenTarget(imagePixels, factorPixels, target)
    requires forall k :: 0 <= k < y * image.width ==> image.data[k] == target[k]
    modifies image.data
    ensures image.Valid()
    ensures forall k :: 0 <= k < (y + 1) * image.width ==> image.data[k] == target[k]
  {
    var w, h := image.width, image.height;
    var row := y * w;
    assert row + w <= w * h by {
      MulMono(y + 1, h, w);
    }
    var x := 0;
    while x < w
      invariant 0 <= x <= w && image.Valid()
      invariant forall k :: 0 <= k < row + x ==> image.data[k] == target[k]
    {
      CellRange(x, y, w, h);
      var i := row + x;
      assert target[i] == DarkenPixel(imagePixels[i], factorPixels[i]);
      image.DrawPixel(x, y, DarkenPixel(imagePixels[i], factorPixels[i]));
      x := x + 1;
    }
    assert row + w == (y + 1) * w;
  }

  /**
    What the as-written variant loses: a black noise pixel over a white
    image pixel should give the minimum, but the image's own red channel
    is read instead and the pixel stays white.
   */
  lemma DarkenInPlaceIgnoresNoise()
    ensures var noise := Image(1, 1, [Color(0, 0, 0, 255)]);
      var image := Image(1, 1, [Color(255, 255, 255, 255)]);
      Darkened(image, image).pixels[0] == Color(255, 255, 255, 255)
      && Darkened(noise, image).pixels[0] == Color(MinColorValue, MinColorValue, MinColorValue, 255)
  {
    var noise := Image(1, 1, [Color(0, 0, 0, 255)]);
    var image := Image(1, 1, [Color(255, 255, 255, 255)]);
    assert WellFormed(noise) && WellFormed(image);
    assert DarkenPixel(image.pixels[0], image.pixels[0]) == Color(255, 255, 255, 255);
    assert DarkenPixel(image.pixels[0], noise.pixels[0]) == Color(MinColorValue, MinColorValue, MinColorValue, 255);
  }

  // ---------------------------------------------------------------------
  // Per-pixel maps drawn back into the image

  /** Every pixel replaced by its image under `f`. */
  function Recoloured(pixels: seq<Color>, f: Color -> Color): (r: seq<Color>)
    ensures |r| == |pixels| && forall i :: 0 <= i < |pixels| ==> r[i] == f(pixels[i])
  {
    seq(|pixels|, i requires 0 <= i < |pixels| => f(pixels[i]))
  }

  /** raylib's `GRAY` and `DARKGREEN`. */
  const GrayColor := Color(130, 130, 130, 255)
  const DarkGreen := Color(0, 117, 44, 255)

  /** `gray_threshold` of `color_noise`. */
  const GrayThreshold: int := 120

  /**
    The base colour and lerp factor `color_noise` picks for a red value:
    GRAY over 255 at or above the threshold, DARKGREEN over the threshold
    below it, with the red raised to at least 60.
   */
  function ShadeChoice(gray: int): (choice: (Color, real))
    ensures gray >= GrayThreshold ==> choice.0 == GrayColor
    ensures gray < GrayThreshold ==> choice.0 == DarkGreen
    ensures IsByte(gray) && gray >= GrayThreshold ==> 120.0 / 255.0 <= choice.1 <= 1.0
    ensures IsByte(gray) && gray < GrayThreshold ==> 0.5 <= choice.1 < 1.0
  {
    if gray >= GrayThreshold then (GrayColor, gray as real / 255.0)
    else
      var raised := if gray > 60 then gray else 60;
      (DarkGreen, raised as real / GrayThreshold as real)
  }

  /** The colour `color_noise` draws: `ColorLerp(ColorBrightness(base, -1), base, factor)`. */
  function NoiseShade(c: Color, lerp: (Color, Color, real) -> Color, brightness: (Color, real) -> Color): Color {
    var (base, factor) := ShadeChoice(c.r);
    lerp(brightness(base, -1.0), base, factor)
  }

  /**
    The DARKGREEN factor is flat at one half up to red 60 and rises with
    the red above it; the GRAY factor rises with the red.
   */
  lemma ShadeFactorMonotone(g1: int, g2: int)
    requires 0 <= g1 <= g2 < 256
    requires g1 >= GrayThreshold || g2 < GrayThreshold
    ensures ShadeChoice(g1).1 <= ShadeChoice(g2).1
    ensures g2 <= 60 ==> ShadeChoice(g1).1 == ShadeChoice(g2).1 == 0.5
  {
  }

  /**
    `color_noise`: every pixel, visited in row-major order, is redrawn with
    the shade its red value picks.
   */
  method ColorNoise(image: ImageBuffer, lerp: (Color, Color, real) -> Color, brightness: (Color, real) -> Color)
    requires image.Valid()
    modifies image.data
    ensures image.Valid()
    ensures image.data[..] == Recoloured(old(image.data[..]), c => NoiseShade(c, lerp, brightness))
  {
    var w, h := image.width, image.height;
    var pixels := image.data[..];
    ghost var target := Recoloured(pixels, c => NoiseShade(c, lerp, brightness));
    var i := 0;
    while i < w * h
      invariant 0 <= i <= w * h && image.Valid()
      invariant forall k :: 0 <= k < i ==> image.data[k] == target[k]
    {
      ScanPosition(i, w, h);
      var x := i % w;
      var y := i / w;
      var (base, factor) := ShadeChoice(pixels[i].r);
      image.DrawPixel(x, y, lerp(brightness(base, -1.0), base, factor));
      i := i + 1;
    }
  }

  /** raylib's `VIOLET` and the threshold of the recolour loop. */
  const Violet := Color(135, 60, 190, 255)
  const WhiteThreshold: int := 150

  /** `Vector3Normalize` of VIOLET's colour channels. */
  function VioletDirection(normalize: Vec3 -> Vec3): Vec3 {
    normalize(Vec3(Violet.r as real, Violet.g as real, Violet.b as real))
  }

  /** A channel of the shade: factor times grey, cut to a `short`, stored as a byte. */
  function ShadeChannel(k: real, gray: int): int {
    StoreByte(TruncToInt(k * gray as real))
  }

  /** The violet shade of a grey value along direction `v`; alpha opaque. */
  function VioletShade(gray: int, v: Vec3): Color {
    Color(ShadeChannel(v.x, gray), ShadeChannel(v.y, gray), ShadeChannel(v.z, gray), 255)
  }

  /** The recolour loop's effect on one pixel: below the threshold it turns violet. */
  function VioletPixel(c: Color, normalize: Vec3 -> Vec3): Color {
    if c.r < WhiteThreshold then VioletShade(c.r, VioletDirection(normalize)) else c
  }

  /**
    With a unit-range normalisation, a recoloured pixel is no brighter on
    any channel than the grey it replaced, so it stays below the threshold;
    pixels at or above the threshold are untouched.
   */
  lemma VioletPixelDarker(c: Color, normalize: Vec3 -> Vec3)
    requires ValidColor(c)
    requires var v := VioletDirection(normalize);
      0.0 <= v.x <= 1.0 && 0.0 <= v.y <= 1.0 && 0.0 <= v.z <= 1.0
    ensures c.r >= WhiteThreshold ==> VioletPixel(c, normalize) == c
    ensures c.r < WhiteThreshold ==>
      var r := VioletPixel(c, normalize);
      r.a == 255 && 0 <= r.r <= c.r && 0 <= r.g <= c.r && 0 <= r.b <= c.r
  {
    if c.r < WhiteThreshold {
      var v := VioletDirection(normalize);
      ScaledGrayBound(v.x, c.r);
      ScaledGrayBound(v.y, c.r);
      ScaledGrayBound(v.z, c.r);
    }
  }

  /** A unit-range factor times a byte, truncated and stored, is at most that byte. */
  lemma ScaledGrayBound(k: real, gray: int)
    requires 0.0 <= k <= 1.0 && IsByte(gray)
    ensures 0 <= ShadeChannel(k, gray) <= gray
  {
    var p := k * gray as real;
    assert gray as real - p == (1.0 - k) * gray as real;
    ProductNonNegative(1.0 - k, gray as real);
    ProductNonNegative(k, gray as real);
    var t := TruncToInt(p);
    assert 0 <= t && t as real <= p <= gray as real;
    assert IsByte(t);
  }

  /**
    The loop of janperlin.c lines 158-174: pixels whose red is below the
    threshold are redrawn violet; the others are not drawn at all.
   */
  method VioletRecolour(image: ImageBuffer, normalize: Vec3 -> Vec3)
    requires image.Valid()
    modifies image.data
    ensures image.Valid()
    ensures image.data[..] == Recoloured(old(image.data[..]), c => VioletPixel(c, normalize))
  {
    var w, h := image.width, image.height;
    var pixels := image.data[..];
    ghost var target := Recoloured(pixels, c => VioletPixel(c, normalize));
    var i := 0;
    while i < w * h
      invariant 0 <= i <= w * h && image.Valid()
      invariant forall k :: 0 <= k < i ==> image.data[k] == target[k]
      invariant forall k :: i <= k < w * h ==> image.data[k] == pixels[k]
    {
      ScanPosition(i, w, h);
      var x := i % w;
      var y := i / w;
      if pixels[i].r < WhiteThreshold {
        image.DrawPixel(x, y, VioletShade(pixels[i].r, VioletDirection(normalize)));
      }
      i := i + 1;
    }
  }
}
