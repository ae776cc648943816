/**
  `my_perlin_image` of terrain/perlin.c: a greyscale image whose pixel
  (x, y) quantises the fractal noise sampled at a point derived from
  (x, y), the offsets and the scale. The stb noise function is a parameter.
 */
module NoiseImage {
  import opened Grid
  import opened Images

  /** The arguments of `my_perlin_image` other than the size. */
  datatype NoiseParams = NoiseParams(xOff: int, yOff: int, scale: real, lacunarity: real, gain: real, octaves: int)

  /** `stb_perlin_fbm_noise3(x, y, z, lacunarity, gain, octaves)`. */
  type Fbm = (real, real, real, real, real, int) -> real

  /** `(float)width / (float)height`. */
  function AspectRatio(width: int, height: int): real
    requires 0 < height
  {
    width as real / height as real
  }

  /** `nx`: the column scaled to the image width, stretched by the aspect ratio on a wide image. */
  function SampleX(x: int, width: int, height: int, p: NoiseParams): real
    requires 0 < width && 0 < height
  {
    var nx := (x + p.xOff) as real * (p.scale / width as real);
    if width > height then nx * AspectRatio(width, height) else nx
  }

  /** `ny`: the row scaled to the image height, divided by the aspect ratio unless the image is wide. */
  function SampleY(y: int, width: int, height: int, p: NoiseParams): real
    requires 0 < width && 0 < height
  {
    var ny := (y + p.yOff) as real * (p.scale / height as real);
    if width > height then ny else ny / AspectRatio(width, height)
  }

  /** Clamp to [-1, 1], map to [0, 1], scale to 255 and cut to an `int`. */
  function Intensity(noise: real): (v: int)
    ensures IsByte(v)
    ensures noise <= -1.0 ==> v == 0
    ensures noise >= 1.0 ==> v == 255
  {
    var p := if noise < -1.0 then -1.0 else if noise > 1.0 then 1.0 else noise;
    ((p + 1.0) / 2.0 * 255.0).Floor
  }

  /** Brighter noise never gives a darker pixel. */
  lemma IntensityMonotone(n1: real, n2: real)
    requires n1 <= n2
    ensures Intensity(n1) <= Intensity(n2)
  {
  }

  /** The grey, opaque pixel of intensity `v`. */
  function GrayPixel(v: int): Color {
    Color(v, v, v, 255)
  }

  /** The pixel at (x, y): the noise at its sample point, at depth 1. */
  function NoisePixel(fbm: Fbm, x: int, y: int, width: int, height: int, p: NoiseParams): (c: Color)
    requires 0 < width && 0 < height
    ensures ValidColor(c) && c.r == c.g == c.b && c.a == 255
  {
    GrayPixel(Intensity(fbm(SampleX(x, width, height, p), SampleY(y, width, height, p), 1.0,
                            p.lacunarity, p.gain, p.octaves)))
  }

  /** The image `my_perlin_image` returns, pixel `i` taken at column `i % width`, row `i / width`. */
  function PerlinImage(fbm: Fbm, width: int, height: int, p: NoiseParams): (img: Image)
    requires 0 <= width && 0 <= height
    ensures img.width == width && img.height == height && |img.pixels| == width * height
  {
    Image(width, height, seq(width * height, i requires 0 <= i < width * height =>
      ScanPosition(i, width, height);
      NoisePixel(fbm, i % width, i / width, width, height, p)))
  }

  /** The image is well formed, and every pixel is an opaque grey. */
  lemma PerlinImageGray(fbm: Fbm, width: int, height: int, p: NoiseParams)
    requires 0 <= width && 0 <= height
    ensures var img := PerlinImage(fbm, width, height, p);
      WellFormed(img)
      && forall i :: 0 <= i < |img.pixels| ==>
           img.pixels[i].r == img.pixels[i].g == img.pixels[i].b && img.pixels[i].a == 255
  {
  }

  /** Pixel (x, y) of the image sits at `y*width + x` and is the noise sampled for (x, y). */
  lemma PerlinPixelAt(fbm: Fbm, width: int, height: int, p: NoiseParams, x: int, y: int)
    requires 0 <= x < width && 0 <= y < height
    ensures PerlinImage(fbm, width, height, p).pixels[Cell(x, y, width, height)]
      == NoisePixel(fbm, x, y, width, height, p)
  {
    CellCoordinates(x, y, width, height);
  }

  /** On a square image the aspect correction changes neither coordinate. */
  lemma SquareImageUnstretched(x: int, y: int, size: int, p: NoiseParams)
    requires 0 < size
    ensures SampleX(x, size, size, p) == (x + p.xOff) as real * (p.scale / size as real)
    ensures SampleY(y, size, size, p) == (y + p.yOff) as real * (p.scale / size as real)
  {
    assert AspectRatio(size, size) == 1.0;
  }

  /** On a wide image both axes are sampled at the same spacing, `scale / height`. */
  lemma WideImageSameSpacing(x: int, y: int, width: int, height: int, p: NoiseParams)
    requires 0 < height < width
    ensures SampleX(x, width, height, p) == (x + p.xOff) as real * (p.scale / height as real)
    ensures SampleY(y, width, height, p) == (y + p.yOff) as real * (p.scale / height as real)
  {
    var w, h := width as real, height as real;
    calc {
      (p.scale / w) * (w / h);
    ==  { assert (p.scale / w) * w == p.scale; }
      p.scale / h;
    }
  }

  /**
    `my_perlin_image`: allocates `width*height` colours and writes pixel
    (x, y) at `y*width + x`, row by row.
   */
  method MyPerlinImage(fbm: Fbm, width: int, height: int, p: NoiseParams) returns (img: Image)
    requires 0 <= width && 0 <= height
    ensures img == PerlinImage(fbm, width, height, p)
  {
    var pixels := new Color[width * height];
    ghost var target := PerlinImage(fbm, width, height, p).pixels;
    var y := 0;
    while y < height
      invariant 0 <= y <= height
      invariant forall k :: 0 <= k < y * width ==> pixels[k] == target[k]
    {
      NoiseRow(fbm, pixels, width, height, p, y, target);
      y := y + 1;
    }
    img := Image(width, height, pixels[..]);
  }

  /** The inner loop of `my_perlin_image` over row `y`. */
  method NoiseRow(fbm: Fbm, pixels: array<Color>, width: int, height: int, p: NoiseParams, y: int,
                  ghost target: seq<Color>)
    requires 0 <= y < height && 0 <= width && pixels.Length == width * height
    requires target == PerlinImage(fbm, width, height, p).pixels
    requires forall k :: 0 <= k < y * width ==> pixels[k] == target[k]
    modifies pixels
    ensures forall k :: 0 <= k < (y + 1) * width ==> pixels[k] == target[k]
  {
    var row := y * width;
    assert row + width <= width * height by {
      MulMono(y + 1, height, width);
    }
    var x := 0;
    while x < width
      invariant 0 <= x <= width
      invariant forall k :: 0 <= k < row + x ==> pixels[k] == target[k]
    {
      var c := ComputePixel(fbm, x, y, width, height, p);
      PerlinPixelAt(fbm, width, height, p, x, y);
      var i := Cell(x, y, width, height);
      assert i == row + x && target[i] == c;
      pixels[i] := c;
      x := x + 1;
    }
    assert row + width == (y + 1) * width;
  }

  /** The body of the inner loop: sample point, aspect correction, noise, quantisation. */
  method ComputePixel(fbm: Fbm, x: int, y: int, width: int, height: int, p: NoiseParams) returns (c: Color)
    requires 0 < width && 0 < height
    ensures c == NoisePixel(fbm, x, y, width, height, p)
  {
    var nx := (x + p.xOff) as real * (p.scale / width as real);
    var ny := (y + p.yOff) as real * (p.scale / height as real);
    var aspectRatio := width as real / height as real;
    if width > height {
      nx := nx * aspectRatio;
    } else {
      ny := ny / aspectRatio;
    }
    assert nx == SampleX(x, width, height, p) && ny == SampleY(y, width, height, p);
    var noise := fbm(nx, ny, 1.0, p.lacunarity, p.gain, p.octaves);
    var intensity := Intensity(noise);
    c := Color(intensity, intensity, intensity, 255);
  }
}
