/**
  raylib's `Color` and `Image` as values, the mutable image that
  `ImageDrawPixel` writes into, and `GetImageData` (the per-pixel copy loop
  that appears identically in src/janperlin.c and janperlin.c).
 */
module Images {
  import opened Grid

  /** An 8-bit RGBA colour; every channel is an `unsigned char`. */
  datatype Color = Color(r: int, g: int, b: int, a: int)

  predicate IsByte(v: int) {
    0 <= v < 256
  }

  predicate ValidColor(c: Color) {
    IsByte(c.r) && IsByte(c.g) && IsByte(c.b) && IsByte(c.a)
  }

  /** An image as `LoadImageColors` sees it: row-major pixels, pixel (x, y) at `y*width + x`. */
  datatype Image = Image(width: int, height: int, pixels: seq<Color>)

  predicate WellFormed(img: Image) {
    0 <= img.width && 0 <= img.height && |img.pixels| == img.width * img.height
    && forall i :: 0 <= i < |img.pixels| ==> ValidColor(img.pixels[i])
  }

  /** raylib's `GetImageColor` for a pixel inside the image. */
  function ColorAt(img: Image, x: int, y: int): Color
    requires WellFormed(img)
    requires 0 <= x < img.width && 0 <= y < img.height
  {
    img.pixels[Cell(x, y, img.width, img.height)]
  }

  /** `GRAY_VALUE(c)`: the mean of the three colour channels. */
  function Gray(c: Color): (g: real)
    ensures ValidColor(c) ==> 0.0 <= g <= 255.0
  {
    (c.r + c.g + c.b) as real / 3.0
  }

  /** Storing an `int` into an `unsigned char` keeps it modulo 256. */
  function StoreByte(v: int): (b: int)
    ensures IsByte(b)
    ensures IsByte(v) ==> b == v
  {
    v % 256
  }

  /**
    `GetImageData`: allocates `width*height` colours and fills entry `i`
    with `GetImageColor(image, i % width, i / width)`; the result is the
    image's own pixel data, entry for entry.
   */
  method GetImageData(img: Image) returns (pixels: array<Color>)
    requires WellFormed(img)
    ensures pixels.Length == img.width * img.height
    ensures forall i :: 0 <= i < pixels.Length ==>
      pixels[i] == ColorAt(img, i % img.width, i / img.width)
    ensures pixels[..] == img.pixels
  {
    var n := img.width * img.height;
    pixels := new Color[n];
    var i := 0;
    while i < n
      invariant 0 <= i <= n
      invariant forall k :: 0 <= k < i ==> pixels[k] == img.pixels[k]
    {
      ScanPosition(i, img.width, img.height);
      var x := i % img.width;
      var y := i / img.width;
      pixels[i] := ColorAt(img, x, y);
      i := i + 1;
    }
    assert pixels[..] == img.pixels;
    forall k | 0 <= k < pixels.Length
      ensures pixels[k] == ColorAt(img, k % img.width, k / img.width)
    {
      ScanPosition(k, img.width, img.height);
    }
  }

  /** A raylib `Image` that callers update in place through a pointer. */
  class ImageBuffer {
    var width: int
    var height: int
    var data: array<Color>

    ghost predicate Valid()
      reads this
    {
      0 <= width && 0 <= height && data.Length == width * height
    }

    /** The image as a value, as `LoadImageColors` copies it out. */
    function Snapshot(): Image
      reads this, data
    {
      Image(width, height, data[..])
    }

    constructor (img: Image)
      requires WellFormed(img)
      ensures Valid() && fresh(data)
      ensures Snapshot() == img
    {
      width, height := img.width, img.height;
      data := new Color[|img.pixels|](i requires 0 <= i < |img.pixels| => img.pixels[i]);
    }

    /**
      raylib's `ImageDrawPixel`: writes colour `c` at (x, y) when that pixel
      lies inside the image and does nothing otherwise.
     */
    method DrawPixel(x: int, y: int, c: Color)
      requires Valid()
      modifies data
      ensures Valid()
      ensures forall i :: 0 <= i < data.Length ==>
        data[i] == if 0 <= x < width && 0 <= y < height && i == Cell(x, y, width, height)
                   then c else old(data[i])
    {
      if 0 <= x < width && 0 <= y < height {
        data[Cell(x, y, width, height)] := c;
      }
    }

    /**
      raylib's `ImageResize`: the image takes the size asked for, with
      pixels chosen by the library's resampler `resize`.
     */
    method Resize(w: int, h: int, resize: (Image, int, int) -> Image)
      requires Valid()
      requires WellFormed(resize(Snapshot(), w, h))
      requires resize(Snapshot(), w, h).width == w && resize(Snapshot(), w, h).height == h
      modifies this
      ensures Valid() && fresh(data)
      ensures Snapshot() == resize(old(Snapshot()), w, h)
    {
      var r := resize(Snapshot(), w, h);
      width, height := w, h;
      data := new Color[|r.pixels|](i requires 0 <= i < |r.pixels| => r.pixels[i]);
    }
  }
}
