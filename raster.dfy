/** Bitmaps, EXIF orientation and rectangle extraction (the SkiaSharp side of
    the program, reduced to sizes, identity and copied pixels). */
module Raster {
  import opened Wrappers

  /** One pixel, an `SKColor`: 32-bit ARGB. */
  type Pixel = bv32

  /** `px` is a row-major grid of `height` rows of `width` pixels. */
  predicate IsGrid(px: seq<seq<Pixel>>, width: int, height: int)
  {
    |px| == height && forall r :: 0 <= r < |px| ==> |px[r]| == width
  }

  function Blank(width: nat, height: nat): (px: seq<seq<Pixel>>)
    ensures IsGrid(px, width, height)
  {
    seq(height, _ => seq(width, _ => 0))
  }

  /** `SKEncodedOrigin`: where the stored image's first row and column belong. */
  datatype Origin = TopLeft | TopRight | BottomRight | BottomLeft | LeftTop | RightTop | RightBottom | LeftBottom

  /** The origins whose correction turns the image a quarter: width and height trade places. */
  predicate SwapsAxes(o: Origin)
  {
    o == RightTop || o == LeftBottom || o == RightBottom || o == LeftTop
  }

  datatype Size = Size(width: int, height: int)

  /** The size `ApplyExifOrientation` allocates for an image of `w` by `h`. */
  function OrientedSize(o: Origin, w: int, h: int): Size
  {
    if SwapsAxes(o) then Size(h, w) else Size(w, h)
  }

  /** An `SKBitmap`. */
  class Bitmap {
    var width: int
    var height: int
    var pixels: seq<seq<Pixel>>
    var disposed: bool

    ghost predicate Valid()
      reads this
    {
      0 <= width && 0 <= height && IsGrid(pixels, width, height)
    }

    /** `new SKBitmap(w, h)`: what the new pixels hold is not specified. */
    constructor (w: nat, h: nat)
      ensures Valid() && width == w && height == h && !disposed
    {
      width, height := w, h;
      var px :| IsGrid(px, w, h) by {
        assert IsGrid(Blank(w, h), w, h);
      }
      pixels := px;
      disposed := false;
    }

    /** A decoder or `ExtractSubset` filling the pixel memory. */
    method SetPixels(px: seq<seq<Pixel>>)
      requires Valid() && IsGrid(px, width, height)
      modifies this
      ensures Valid() && pixels == px
      ensures width == old(width) && height == old(height) && disposed == old(disposed)
    {
      pixels := px;
    }

    method Dispose()
      modifies this
      ensures disposed
      ensures width == old(width) && height == old(height) && pixels == old(pixels)
    {
      disposed := true;
    }
  }

  /** The pixels of the rectangle with corners `(x1, y1)` (inclusive) and
      `(x2, y2)` (exclusive) of a `width` by `height` grid. */
  function Crop(px: seq<seq<Pixel>>, width: int, height: int, x1: int, y1: int, x2: int, y2: int): (r: seq<seq<Pixel>>)
    requires IsGrid(px, width, height)
    requires 0 <= x1 <= x2 <= width && 0 <= y1 <= y2 <= height
    ensures IsGrid(r, x2 - x1, y2 - y1)
    ensures forall i, j :: 0 <= i < y2 - y1 && 0 <= j < x2 - x1 ==> r[i][j] == px[y1 + i][x1 + j]
  {
    seq(y2 - y1, i requires 0 <= i < y2 - y1 => px[y1 + i][x1..x2])
  }

  /** `Subset`: a new bitmap of size `(x2 - x1, y2 - y1)` holding that rectangle of `src`. */
  method Subset(src: Bitmap, x1: int, y1: int, x2: int, y2: int) returns (dst: Bitmap)
    requires src.Valid() && !src.disposed
    requires 0 <= x1 <= x2 <= src.width && 0 <= y1 <= y2 <= src.height
    ensures fresh(dst) && dst.Valid() && !dst.disposed
    ensures dst.width == x2 - x1 && dst.height == y2 - y1
    ensures dst.pixels == Crop(src.pixels, src.width, src.height, x1, y1, x2, y2)
  {
    dst := new Bitmap(x2 - x1, y2 - y1);
    dst.SetPixels(Crop(src.pixels, src.width, src.height, x1, y1, x2, y2));
  }

  /** `ApplyExifOrientation`: an upright image is returned itself; any other is
      redrawn into a new bitmap of the corrected size, leaving `src` as it was. */
  method ApplyExifOrientation(src: Bitmap, origin: Origin) returns (dst: Bitmap)
    requires src.Valid() && !src.disposed
    ensures dst.Valid() && !dst.disposed
    ensures origin == TopLeft ==> dst == src
    ensures origin != TopLeft ==> fresh(dst)
    ensures Size(dst.width, dst.height) == OrientedSize(origin, src.width, src.height)
  {
    if origin == TopLeft {
      return src;
    }
    var w, h := src.width, src.height;
    var swap := SwapsAxes(origin);
    dst := new Bitmap(if swap then h else w, if swap then w else h);
  }

  /** The `InvalidOperationException` thrown for a file that cannot be decoded.
      Its text is the message `Cannot open {path}`; the type name and stack
      trace that `ToString()` would add are not modelled. */
  function CannotOpen(path: string): Exception
  {
    Exception("Cannot open " + path, None)
  }

  /** What the decoder reports for a readable image file. */
  datatype Decoded = Decoded(width: nat, height: nat, pixels: seq<seq<Pixel>>, origin: Origin)

  /** `LoadAndOrientImage`: an unreadable file (`codec` is `None`) throws;
      otherwise the decoded bitmap `raw` is oriented, and disposed exactly when
      orientation produced a different bitmap. */
  method LoadAndOrientImage(path: string, codec: Option<Decoded>) returns (r: Try<Bitmap>, ghost raw: Bitmap?)
    requires codec.Some? ==> IsGrid(codec.value.pixels, codec.value.width, codec.value.height)
    ensures codec.None? ==> r == Throws(CannotOpen(path))
    ensures codec.Some? ==> r.Ok? && raw != null
    ensures r.Ok? ==>
      var d := codec.value;
      && r.value.Valid() && !r.value.disposed
      && Size(r.value.width, r.value.height) == OrientedSize(d.origin, d.width, d.height)
      && (raw.disposed <==> r.value != raw)
      && (d.origin == TopLeft <==> r.value == raw)
      && (d.origin == TopLeft ==> r.value.pixels == d.pixels)
      && fresh(r.value)
  {
    if codec.None? {
      return Throws(CannotOpen(path)), null;
    }
    var d := codec.value;
    var bmp := new Bitmap(d.width, d.height);
    bmp.SetPixels(d.pixels);
    raw := bmp;
    var oriented := ApplyExifOrientation(bmp, d.origin);
    if oriented != bmp {
      bmp.Dispose();
    }
    return Ok(oriented), raw;
  }
}
