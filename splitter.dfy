/** Cutting a two-page spread into its pages. */
module Splitter {
  import opened Raster

  /** The gutter between facing pages, excluded from both halves. */
  const BinderWidth: nat := 0

  /** C#'s integer division by two, which truncates toward zero. */
  function HalveTruncating(x: int): (q: int)
    ensures 2 * q <= x ==> x - 2 * q <= 1
    ensures x >= 0 ==> 0 <= 2 * q <= x
    ensures x < 0 ==> x <= 2 * q <= 0 && 0 <= 2 * q - x <= 1
  {
    if x >= 0 then x / 2 else -((-x) / 2)
  }

  /** The width of the left page of a spread `w` columns wide. */
  function Half(w: int): int
  {
    HalveTruncating(w - BinderWidth)
  }

  /** Left page `[0, half)`, right page `[half + binder, w)`: both fit in the
      spread, and the right page is the wider by one column exactly when the
      width outside the binder is odd. */
  lemma SplitWidths(w: nat)
    ensures 0 <= Half(w) && Half(w) + BinderWidth <= w
    ensures w - (Half(w) + BinderWidth) == Half(w) + (w - BinderWidth) % 2
    ensures Half(w) <= w - (Half(w) + BinderWidth) <= Half(w) + 1
  {
  }

  /** A 101-column spread splits into 50 and 51 columns. */
  lemma SplitOddWidth()
    ensures Half(101) == 50 && 101 - (Half(101) + BinderWidth) == 51
  {
  }

  /** One page to process: its bitmap and the suffix of its name. */
  datatype Page = Page(bmp: Bitmap, suffix: string)

  /** The suffixes of the pages of one entry, in the order they are processed. */
  function Suffixes(split: bool): (r: seq<string>)
    ensures |r| == if split then 2 else 1
  {
    if split then ["_L", "_R"] else [""]
  }

  /** The names of the pages of one entry: the image's base name with each suffix. */
  function PageNames(baseName: string, split: bool): (r: seq<string>)
    ensures |r| == |Suffixes(split)|
    ensures forall i :: 0 <= i < |r| ==> r[i] == baseName + Suffixes(split)[i]
  {
    if split then [baseName + "_L", baseName + "_R"] else [baseName]
  }

  /** The page list of `ProcessImageFile`: unsplit, the spread itself; split, a
      new left-half bitmap then a new right-half bitmap, each a copy of its
      columns at full height. */
  method SplitPages(full: Bitmap, split: bool) returns (pages: seq<Page>)
    requires full.Valid() && !full.disposed
    ensures |pages| == |Suffixes(split)|
    ensures forall i :: 0 <= i < |pages| ==> pages[i].suffix == Suffixes(split)[i]
    ensures forall i :: 0 <= i < |pages| ==> pages[i].bmp.Valid() && !pages[i].bmp.disposed
    ensures !split ==> pages[0].bmp == full
    ensures split ==>
      var w, h, half := full.width, full.height, Half(full.width);
      && fresh(pages[0].bmp) && fresh(pages[1].bmp) && pages[0].bmp != pages[1].bmp
      && pages[0].bmp.width == half && pages[0].bmp.height == h
      && pages[1].bmp.width == w - (half + BinderWidth) && pages[1].bmp.height == h
      && pages[0].bmp.pixels == Crop(full.pixels, w, h, 0, 0, half, h)
      && pages[1].bmp.pixels == Crop(full.pixels, w, h, half + BinderWidth, 0, w, h)
  {
    if split {
      var w, h := full.width, full.height;
      SplitWidths(w);
      var half := Half(w);
      var left := Subset(full, 0, 0, half, h);
      var right := Subset(full, half + BinderWidth, 0, w, h);
      pages := [Page(left, "_L"), Page(right, "_R")];
    } else {
      pages := [Page(full, "")];
    }
  }
}
