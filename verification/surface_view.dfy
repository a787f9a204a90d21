/**
 * The arithmetic of the camera view: reading the rendered frame back as an
 * upright ARGB bitmap, and sizing the view to the camera preview's aspect.
 */
module SurfaceView {
  import opened JavaArith
  import opened Camera
  import opened StickerFilter

  // ---------------------------------------------------------------------
  // Frame read-back
  // ---------------------------------------------------------------------

  /** The byte of a 32-bit pixel that starts at bit `shift`. */
  function Channel(p: bv32, shift: bv5): bv32 {
    (p >> shift) & 0xff
  }

  /**
   * Turns a pixel read as R, G, B, A bytes (lowest first) into the
   * bitmap's A, R, G, B word: bytes 0 and 2 change places, bytes 1 and 3
   * stay.
   */
  function Swizzle(p: bv32): (r: bv32)
    ensures Channel(r, 0) == Channel(p, 16) && Channel(r, 16) == Channel(p, 0)
    ensures Channel(r, 8) == Channel(p, 8) && Channel(r, 24) == Channel(p, 24)
  {
    (p & 0xff00ff00) | ((p << 16) & 0x00ff0000) | ((p >> 16) & 0xff)
  }

  /** A pixel is determined by its four bytes. */
  lemma ChannelsDetermine(p: bv32, q: bv32)
    requires Channel(p, 0) == Channel(q, 0) && Channel(p, 8) == Channel(q, 8)
    requires Channel(p, 16) == Channel(q, 16) && Channel(p, 24) == Channel(q, 24)
    ensures p == q
  {
  }

  /** Swapping the two bytes back restores the pixel. */
  lemma SwizzleInvolution(p: bv32)
    ensures Swizzle(Swizzle(p)) == p
  {
    ChannelsDetermine(Swizzle(Swizzle(p)), p);
  }

  /** Row `i` of a `w`-wide image of `h` rows starts at `i * w` and ends within the image. */
  lemma RowOffsets(i: nat, w: nat, h: nat)
    requires i < h
    ensures 0 <= i * w && i * w + w == (i + 1) * w <= w * h
    ensures (h - 1 - i) * w + w == (h - i) * w
  {
    MulNonneg(i, w);
    MulMonotone(i + 1, h, w);
  }

  /** Dividing `q * w + r` by `w` gives back `q` and `r`. */
  lemma DivModUnique(q: nat, r: nat, w: nat)
    requires r < w
    ensures (q * w + r) / w == q && (q * w + r) % w == r
  {
    var k := q * w + r;
    var q', r' := k / w, k % w;
    assert (q' - q) * w == r - r';
    assert (q - q') * w == r' - r;
    MulAtLeast(q' - q, w);
    MulAtLeast(q - q', w);
  }

  /** Position `k` lies in row `k / w`, which is a row of the image. */
  lemma RowOf(k: nat, w: nat, h: nat)
    requires k < w * h
    ensures w > 0 && k / w < h && k == k / w * w + k % w
  {
    MulAtLeast(k / w - h + 1, w);
    assert (k / w - h + 1) * w == k / w * w - h * w + w;
  }

  /**
   * The position pixel `k` of the bitmap is read from: the same column of
   * the mirrored row.
   */
  function Mirror(k: nat, w: nat, h: nat): (m: nat)
    requires k < w * h
    ensures m < w * h
  {
    RowOf(k, w, h);
    RowOffsets(h - 1 - k / w, w, h);
    (h - 1 - k / w) * w + k % w
  }

  /** Row `i` and row `h - 1 - i` are each other's mirror, column by column. */
  lemma MirrorCell(i: nat, j: nat, w: nat, h: nat)
    requires i < h && j < w
    ensures 0 <= (h - 1 - i) * w && (h - 1 - i) * w + j < w * h
    ensures 0 <= i * w && i * w + j < w * h
    ensures Mirror((h - 1 - i) * w + j, w, h) == i * w + j
  {
    RowOffsets(i, w, h);
    RowOffsets(h - 1 - i, w, h);
    DivModUnique(h - 1 - i, j, w);
  }

  /** Mirroring twice gives back the position. */
  lemma MirrorInvolution(k: nat, w: nat, h: nat)
    requires k < w * h
    ensures Mirror(Mirror(k, w, h), w, h) == k
  {
    RowOf(k, w, h);
    var q, r := k / w, k % w;
    assert Mirror(k, w, h) == (h - 1 - q) * w + r;
    MirrorCell(q, r, w, h);
  }

  /**
   * The bitmap for `h` rows of `w` pixels read bottom row first: the
   * rows in reverse order, every pixel swizzled.
   */
  function Flipped(s: seq<bv32>, w: nat, h: nat): (r: seq<bv32>)
    requires |s| == w * h
    ensures |r| == |s|
  {
    seq(|s|, k requires 0 <= k < |s| => Swizzle(s[Mirror(k, w, h)]))
  }

  /**
   * Pixel `j` of row `i` of the read frame lands, swizzled, at pixel `j`
   * of row `h - 1 - i` of the bitmap.
   */
  lemma FlippedCell(s: seq<bv32>, w: nat, h: nat, i: nat, j: nat)
    requires |s| == w * h && i < h && j < w
    ensures 0 <= (h - 1 - i) * w && (h - 1 - i) * w + j < w * h
    ensures 0 <= i * w && i * w + j < w * h
    ensures Flipped(s, w, h)[(h - 1 - i) * w + j] == Swizzle(s[i * w + j])
  {
    MirrorCell(i, j, w, h);
  }

  /** Reading back a bitmap of the bitmap gives the original frame. */
  lemma FlippedInvolution(s: seq<bv32>, w: nat, h: nat)
    requires |s| == w * h
    ensures Flipped(Flipped(s, w, h), w, h) == s
  {
    forall k | 0 <= k < |s|
      ensures Flipped(Flipped(s, w, h), w, h)[k] == s[k]
    {
      MirrorInvolution(k, w, h);
      SwizzleInvolution(s[k]);
    }
  }

  /**
   * Builds the bitmap from the frame `pixels` read from a `w` x `h`
   * surface: row `i` of the frame, swizzled, becomes row `h - 1 - i`.
   * `Bitmap.createBitmap` rejects an empty width or height with an
   * `IllegalArgumentException`, reported as `thrown`; `bitmap` is then the
   * pixel buffer it was given.
   */
  method CreateBitmap(pixels: seq<bv32>, w: nat, h: nat) returns (bitmap: array<bv32>, thrown: bool)
    requires |pixels| == w * h
    ensures fresh(bitmap)
    ensures bitmap[..] == Flipped(pixels, w, h)
    ensures thrown <==> w == 0 || h == 0
  {
    ghost var flipped := Flipped(pixels, w, h);
    bitmap := new bv32[w * h];
    for i := 0 to h
      invariant bitmap.Length == w * h
      invariant 0 <= (h - i) * w <= w * h
      invariant forall k :: (h - i) * w <= k < w * h ==> bitmap[k] == flipped[k]
    {
      RowOffsets(i, w, h);
      RowOffsets(h - 1 - i, w, h);
      var offset1 := i * w;
      var offset2 := (h - 1 - i) * w;
      CopyRow(pixels, offset1, bitmap, offset2, w);
      forall k | offset2 <= k < offset2 + w
        ensures bitmap[k] == flipped[k]
      {
        MirrorCell(i, k - offset2, w, h);
      }
    }
    assert bitmap[..] == flipped;
    thrown := w == 0 || h == 0;
  }

  /** Writes the `w` pixels of `pixels` from `offset1`, swizzled, into `bitmap` from `offset2`. */
  method CopyRow(pixels: seq<bv32>, offset1: nat, bitmap: array<bv32>, offset2: nat, w: nat)
    requires offset1 + w <= |pixels| && offset2 + w <= bitmap.Length
    modifies bitmap
    ensures forall k :: offset2 <= k < offset2 + w ==> bitmap[k] == Swizzle(pixels[k - offset2 + offset1])
    ensures forall k :: 0 <= k < bitmap.Length && !(offset2 <= k < offset2 + w) ==> bitmap[k] == old(bitmap[k])
  {
    for j := 0 to w
      invariant forall k :: offset2 <= k < offset2 + j ==> bitmap[k] == Swizzle(pixels[k - offset2 + offset1])
      invariant forall k :: 0 <= k < bitmap.Length && !(offset2 <= k < offset2 + j) ==> bitmap[k] == old(bitmap[k])
    {
      bitmap[offset2 + j] := Swizzle(pixels[offset1 + j]);
    }
  }

  // ---------------------------------------------------------------------
  // Layout
  // ---------------------------------------------------------------------

  datatype Dimensions = Dimensions(width: int, height: int)

  /**
   * The aspect for a surface of `width` x `height`: the preview's own
   * size on a landscape surface, its transpose on a portrait one.
   */
  function AspectFor(width: int, height: int, previewWidth: int, previewHeight: int): Dimensions {
    if width > height then Dimensions(previewWidth, previewHeight)
    else Dimensions(previewHeight, previewWidth)
  }

  /**
   * For a landscape preview the aspect's long side follows the surface's:
   * wide for a landscape surface, tall for a portrait one; either way it
   * holds the preview's two sides.
   */
  lemma AspectFollowsSurface(width: int, height: int, previewWidth: int, previewHeight: int)
    requires previewWidth >= previewHeight
    ensures var a := AspectFor(width, height, previewWidth, previewHeight);
      && (width > height ==> a.width >= a.height)
      && (width <= height ==> a.width <= a.height)
      && multiset{a.width, a.height} == multiset{previewWidth, previewHeight}
  {
  }

  /**
   * The measured size for a view offered `width` x `height` with the
   * stored aspect `ratioWidth` : `ratioHeight` (0 meaning none).
   */
  function Measure(width: int, height: int, ratioWidth: int, ratioHeight: int): Dimensions {
    if ratioWidth == 0 || ratioHeight == 0 then Dimensions(width, height)
    else if width < Div(height * ratioWidth, ratioHeight) then
      Dimensions(Div(height * ratioWidth, ratioHeight), height)
    else Dimensions(width, Div(width * ratioHeight, ratioWidth))
  }

  /**
   * With a stored aspect, the measured size keeps one offered dimension
   * and derives the other from it, rounded down, so that its aspect is
   * the stored one up to that rounding; it is never narrower than offered.
   */
  lemma MeasureKeepsAspect(width: nat, height: nat, ratioWidth: nat, ratioHeight: nat)
    requires ratioWidth > 0 && ratioHeight > 0
    ensures var m := Measure(width, height, ratioWidth, ratioHeight);
      && m.width >= width
      && ((m.height == height && m.width * ratioHeight <= height * ratioWidth < (m.width + 1) * ratioHeight)
       || (m.width == width && m.height * ratioWidth <= width * ratioHeight < (m.height + 1) * ratioWidth))
  {
    MulNonneg(height, ratioWidth);
    MulNonneg(width, ratioHeight);
    var q := height * ratioWidth / ratioHeight;
    var p := width * ratioHeight / ratioWidth;
    assert Div(height * ratioWidth, ratioHeight) == q;
    assert Div(width * ratioHeight, ratioWidth) == p;
    DivBounds(height * ratioWidth, ratioHeight);
    DivBounds(width * ratioHeight, ratioWidth);
  }

  /** No stored aspect: the offered size is used as is. */
  lemma MeasureWithoutAspect(width: int, height: int, ratioWidth: int, ratioHeight: int)
    requires ratioWidth == 0 || ratioHeight == 0
    ensures Measure(width, height, ratioWidth, ratioHeight) == Dimensions(width, height)
  {
  }

  class CameraGLSurfaceView {
    var ratioWidth: int
    var ratioHeight: int

    constructor ()
      ensures ratioWidth == 0 && ratioHeight == 0
    {
      ratioWidth, ratioHeight := 0, 0;
    }

    /**
     * Stores the aspect the view is sized to. A negative side raises
     * `IllegalArgumentException`, reported as `thrown`, and stores nothing.
     */
    method SetAspectRatio(width: int, height: int) returns (thrown: bool)
      modifies this`ratioWidth, this`ratioHeight
      ensures thrown <==> width < 0 || height < 0
      ensures thrown ==> ratioWidth == old(ratioWidth) && ratioHeight == old(ratioHeight)
      ensures !thrown ==> ratioWidth == width && ratioHeight == height
    {
      if width < 0 || height < 0 {
        return true;
      }
      ratioWidth := width;
      ratioHeight := height;
      thrown := false;
    }

    /** The measured size of the view offered `width` x `height`. */
    method OnMeasure(width: int, height: int) returns (measured: Dimensions)
      ensures measured == Measure(width, height, ratioWidth, ratioHeight)
    {
      if 0 == ratioWidth || 0 == ratioHeight {
        measured := Dimensions(width, height);
      } else if width < Div(height * ratioWidth, ratioHeight) {
        measured := Dimensions(Div(height * ratioWidth, ratioHeight), height);
      } else {
        measured := Dimensions(width, Div(width * ratioHeight, ratioWidth));
      }
    }

    /**
     * The surface became `width` x `height`: the view takes the preview's
     * aspect in the surface's orientation, and the sticker filter receives
     * the preview size rotated upright. A negative preview side raises and
     * stops the handler.
     */
    method OnSurfaceChanged(width: int, height: int, camera: EGLCamera, sticker: FaceStickerFilter)
      returns (thrown: bool)
      requires camera.previewWidth != 0
      modifies this`ratioWidth, this`ratioHeight, sticker`imageWidth, sticker`imageHeight, sticker`ratio
      ensures var a := AspectFor(width, height, camera.previewWidth, camera.previewHeight);
        && (thrown <==> a.width < 0 || a.height < 0)
        && (!thrown ==> ratioWidth == a.width && ratioHeight == a.height)
        && (!thrown ==> sticker.imageWidth == camera.previewHeight && sticker.imageHeight == camera.previewWidth)
      ensures !thrown ==> sticker.ratio * camera.previewWidth as real == camera.previewHeight as real
      ensures thrown ==>
        && ratioWidth == old(ratioWidth) && ratioHeight == old(ratioHeight)
        && sticker.imageWidth == old(sticker.imageWidth) && sticker.imageHeight == old(sticker.imageHeight)
        && sticker.ratio == old(sticker.ratio)
    {
      var previewWidth := camera.previewWidth;
      var previewHeight := camera.previewHeight;
      if width > height {
        thrown := SetAspectRatio(previewWidth, previewHeight);
      } else {
        thrown := SetAspectRatio(previewHeight, previewWidth);
      }
      if thrown {
        return;
      }
      sticker.OnInputSizeChanged(previewHeight, previewWidth);
    }
  }
}
