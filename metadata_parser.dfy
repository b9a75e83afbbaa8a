/**
 * `resize_metadata` of the browser module: rescale every overlay box of a
 * metadata list from the canvas it was recorded for to a new canvas size.
 * The f64 arithmetic `(c as f64 * new as f64 / size as f64) as u32` is
 * modelled on integers: truncation is integer division, and the saturating
 * `as u32` cast is written out, including the division by a zero size (NaN
 * casts to 0, +infinity to u32::MAX). The rounding of f64 products beyond
 * 2^53 is not modelled.
 */
module MetadataParser {

  type U32 = x: int | 0 <= x < 0x1_0000_0000

  const U32Max: U32 := 0xFFFF_FFFF

  /** A record of the metadata list; the timestamp is passed through untouched. */
  datatype MediaFileMetadata = MediaFileMetadata(timestamp: real, x: U32, y: U32, width: U32, height: U32)

  /** One coordinate scaled from a canvas of `size` to one of `newSize`. */
  function ScaleCoord(c: U32, newSize: U32, size: U32): (r: U32)
    ensures c == 0 ==> r == 0
    ensures size == 0 ==> r == if newSize == 0 then 0 else (if c == 0 then 0 else U32Max)
  {
    if size == 0 then
      (if c == 0 || newSize == 0 then 0 else U32Max)
    else
      MulMono(0, c, newSize);
      var q := c * newSize / size;
      if q > U32Max then U32Max else q
  }

  /**
   * On a non-empty canvas the scaled coordinate is the exact quotient
   * `c * newSize / size` rounded toward zero, unless that exceeds u32::MAX.
   */
  lemma ScaleCoordTruncates(c: U32, newSize: U32, size: U32)
    requires size > 0
    ensures ScaleCoord(c, newSize, size) * size <= c * newSize
    ensures ScaleCoord(c, newSize, size) < U32Max ==> c * newSize < (ScaleCoord(c, newSize, size) + 1) * size
  {
    var q := c * newSize / size;
    DivBounds(c * newSize, size);
    if q > U32Max {
      MulMono(U32Max, q, size);
    }
  }

  /** A coordinate inside its canvas lands inside the new canvas. */
  lemma ScaleCoordInside(c: U32, newSize: U32, size: U32)
    requires 0 < size && c <= size
    ensures ScaleCoord(c, newSize, size) <= newSize
  {
    var q := c * newSize / size;
    DivBounds(c * newSize, size);
    MulMono(c, size, newSize);
    assert q * size <= newSize * size;
    MulCancel(q, newSize, size);
  }

  lemma DivBounds(p: nat, k: nat)
    requires k > 0
    ensures p / k * k <= p < (p / k + 1) * k
  {
  }

  lemma MulMono(a: nat, b: nat, k: nat)
    requires a <= b
    ensures a * k <= b * k
  {
  }

  lemma MulCancel(a: int, b: int, k: int)
    requires k > 0 && a * k <= b * k
    ensures a <= b
  {
    assert (b - a) * k >= 0;
  }

  lemma MulCancelStrict(a: int, b: int, k: int)
    requires k > 0 && a * k < b * k
    ensures a < b
  {
    assert (b - a) * k > 0;
  }

  lemma MulDivCancel(a: nat, k: nat)
    requires k > 0
    ensures a * k / k == a
  {
    var q := a * k / k;
    assert q * k <= a * k < (q + 1) * k;
    MulCancel(q, a, k);
    MulCancelStrict(a, q + 1, k);
  }

  /** `resize_metadata`: each box rescaled to the new canvas, list length, order and timestamps kept. */
  function ResizeMetadata(metadata: seq<MediaFileMetadata>, newWidth: U32, newHeight: U32): (r: seq<MediaFileMetadata>)
    ensures |r| == |metadata|
    ensures forall i :: 0 <= i < |r| ==>
              && r[i].timestamp == metadata[i].timestamp
              && r[i].width == newWidth && r[i].height == newHeight
              && r[i].x == ScaleCoord(metadata[i].x, newWidth, metadata[i].width)
              && r[i].y == ScaleCoord(metadata[i].y, newHeight, metadata[i].height)
  {
    seq(|metadata|, i requires 0 <= i < |metadata| =>
      MediaFileMetadata(
        metadata[i].timestamp,
        ScaleCoord(metadata[i].x, newWidth, metadata[i].width),
        ScaleCoord(metadata[i].y, newHeight, metadata[i].height),
        newWidth,
        newHeight))
  }

  /** Scaling to a canvas and then from it to itself changes nothing. */
  lemma ScaleCoordIdempotent(c: U32, newSize: U32, size: U32)
    ensures ScaleCoord(ScaleCoord(c, newSize, size), newSize, newSize) == ScaleCoord(c, newSize, size)
  {
    var once := ScaleCoord(c, newSize, size);
    if newSize > 0 {
      MulDivCancel(once, newSize);
    }
  }

  /** Resizing twice to the same canvas is resizing once. */
  lemma ResizeIdempotent(metadata: seq<MediaFileMetadata>, newWidth: U32, newHeight: U32)
    ensures ResizeMetadata(ResizeMetadata(metadata, newWidth, newHeight), newWidth, newHeight)
            == ResizeMetadata(metadata, newWidth, newHeight)
  {
    var once := ResizeMetadata(metadata, newWidth, newHeight);
    var twice := ResizeMetadata(once, newWidth, newHeight);
    forall i | 0 <= i < |metadata|
      ensures twice[i] == once[i]
    {
      ScaleCoordIdempotent(metadata[i].x, newWidth, metadata[i].width);
      ScaleCoordIdempotent(metadata[i].y, newHeight, metadata[i].height);
    }
  }

  /** A box origin inside its canvas stays inside the new canvas. */
  lemma ResizeKeepsInside(metadata: seq<MediaFileMetadata>, newWidth: U32, newHeight: U32, i: nat)
    requires i < |metadata|
    requires 0 < metadata[i].width && metadata[i].x <= metadata[i].width
    requires 0 < metadata[i].height && metadata[i].y <= metadata[i].height
    ensures ResizeMetadata(metadata, newWidth, newHeight)[i].x <= newWidth
    ensures ResizeMetadata(metadata, newWidth, newHeight)[i].y <= newHeight
  {
    ScaleCoordInside(metadata[i].x, newWidth, metadata[i].width);
    ScaleCoordInside(metadata[i].y, newHeight, metadata[i].height);
  }
}
