/** Sizes of raw frames: planes of aligned lines, computed in 32 bits as the driver does. */
module FrameLayout {
  import opened Bytes

  const MAX_SIDE: nat := 8192

  /** The least multiple of `a` that is not below `x`. */
  function Align(x: nat, a: nat): (r: nat)
    requires a > 0
  {
    (x + a - 1) / a * a
  }

  lemma PageIsLeast(x: nat)
    ensures x <= Align(x, 4096) < x + 4096 && Align(x, 4096) % 4096 == 0
  {
  }

  lemma LineIsLeast(x: nat)
    ensures x <= Align(x, 128) < x + 128 && Align(x, 128) % 128 == 0
    ensures x <= Align(x, 256) < x + 256 && Align(x, 256) % 256 == 0
  {
  }

  lemma RowsAreLeast(x: nat)
    ensures x <= Align(x, 32) < x + 32 && Align(x, 32) % 32 == 0
    ensures x <= Align(x, 16) < x + 16 && Align(x, 16) % 16 == 0
  {
  }

  /** The same in 32 bits, as a macro over u32 values computes it. */
  function Align32(x: nat, a: nat): nat
    requires a > 0
  {
    var up := Wrap32(x + a - 1);
    up - up % a
  }

  lemma Align32IsExact(x: nat, a: nat)
    requires a > 0 && x + a - 1 < U32_LIMIT
    ensures Align32(x, a) == Align(x, a)
  {
    assert x + a - 1 == (x + a - 1) / a * a + (x + a - 1) % a;
  }

  datatype Format = Nv12 | P010

  function SampleBytes(f: Format): nat {
    if f == P010 then 2 else 1
  }

  /** Bytes from one line to the next, as the client is told. */
  function RawStride(width: nat, f: Format): nat {
    Align32(Wrap32(width * SampleBytes(f)), if f == P010 then 256 else 128)
  }

  function PlanesSize(yStride: nat, yScanlines: nat, uvStride: nat, uvScanlines: nat): nat {
    var yPlane := Wrap32(yStride * yScanlines);
    var uvPlane := Wrap32(uvStride * uvScanlines);
    Align32(Wrap32(yPlane + uvPlane), 4096)
  }

  /** The size of a frame, as the driver computes it. */
  function BufferSize(width: nat, height: nat, f: Format): nat {
    var bytes := Wrap32(width * SampleBytes(f));
    PlanesSize(Align32(bytes, 128), Align32(height, 32), Align32(bytes, 128), Align32(Wrap32(height + 1) / 2, 16))
  }

  /** Lines of samples and half as many lines of colour, rounded up to pages. */
  function Pages(stride: nat, lines: nat): nat {
    Align(stride * lines * 3 / 2, 4096)
  }

  lemma Multiply(a: nat, b: nat, c: nat, d: nat)
    requires a <= c && b <= d
    ensures a * b <= c * d
  {
    assert a * b <= c * b;
    assert c * b <= c * d;
  }

  /** Half the height, aligned to 16 lines, is half of the height aligned to 32. */
  lemma ChromaLinesAreHalf(height: nat)
    ensures 2 * Align((height + 1) / 2, 16) == Align(height, 32)
  {
  }

  lemma PlanesFillPages(stride: nat, half: nat)
    requires stride <= 2 * MAX_SIDE && 2 * half <= MAX_SIDE
    ensures var size := PlanesSize(stride, 2 * half, stride, half);
            size == Pages(stride, 2 * half) && size < U32_LIMIT && size % 4096 == 0
  {
    var p := stride * half;
    Multiply(stride, half, 2 * MAX_SIDE, MAX_SIDE);
    assert stride * (2 * half) == 2 * p;
    Align32IsExact(3 * p, 4096);
    PageIsLeast(3 * p);
  }

  predicate Fits(width: nat, height: nat) {
    width <= MAX_SIDE && height <= MAX_SIDE
  }

  /** Nothing overflows: the size is the number of bytes the planes really need, in whole pages. */
  lemma SizeIsExact(width: nat, height: nat, f: Format)
    requires Fits(width, height)
    ensures BufferSize(width, height, f) == Pages(Align(width * SampleBytes(f), 128), Align(height, 32))
    ensures BufferSize(width, height, f) < U32_LIMIT && BufferSize(width, height, f) % 4096 == 0
  {
    var bytes, half := width * SampleBytes(f), Align((height + 1) / 2, 16);
    Align32IsExact(bytes, 128);
    Align32IsExact(height, 32);
    Align32IsExact((height + 1) / 2, 16);
    ChromaLinesAreHalf(height);
    FitsAligned(width, height, f);
    PlanesFillPages(Align(bytes, 128), half);
  }

  lemma LineStays(x: nat, n: nat)
    ensures x <= 128 * n ==> Align(x, 128) <= 128 * n
    ensures Align(Align(x, 128), 128) == Align(x, 128)
  {
  }

  lemma RowsStay(x: nat, n: nat)
    ensures x <= 32 * n ==> Align(x, 32) <= 32 * n
    ensures Align(Align(x, 32), 32) == Align(x, 32)
  {
  }

  lemma FitsAligned(width: nat, height: nat, f: Format)
    requires Fits(width, height)
    ensures Align(width * SampleBytes(f), 128) <= 2 * MAX_SIDE && Align(height, 32) <= MAX_SIDE
    ensures Fits(Align(width, 128), Align(height, 32))
    ensures Align(Align(width, 128), 128) == Align(width, 128) && Align(Align(height, 32), 32) == Align(height, 32)
  {
    hide Align;
    LineStays(width * SampleBytes(f), 2 * MAX_SIDE / 128);
    LineStays(width, MAX_SIDE / 128);
    RowsStay(height, MAX_SIDE / 32);
  }

  lemma PagesHold(stride: nat, lines: nat, bytes: nat, height: nat)
    requires bytes <= stride && height <= lines && lines % 2 == 0
    ensures bytes * height + bytes * ((height + 1) / 2) <= Pages(stride, lines)
  {
    var half := (height + 1) / 2;
    Multiply(bytes, height, stride, lines);
    Multiply(bytes, half, stride, lines / 2);
    assert stride * lines == stride * (2 * (lines / 2)) == 2 * (stride * (lines / 2));
    PageIsLeast(stride * lines * 3 / 2);
  }

  /** A line of colour for every two lines of samples, and every line whole: all of them fit. */
  lemma EverySampleFits(width: nat, height: nat, f: Format)
    requires Fits(width, height)
    ensures var bytes := width * (if f == P010 then 2 else 1);
            bytes * height + bytes * ((height + 1) / 2) <= BufferSize(width, height, f)
  {
    hide BufferSize, Pages, Align;
    SizeIsExact(width, height, f);
    var bytes := width * SampleBytes(f);
    LineIsLeast(bytes);
    RowsAreLeast(height);
    PagesHold(Align(bytes, 128), Align(height, 32), bytes, height);
  }

  /** For NV12 the size is what the client's line length implies, from the visible size or the aligned one. */
  lemma Nv12MatchesStride(width: nat, height: nat)
    requires Fits(width, height)
    ensures BufferSize(width, height, Nv12) == Pages(RawStride(width, Nv12), Align(height, 32))
    ensures BufferSize(Align(width, 128), Align(height, 32), Nv12) == BufferSize(width, height, Nv12)
  {
    hide BufferSize, Pages, Align, Align32;
    SizeIsExact(width, height, Nv12);
    Align32IsExact(width, 128);
    FitsAligned(width, height, Nv12);
    SizeIsExact(Align(width, 128), Align(height, 32), Nv12);
  }

  // A width within its last, partly filled unit of 128 pixels.

  lemma AlignSingle(q: nat, r: nat)
    requires r < 128
    ensures Align(128 * q + r, 128) == 128 * q + (if r == 0 then 0 else 128)
  {
  }

  lemma AlignDouble(q: nat, r: nat)
    requires r < 128
    ensures Align(256 * q + 2 * r, 256) == 256 * q + (if r == 0 then 0 else 256)
  {
  }

  lemma AlignHalves(q: nat, r: nat)
    requires r < 128
    ensures Align(256 * q + 2 * r, 128) == 256 * q + (if r == 0 then 0 else if r <= 64 then 128 else 256)
  {
  }

  lemma DoubleUnits(q: nat, r: nat)
    requires r < 128
    ensures Align(128 * q + r, 128) == 128 * q + (if r == 0 then 0 else 128)
    ensures Align(256 * q + 2 * r, 256) == 256 * q + (if r == 0 then 0 else 256)
    ensures Align(256 * q + 2 * r, 128) == 256 * q + (if r == 0 then 0 else if r <= 64 then 128 else 256)
  {
    hide Align;
    AlignSingle(q, r);
    AlignDouble(q, r);
    AlignHalves(q, r);
  }

  lemma DoubleStride(width: nat)
    requires width <= MAX_SIDE
    ensures RawStride(width, P010) == Align(2 * width, 256) == 2 * Align(width, 128)
    ensures Align(2 * Align(width, 128), 128) == 2 * Align(width, 128)
    ensures Align(2 * width, 256) ==
              Align(2 * width, 128) + (if width % 128 == 0 || width % 128 > 64 then 0 else 128)
  {
    hide Align, Align32;
    Align32IsExact(2 * width, 256);
    var q, r := width / 128, width % 128;
    DoubleUnits(q, r);
    DoubleUnits(if r == 0 then q else q + 1, 0);
  }

  /** For P010 it is so from the aligned width, which is how the driver sets the format before it asks. */
  lemma P010MatchesStride(width: nat, height: nat)
    requires Fits(width, height)
    ensures BufferSize(Align(width, 128), Align(height, 32), P010) == Pages(RawStride(width, P010), Align(height, 32))
  {
    hide BufferSize, Pages, RawStride, Align;
    FitsAligned(width, height, P010);
    SizeIsExact(Align(width, 128), Align(height, 32), P010);
    DoubleStride(width);
  }

  /** From the visible width it is too small unless the width is just right. */
  lemma P010FromVisibleWidth(width: nat, height: nat)
    requires Fits(width, height) && height > 0
    ensures BufferSize(width, height, P010) == Pages(RawStride(width, P010), Align(height, 32))
            <==> width % 128 == 0 || width % 128 > 64
    ensures BufferSize(width, height, P010) <= Pages(RawStride(width, P010), Align(height, 32))
  {
    hide BufferSize, Pages, RawStride, Align;
    SizeIsExact(width, height, P010);
    DoubleStride(width);
    RowsAreLeast(height);
    if !(width % 128 == 0 || width % 128 > 64) {
      WiderNeedsAPage(Align(2 * width, 128), Align(height, 32));
    }
  }

  lemma WiderNeedsAPage(stride: nat, lines: nat)
    requires lines >= 32
    ensures Pages(stride, lines) < Pages(stride + 128, lines)
  {
    assert (stride + 128) * lines == stride * lines + 128 * lines;
    var less, more := stride * lines * 3 / 2, (stride + 128) * lines * 3 / 2;
    assert more >= less + 4096;
    PageIsLeast(less);
    PageIsLeast(more);
  }

  lemma AlignIsMonotone(x: nat, y: nat)
    requires x <= y
    ensures Align(x, 32) <= Align(y, 32) && Align(x, 128) <= Align(y, 128) && Align(x, 4096) <= Align(y, 4096)
  {
  }

  lemma PagesAreMonotone(stride: nat, lines: nat, wider: nat, more: nat)
    requires stride <= wider && lines <= more
    ensures Pages(stride, lines) <= Pages(wider, more)
  {
    Multiply(stride, lines, wider, more);
    AlignIsMonotone(stride * lines * 3 / 2, wider * more * 3 / 2);
  }

  /** A frame that is no smaller either way takes no less room. */
  lemma SizeIsMonotone(width: nat, height: nat, wider: nat, higher: nat, f: Format)
    requires width <= wider && height <= higher && Fits(wider, higher)
    ensures BufferSize(width, height, f) <= BufferSize(wider, higher, f)
  {
    hide BufferSize;
    SizeIsExact(width, height, f);
    SizeIsExact(wider, higher, f);
    var b, b' := width * SampleBytes(f), wider * SampleBytes(f);
    AlignIsMonotone(b, b');
    AlignIsMonotone(height, higher);
    PagesAreMonotone(Align(b, 128), Align(height, 32), Align(b', 128), Align(higher, 32));
  }

  /** The line length of the firmware's packed 10-bit frames. */
  function PackedStride(width: nat): nat {
    Align32(Wrap32(width * 4) / 3, 256)
  }

  /** Four thirds of a byte per pixel fit, though the division drops the fraction before it is aligned. */
  lemma PackedLinesFit(width: nat)
    requires width <= MAX_SIDE
    ensures 3 * PackedStride(width) >= 4 * width && PackedStride(width) % 256 == 0
  {
    hide Align, Align32;
    Align32IsExact(width * 4 / 3, 256);
    LineIsLeast(width * 4 / 3);
  }
}
