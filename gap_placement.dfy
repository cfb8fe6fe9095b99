/** Where the onload handler puts the star gap: x in the right half of the image, y with
    a 10-pixel margin, each drawn as floor(Math.random() * span) above the low bound. */
module GapPlacement {
  import opened Props

  /** floor(r * span) for a draw r of Math.random(), which lies in [0, 1). */
  function Draw(r: real, span: int): (k: int)
    requires 0.0 <= r < 1.0
    ensures k as real <= r * span as real < k as real + 1.0
  {
    (r * span as real).Floor
  }

  /** The offsets Draw can produce: 0 .. span-1 for a positive span. The source does not
      guard an empty range, so for span <= 0 the offset lies in span .. 0. */
  predicate ValidDraw(span: int, k: int) {
    if span >= 1 then 0 <= k < span else span <= k <= 0
  }

  /** Every draw of Math.random() gives a valid offset. */
  lemma DrawIsValid(r: real, span: int)
    requires 0.0 <= r < 1.0
    ensures ValidDraw(span, Draw(r, span))
  {
    var s := span as real;
    var t := r * s;
    var f := Draw(r, span);
    assert f as real <= t < f as real + 1.0;
    if span >= 1 {
      assert 0.0 <= t by { MulNonNeg(r, s); }
      assert t < s by { MulBelow(r, s); }
      assert f as real < span as real;
      assert 0 <= f < span;
    } else {
      assert t <= 0.0 by { MulNonNeg(r, -s); }
      assert s <= t by { MulNonNeg(1.0 - r, -s); }
      assert span as real < f as real + 1.0;
      assert span <= f <= 0;
    }
  }

  lemma MulNonNeg(a: real, b: real)
    requires 0.0 <= a && 0.0 <= b
    ensures 0.0 <= a * b
  {
  }

  lemma MulBelow(r: real, s: real)
    requires 0.0 <= r < 1.0 && 0.0 < s
    ensures r * s < s
  {
    assert s - r * s == (1.0 - r) * s;
  }

  /** Every valid offset is produced by some draw of Math.random(), so ValidDraw is exactly
      the set of offsets the source can pick. */
  lemma DrawCovers(span: int, k: int)
    requires ValidDraw(span, k)
    ensures exists r: real :: 0.0 <= r < 1.0 && Draw(r, span) == k
  {
    if span >= 1 {
      var r := Quotient(k as real, span as real);
      assert Draw(r, span) == k;
    } else if k == 0 {
      assert Draw(0.0, span) == 0;
    } else {
      // aim at the middle of [k, k + 1)
      var r := Quotient(-(k as real + 0.5), -span as real);
      assert r * span as real == k as real + 0.5;
      assert Draw(r, span) == k;
    }
  }

  /** a / b as a fraction in [0, 1), for 0 <= a < b. */
  lemma Quotient(a: real, b: real) returns (q: real)
    requires 0.0 <= a < b
    ensures 0.0 <= q < 1.0 && q * b == a
  {
    q := a / b;
  }

  /** A closed interval of candidate positions; `hi` may lie below `lo`. */
  datatype Range = Range(lo: int, hi: int)

  function Span(rg: Range): int {
    rg.hi - rg.lo + 1
  }

  /** The position lo + offset. Inside the range when it is non-empty; otherwise above
      `hi` and at most `lo`. */
  function Pick(rg: Range, k: int): (x: int)
    requires ValidDraw(Span(rg), k)
    ensures rg.lo <= rg.hi ==> rg.lo <= x <= rg.hi
    ensures rg.hi < rg.lo ==> rg.hi < x <= rg.lo
  {
    rg.lo + k
  }

  /** Range of gapX: from floor(imageWidth / 2) to a 10-pixel margin right of the piece. */
  function XRange(c: Config): (rg: Range)
    ensures 2 * rg.lo <= c.imageWidth < 2 * rg.lo + 2
    ensures rg.hi + c.pieceWidth + 10 == c.imageWidth
  {
    Range(c.imageWidth / 2, c.imageWidth - c.pieceWidth - 10)
  }

  /** Range of gapY: 10-pixel margins above and below the piece. It is non-empty iff the
      image is at least the piece and both margins tall. */
  function YRange(c: Config): (rg: Range)
    ensures rg.lo <= rg.hi <==> c.pieceHeight + 20 <= c.imageHeight
  {
    Range(10, c.imageHeight - c.pieceHeight - 10)
  }

  predicate ValidDraws(c: Config, kx: int, ky: int) {
    ValidDraw(Span(XRange(c)), kx) && ValidDraw(Span(YRange(c)), ky)
  }

  /** gapX for the offset kx: in XRange(c) when it is non-empty, and never past its low
      bound floor(imageWidth / 2). */
  function GapX(c: Config, kx: int): (x: int)
    requires ValidDraw(Span(XRange(c)), kx)
    ensures XRange(c).lo <= XRange(c).hi ==> XRange(c).lo <= x <= XRange(c).hi
    ensures x <= Max(XRange(c).lo, XRange(c).hi)
  {
    Pick(XRange(c), kx)
  }

  /** gapY for the offset ky: in YRange(c) when it is non-empty. */
  function GapY(c: Config, ky: int): (y: int)
    requires ValidDraw(Span(YRange(c)), ky)
    ensures YRange(c).lo <= YRange(c).hi ==> YRange(c).lo <= y <= YRange(c).hi
    ensures y <= Max(YRange(c).lo, YRange(c).hi)
  {
    Pick(YRange(c), ky)
  }

  /** With room for it, the gap lies in the right half of the image and the piece keeps a
      10-pixel margin to the right edge. */
  lemma GapXInRightHalf(c: Config, kx: int)
    requires ValidDraw(Span(XRange(c)), kx)
    requires c.imageWidth / 2 <= c.imageWidth - c.pieceWidth - 10
    ensures c.imageWidth / 2 <= GapX(c, kx) <= c.imageWidth - c.pieceWidth - 10
    ensures c.imageWidth <= 2 * GapX(c, kx) + 1
    ensures GapX(c, kx) + c.pieceWidth + 10 <= c.imageWidth
  {
  }

  /** With room for it, the piece keeps 10-pixel margins at the top and the bottom. */
  lemma GapYWithinMargins(c: Config, ky: int)
    requires ValidDraw(Span(YRange(c)), ky)
    requires 10 <= c.imageHeight - c.pieceHeight - 10
    ensures 10 <= GapY(c, ky) <= c.imageHeight - c.pieceHeight - 10
  {
  }

  /** Without room (imageWidth - pieceWidth - 10 < floor(imageWidth / 2)) the gap is not
      clamped to the low bound: it lies strictly beyond the right margin and at most at the
      middle of the image. */
  lemma DegenerateGapX(c: Config, kx: int)
    requires ValidDraw(Span(XRange(c)), kx)
    requires c.imageWidth - c.pieceWidth - 10 < c.imageWidth / 2
    ensures c.imageWidth - c.pieceWidth - 10 < GapX(c, kx) <= c.imageWidth / 2
  {
  }

  /** Each position of a non-empty range is reached by some draw of Math.random(). */
  lemma EveryPositionReachable(rg: Range, x: int)
    requires rg.lo <= x <= rg.hi
    ensures exists r: real :: 0.0 <= r < 1.0 && rg.lo + Draw(r, Span(rg)) == x
  {
    DrawCovers(Span(rg), x - rg.lo);
    var r: real :| 0.0 <= r < 1.0 && Draw(r, Span(rg)) == x - rg.lo;
    assert rg.lo + Draw(r, Span(rg)) == x;
  }

  /** The demo props give gapX in [150, 240] and gapY in [10, 90]. */
  lemma DemoRanges()
    ensures XRange(Demo()) == Range(150, 240)
    ensures YRange(Demo()) == Range(10, 90)
  {
  }

  /** A 100-pixel-wide image with a 50-pixel piece has an empty x range [50, 40]; the draw
      0.95 then puts the gap at 41, in the left half of the image. */
  lemma NarrowImageLeavesRightHalf()
    ensures XRange(Config(100, 150, 50, 50, 3.5)) == Range(50, 40)
    ensures Draw(0.95, Span(Range(50, 40))) == -9
    ensures GapX(Config(100, 150, 50, 50, 3.5), -9) == 41 < 100 / 2
  {
    assert 0.95 * (-9) as real == -8.55;
  }
}
