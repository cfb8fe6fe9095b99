/** Where the hole and the piece end up on the background canvas, and the tolerance test
    that decides a release. Coordinates are canvas pixels as reals, since the source
    halves the piece dimensions with floating-point division. */
module Alignment {
  import opened Props

  datatype Point = Point(x: real, y: real)
  datatype Rect = Rect(left: real, top: real, width: real, height: real)

  /** Width of the white border around the piece canvas; the canvas bitmap is drawn inside
      it, so the drawn piece is offset by this much from the piece frame's corner. */
  const PieceBorder: real := 2.0

  function Centre(r: Rect): Point {
    Point(r.left + r.width / 2.0, r.top + r.height / 2.0)
  }

  /** Centre of the star hole cut into the background at (gapX, gapY): the centre of the
      image region the piece shows, so the piece carries what was cut out of the hole. */
  function HoleCentre(c: Config, gapX: int, gapY: int): (h: Point)
    ensures h == Centre(CropRegion(c, gapX, gapY))
  {
    Point(gapX as real + c.pieceWidth as real / 2.0, gapY as real + c.pieceHeight as real / 2.0)
  }

  /** The image region copied into the piece canvas: a piece-sized crop at (gapX, gapY). */
  function CropRegion(c: Config, gapX: int, gapY: int): Rect {
    Rect(gapX as real, gapY as real, c.pieceWidth as real, c.pieceHeight as real)
  }

  /** Where the piece is laid over the background: left = sliderValue, top = gapY, sized as
      the piece. */
  function PieceFrame(c: Config, sliderValue: int, gapY: int): Rect {
    Rect(sliderValue as real, gapY as real, c.pieceWidth as real, c.pieceHeight as real)
  }

  /** Centre of the drawn star of the piece over the background: the frame's corner, plus
      the border, plus the star's centre inside the piece canvas. */
  function PieceCentre(c: Config, sliderValue: int, gapY: int): (pc: Point)
    ensures pc.x == Centre(PieceFrame(c, sliderValue, gapY)).x + PieceBorder
    ensures pc.y == Centre(PieceFrame(c, sliderValue, gapY)).y + PieceBorder
  {
    var frame := PieceFrame(c, sliderValue, gapY);
    Point(frame.left + PieceBorder + c.pieceWidth as real / 2.0,
          frame.top + PieceBorder + c.pieceHeight as real / 2.0)
  }

  /** Over the whole slider range the piece frame stays inside the image, and it reaches
      the image's right edge exactly at the slider's maximum. The bordered piece canvas is
      two borders wider, so at the maximum it overhangs the image by 4 pixels. */
  lemma PieceWithinImage(c: Config, sliderValue: int, gapY: int)
    requires 0 <= sliderValue <= SliderMax(c)
    ensures 0.0 <= PieceFrame(c, sliderValue, gapY).left
    ensures PieceFrame(c, sliderValue, gapY).left + PieceFrame(c, sliderValue, gapY).width
            <= c.imageWidth as real
    ensures (PieceFrame(c, sliderValue, gapY).left + PieceFrame(c, sliderValue, gapY).width
             == c.imageWidth as real) <==> sliderValue == SliderMax(c)
    ensures sliderValue == SliderMax(c) ==>
            PieceFrame(c, sliderValue, gapY).left + PieceFrame(c, sliderValue, gapY).width
            + 2.0 * PieceBorder - c.imageWidth as real == 4.0
  {
  }

  /** The piece frame covers exactly the image region the piece shows iff the slider stands
      at gapX; in that position the drawn star is the hole's star moved by the border. */
  lemma PieceCoversHoleIff(c: Config, sliderValue: int, gapX: int, gapY: int)
    ensures PieceFrame(c, sliderValue, gapY) == CropRegion(c, gapX, gapY) <==> sliderValue == gapX
    ensures PieceCentre(c, sliderValue, gapY)
            == Point(HoleCentre(c, gapX, gapY).x + PieceBorder, HoleCentre(c, gapX, gapY).y + PieceBorder)
            <==> sliderValue == gapX
  {
  }

  /** Only x varies: the drawn star is always the border's width below the hole, and its
      horizontal offset from the hole is sliderValue - gapX plus the border. */
  lemma PieceOffset(c: Config, sliderValue: int, gapX: int, gapY: int)
    ensures PieceCentre(c, sliderValue, gapY).y - HoleCentre(c, gapX, gapY).y == PieceBorder
    ensures PieceCentre(c, sliderValue, gapY).x - HoleCentre(c, gapX, gapY).x
            == (sliderValue - gapX) as real + PieceBorder
  {
  }

  /** The drawn star is never exactly on the hole; it is horizontally centred on it iff
      the slider stands two pixels left of gapX. */
  lemma DrawnStarNeverOnHole(c: Config, sliderValue: int, gapX: int, gapY: int)
    ensures PieceCentre(c, sliderValue, gapY) != HoleCentre(c, gapX, gapY)
    ensures PieceCentre(c, sliderValue, gapY).x == HoleCentre(c, gapX, gapY).x
            <==> sliderValue == gapX - 2
  {
    PieceOffset(c, sliderValue, gapX, gapY);
  }

  function Abs(n: int): nat {
    if n < 0 then -n else n
  }

  function RealAbs(x: real): real {
    if x < 0.0 then -x else x
  }

  /** The release test: Math.abs(sliderValue - gapX) < tolerance, strictly. */
  predicate Passes(sliderValue: int, gapX: int, tolerance: real) {
    Abs(sliderValue - gapX) as real < tolerance
  }

  /** A release passes iff the piece frame is less than `tolerance` pixels left or right of
      the region the piece shows, that is, iff the drawn star is within `tolerance` of the
      hole's star moved right by the border. */
  lemma PassesIffCentresClose(c: Config, sliderValue: int, gapX: int, gapY: int, tolerance: real)
    ensures Passes(sliderValue, gapX, tolerance)
            <==> RealAbs(PieceFrame(c, sliderValue, gapY).left - CropRegion(c, gapX, gapY).left) < tolerance
    ensures Passes(sliderValue, gapX, tolerance)
            <==> RealAbs(PieceCentre(c, sliderValue, gapY).x - (HoleCentre(c, gapX, gapY).x + PieceBorder))
                 < tolerance
  {
    PieceOffset(c, sliderValue, gapX, gapY);
  }

  /** A release with the drawn star horizontally centred on the hole passes iff the
      tolerance exceeds the border width, so tolerances of 2 or less reject it. */
  lemma CentredStarPassesIff(gapX: int, tolerance: real)
    ensures Passes(gapX - 2, gapX, tolerance) <==> PieceBorder < tolerance
  {
  }

  /** A distance of exactly `tolerance` fails, and the test is the same on either side of the gap. */
  lemma ToleranceBoundary(sliderValue: int, gapX: int, tolerance: real)
    ensures !Passes(sliderValue, gapX, Abs(sliderValue - gapX) as real)
    ensures Passes(sliderValue, gapX, tolerance) <==> Passes(2 * gapX - sliderValue, gapX, tolerance)
  {
  }

  /** Exact alignment passes iff the tolerance is positive. */
  lemma AlignedPassesIff(gapX: int, tolerance: real)
    ensures Passes(gapX, gapX, tolerance) <==> 0.0 < tolerance
  {
  }
}
