/** The numeric props of the PuzzleCaptcha component and the slider they configure.
    Titles, colours and the reset-button flag only affect presentation and are not modelled. */
module Props {

  /** Image and piece dimensions in pixels, and the allowed pixel distance for a match. */
  datatype Config = Config(
    imageWidth: int,
    imageHeight: int,
    pieceWidth: int,
    pieceHeight: int,
    tolerance: real)

  /** The props the demo application passes: a 300x150 image, a 50x50 piece, tolerance 3.5. */
  function Demo(): Config {
    Config(300, 150, 50, 50, 3.5)
  }

  function Max(a: int, b: int): int {
    if a < b then b else a
  }

  /** The `max` attribute of the range input; its `min` is 0. */
  function SliderMax(c: Config): int {
    c.imageWidth - c.pieceWidth
  }

  /** The value a range input with min 0 and max SliderMax(c) reports for a requested
      position `raw`: positions outside the range are clamped, and a maximum below the
      minimum is treated as the minimum. */
  function SliderValueOf(c: Config, raw: int): (v: int)
    ensures 0 <= v <= Max(0, SliderMax(c))
    ensures 0 <= raw <= SliderMax(c) ==> v == raw
    ensures raw < 0 ==> v == 0
    ensures SliderMax(c) < raw ==> v == Max(0, SliderMax(c))
  {
    if raw < 0 then 0
    else if Max(0, SliderMax(c)) < raw then Max(0, SliderMax(c))
    else raw
  }
}
