/** The demo application's puzzle (300x150 image, 50x50 piece, tolerance 3.5) with its gap
    at x = 200: what the controller does for a near and a far release. */
module Scenarios {
  import opened Props
  import opened GapPlacement
  import opened Alignment
  import opened Controller

  /** The demo puzzle after its image loaded with the gap at (200, 60), slider at `at`. */
  function DemoPuzzleAt(at: int): (p: Puzzle)
    requires 0 <= at <= SliderMax(Demo())
    ensures p.gapX == 200 && p.sliderValue == at && !SliderDisabled(p)
  {
    Step(Run(LoadStarted(Initial()), Demo(), [Load(50, 50)]), Demo(), Change(at))
  }

  /** Releasing at 199 (1 pixel off) solves the demo puzzle; releasing at 150 (50 pixels
      off) fails it, and the retry puts it back to loading. */
  lemma DemoReleases()
    ensures Step(DemoPuzzleAt(199), Demo(), MouseUp).isSolved
    ensures !Step(DemoPuzzleAt(199), Demo(), MouseUp).isFailed
    ensures Step(DemoPuzzleAt(150), Demo(), MouseUp).isFailed
    ensures !Step(DemoPuzzleAt(150), Demo(), MouseUp).isSolved
    ensures Reset(Step(DemoPuzzleAt(150), Demo(), MouseUp)).isLoading
  {
  }

  /** The same scenario driven through the component's handlers. */
  method DemoHarness() {
    var w := new Captcha(Demo());
    assert w.isLoading;
    var ignored := w.HandleSliderChange(120);
    assert !ignored && w.sliderValue == 0;

    w.OnImageLoad(50, 50);
    assert w.gapX == 200 && w.gapY == 60 && !w.isLoading;
    var accepted := w.HandleSliderChange(199);
    assert accepted && w.sliderValue == 199;
    accepted := w.OnMouseUp();
    assert accepted && w.isSolved && !w.isFailed && w.pendingRetries == 0;

    w.HandleReset();
    assert w.isLoading && !w.isSolved;
    w.OnImageLoad(50, 50);
    accepted := w.HandleSliderChange(150);
    accepted := w.OnMouseUp();
    assert accepted && w.isFailed && !w.isSolved && w.pendingRetries == 1;
    accepted := w.HandleSliderChange(200);
    assert !accepted && w.sliderValue == 150;
    // a touchend on the disabled slider still runs the release handler: a second retry
    w.HandleSliderRelease();
    assert w.isFailed && w.pendingRetries == 2;

    w.RetryTimerFires();
    assert w.isLoading && !w.isFailed && w.pendingRetries == 1;
  }
}
