/** The slider-puzzle controller of PuzzleCaptcha: six pieces of component state driven by
    load, image-load, slider-change, slider-release and reset events. The functions give
    each event's effect on the state; class Captcha performs the same updates field by
    field, as the component's state setters do. */
module Controller {
  import opened Props
  import opened GapPlacement
  import opened Alignment

  /** The component's state: the gap position, the slider position and three flags. */
  datatype Puzzle = Puzzle(
    gapX: int,
    gapY: int,
    sliderValue: int,
    isSolved: bool,
    isFailed: bool,
    isLoading: bool)

  /** The state's initial values, before the mount effect runs: an enabled slider at 0. */
  function Initial(): (r: Puzzle)
    ensures !SliderDisabled(r) && r.sliderValue == 0
  {
    Puzzle(0, 0, 0, false, false, false)
  }

  /** The range input is disabled while loading, after a failure and once solved. */
  predicate SliderDisabled(p: Puzzle) {
    p.isLoading || p.isFailed || p.isSolved
  }

  /** loadImage, up to the request: raise the loading flag, which disables the slider. */
  function LoadStarted(p: Puzzle): (r: Puzzle)
    ensures SliderDisabled(r) && r.isLoading
    ensures r.(isLoading := p.isLoading) == p
  {
    p.(isLoading := true)
  }

  /** The image's onload handler, with kx and ky the two random offsets it draws. */
  function ImageLoaded(p: Puzzle, c: Config, kx: int, ky: int): (r: Puzzle)
    requires ValidDraws(c, kx, ky)
    ensures !r.isLoading && !r.isSolved && r.sliderValue == 0
    ensures r.isFailed == p.isFailed
    ensures r.gapX == GapX(c, kx) && r.gapY == GapY(c, ky)
    ensures XRange(c).lo <= XRange(c).hi ==> XRange(c).lo <= r.gapX <= XRange(c).hi
    ensures YRange(c).lo <= YRange(c).hi ==> YRange(c).lo <= r.gapY <= YRange(c).hi
  {
    p.(isLoading := false, gapX := GapX(c, kx), gapY := GapY(c, ky), sliderValue := 0,
       isSolved := false)
  }

  /** handleSliderChange: store the value the range input reports. */
  function SliderChanged(p: Puzzle, c: Config, raw: int): (r: Puzzle)
    ensures r.sliderValue == SliderValueOf(c, raw)
    ensures 0 <= raw <= SliderMax(c) ==> r.sliderValue == raw
    ensures 0 <= r.sliderValue <= Max(0, SliderMax(c))
    ensures r.(sliderValue := p.sliderValue) == p
  {
    p.(sliderValue := SliderValueOf(c, raw))
  }

  /** handleSliderRelease: mark the puzzle solved when the slider is within tolerance of
      the gap, failed otherwise. Only the chosen flag changes. */
  function Released(p: Puzzle, tolerance: real): (r: Puzzle)
    ensures r.(isSolved := p.isSolved, isFailed := p.isFailed) == p
    ensures Passes(p.sliderValue, p.gapX, tolerance) ==> r.isSolved && r.isFailed == p.isFailed
    ensures !Passes(p.sliderValue, p.gapX, tolerance) ==> r.isFailed && r.isSolved == p.isSolved
  {
    if Passes(p.sliderValue, p.gapX, tolerance) then p.(isSolved := true) else p.(isFailed := true)
  }

  /** handleReset: clear both outcome flags and load a new image; the gap and the slider
      stay as they are until the image arrives. */
  function Reset(p: Puzzle): (r: Puzzle)
    ensures r.isLoading && !r.isSolved && !r.isFailed
    ensures r.(isLoading := p.isLoading, isSolved := p.isSolved, isFailed := p.isFailed) == p
  {
    LoadStarted(p.(isSolved := false, isFailed := false))
  }

  /** Whether new props rerun the load effect: its dependencies are the image size and the
      tolerance, not the piece size. */
  predicate ReloadsOn(before: Config, after: Config) {
    before.imageWidth != after.imageWidth || before.imageHeight != after.imageHeight
    || before.tolerance != after.tolerance
  }

  /** The effect of new props: a reload raises the loading flag and clears nothing. */
  function Reconfigured(p: Puzzle, before: Config, after: Config): (r: Puzzle)
    ensures r.isLoading <==> p.isLoading || ReloadsOn(before, after)
    ensures r.(isLoading := p.isLoading) == p
  {
    if ReloadsOn(before, after) then LoadStarted(p) else p
  }

  /** What the user and the browser can do to a mounted component with fixed props. A
      reset comes from the refresh icon or from the retry timer of a failed release. A
      release is a mouseup or a touchend on the range input. */
  datatype Event = Load(kx: int, ky: int) | Change(raw: int) | MouseUp | TouchEnd | ResetPressed

  predicate Admissible(c: Config, e: Event) {
    e.Load? ==> ValidDraws(c, e.kx, e.ky)
  }

  /** One event. While the range input is disabled it reports no changes and React drops
      its mouse handlers, but a touchend still reaches handleSliderRelease. */
  function Step(p: Puzzle, c: Config, e: Event): Puzzle
    requires Admissible(c, e)
  {
    match e
    case Load(kx, ky) => ImageLoaded(p, c, kx, ky)
    case Change(raw) => if SliderDisabled(p) then p else SliderChanged(p, c, raw)
    case MouseUp => if SliderDisabled(p) then p else Released(p, c.tolerance)
    case TouchEnd => Released(p, c.tolerance)
    case ResetPressed => Reset(p)
  }

  function Run(p: Puzzle, c: Config, es: seq<Event>): Puzzle
    requires forall i :: 0 <= i < |es| ==> Admissible(c, es[i])
    decreases |es|
  {
    if es == [] then p else Run(Step(p, c, es[0]), c, es[1..])
  }

  /** The properties every event keeps: the slider lies within the range input's bounds,
      and a solved puzzle has its piece within tolerance of the hole. */
  predicate Sound(p: Puzzle, c: Config) {
    0 <= p.sliderValue <= Max(0, SliderMax(c))
    && (p.isSolved ==> Passes(p.sliderValue, p.gapX, c.tolerance))
  }

  /** Sound, and at most one flag raised. */
  predicate Consistent(p: Puzzle, c: Config) {
    Sound(p, c)
    && !(p.isLoading && p.isFailed) && !(p.isLoading && p.isSolved) && !(p.isFailed && p.isSolved)
  }

  predicate NoTouchRelease(es: seq<Event>) {
    forall i :: 0 <= i < |es| ==> !es[i].TouchEnd?
  }

  /** A release of an enabled slider raises exactly one outcome flag, and it is the solved
      flag iff |sliderValue - gapX| < tolerance. */
  lemma ReleaseDecides(p: Puzzle, c: Config)
    requires !SliderDisabled(p)
    ensures Step(p, c, MouseUp) == Step(p, c, TouchEnd)
    ensures Step(p, c, MouseUp).isSolved != Step(p, c, MouseUp).isFailed
    ensures Step(p, c, MouseUp).isSolved <==> Passes(p.sliderValue, p.gapX, c.tolerance)
    ensures !Step(p, c, MouseUp).isLoading
  {
  }

  /** While the slider is disabled, changes and mouse releases change nothing, and a touch
      release still runs the release test. While it is enabled, a change alters only the
      slider position. */
  lemma SliderInputIgnoredWhenDisabled(p: Puzzle, c: Config, raw: int)
    ensures SliderDisabled(p) ==> Step(p, c, Change(raw)) == p && Step(p, c, MouseUp) == p
    ensures Step(p, c, TouchEnd) == Released(p, c.tolerance)
    ensures !SliderDisabled(p) ==> Step(p, c, Change(raw)).(sliderValue := p.sliderValue) == p
  {
  }

  /** A second reset gives the same state as the first. */
  lemma ResetIdempotent(p: Puzzle)
    ensures Reset(p).isLoading && !Reset(p).isSolved && !Reset(p).isFailed
    ensures Reset(Reset(p)) == Reset(p)
  {
  }

  /** Every event, touch releases included, keeps the state sound. */
  lemma StepKeepsSound(p: Puzzle, c: Config, e: Event)
    requires Admissible(c, e) && Sound(p, c)
    ensures Sound(Step(p, c, e), c)
  {
  }

  lemma {:induction false} RunKeepsSound(p: Puzzle, c: Config, es: seq<Event>)
    requires forall i :: 0 <= i < |es| ==> Admissible(c, es[i])
    requires Sound(p, c)
    ensures Sound(Run(p, c, es), c)
    decreases |es|
  {
    if es != [] {
      StepKeepsSound(p, c, es[0]);
      RunKeepsSound(Step(p, c, es[0]), c, es[1..]);
    }
  }

  /** Whatever happens after mounting, the slider stays in range and the puzzle is solved
      only with the piece within tolerance of the hole. */
  lemma MountedStatesSound(c: Config, es: seq<Event>)
    requires forall i :: 0 <= i < |es| ==> Admissible(c, es[i])
    ensures Sound(Run(LoadStarted(Initial()), c, es), c)
  {
    RunKeepsSound(LoadStarted(Initial()), c, es);
  }

  /** Every event but a touch release keeps the state consistent. */
  lemma StepKeepsConsistent(p: Puzzle, c: Config, e: Event)
    requires Admissible(c, e) && Consistent(p, c) && !e.TouchEnd?
    ensures Consistent(Step(p, c, e), c)
  {
  }

  lemma {:induction false} RunKeepsConsistent(p: Puzzle, c: Config, es: seq<Event>)
    requires forall i :: 0 <= i < |es| ==> Admissible(c, es[i])
    requires NoTouchRelease(es)
    requires Consistent(p, c)
    ensures Consistent(Run(p, c, es), c)
    decreases |es|
  {
    if es != [] {
      assert !es[0].TouchEnd?;
      StepKeepsConsistent(p, c, es[0]);
      RunKeepsConsistent(Step(p, c, es[0]), c, es[1..]);
    }
  }

  /** Without touch releases, every state reachable from mounting has at most one flag
      raised, beside being sound. */
  lemma MountedStatesConsistent(c: Config, es: seq<Event>)
    requires forall i :: 0 <= i < |es| ==> Admissible(c, es[i])
    requires NoTouchRelease(es)
    ensures Consistent(Run(LoadStarted(Initial()), c, es), c)
  {
    RunKeepsConsistent(LoadStarted(Initial()), c, es);
  }

  /** After mounting the demo puzzle, loading its image with the gap at (200, 60), failing
      a release at 150 and pressing reset, a touch release while the new image loads raises
      the failed flag beside the loading flag. */
  lemma TouchWhileLoadingBreaksConsistency()
    ensures Consistent(Run(LoadStarted(Initial()), Demo(),
                           [Load(50, 50), Change(150), MouseUp, ResetPressed]), Demo())
    ensures Run(LoadStarted(Initial()), Demo(),
                [Load(50, 50), Change(150), MouseUp, ResetPressed, TouchEnd]).isLoading
    ensures Run(LoadStarted(Initial()), Demo(),
                [Load(50, 50), Change(150), MouseUp, ResetPressed, TouchEnd]).isFailed
    ensures !Consistent(Run(LoadStarted(Initial()), Demo(),
                            [Load(50, 50), Change(150), MouseUp, ResetPressed, TouchEnd]), Demo())
  {
    var mounted := LoadStarted(Initial());
    var loaded := Puzzle(200, 60, 0, false, false, false);
    var failed := Puzzle(200, 60, 150, false, true, false);
    var reloading := Puzzle(200, 60, 150, false, false, true);
    assert Run(failed, Demo(), [ResetPressed]) == reloading;
    assert Run(loaded, Demo(), [Change(150), MouseUp, ResetPressed]) == Run(failed, Demo(), [ResetPressed]);
    assert Run(mounted, Demo(), [Load(50, 50), Change(150), MouseUp, ResetPressed]) == reloading;
    assert Run(reloading, Demo(), [TouchEnd]) == Puzzle(200, 60, 150, false, true, true);
    assert Run(failed, Demo(), [ResetPressed, TouchEnd]) == Run(reloading, Demo(), [TouchEnd]);
    assert Run(loaded, Demo(), [Change(150), MouseUp, ResetPressed, TouchEnd])
           == Run(failed, Demo(), [ResetPressed, TouchEnd]);
  }

  /** A failed release followed by its retry and the next image load gives a fresh, enabled
      puzzle with the slider back at 0. */
  lemma FailureRecovers(p: Puzzle, c: Config, kx: int, ky: int)
    requires !SliderDisabled(p) && !Passes(p.sliderValue, p.gapX, c.tolerance)
    requires ValidDraws(c, kx, ky)
    ensures Step(p, c, MouseUp).isFailed
    ensures Run(p, c, [MouseUp, ResetPressed]).isLoading
    ensures !SliderDisabled(Run(p, c, [MouseUp, ResetPressed, Load(kx, ky)]))
    ensures Run(p, c, [MouseUp, ResetPressed, Load(kx, ky)]).sliderValue == 0
  {
    var failed := Step(p, c, MouseUp);
    var reloading := Reset(failed);
    assert [MouseUp, ResetPressed][1..] == [ResetPressed];
    assert Run(p, c, [MouseUp, ResetPressed]) == reloading;
    assert [MouseUp, ResetPressed, Load(kx, ky)][1..] == [ResetPressed, Load(kx, ky)];
    assert [ResetPressed, Load(kx, ky)][1..] == [Load(kx, ky)];
    assert Run(reloading, c, [Load(kx, ky)]) == ImageLoaded(reloading, c, kx, ky);
    assert Run(failed, c, [ResetPressed, Load(kx, ky)]) == Run(reloading, c, [Load(kx, ky)]);
  }

  /** New props that change the image size or the tolerance while a failure is shown raise
      the loading flag beside the failed flag, and the next image load leaves the new
      puzzle failed and its slider disabled, until the pending retry resets it. */
  lemma ReconfiguringAFailureKeepsItFailed(p: Puzzle, before: Config, after: Config, kx: int, ky: int)
    requires p.isFailed && ReloadsOn(before, after)
    requires ValidDraws(after, kx, ky)
    ensures Reconfigured(p, before, after).isLoading && Reconfigured(p, before, after).isFailed
    ensures !Consistent(Reconfigured(p, before, after), after)
    ensures ImageLoaded(Reconfigured(p, before, after), after, kx, ky).isFailed
    ensures SliderDisabled(ImageLoaded(Reconfigured(p, before, after), after, kx, ky))
  {
  }

  /** The mounted PuzzleCaptcha component. */
  class Captcha {
    var props: Config
    var gapX: int
    var gapY: int
    var sliderValue: int
    var isSolved: bool
    var isFailed: bool
    var isLoading: bool
    /** Retry timers scheduled by failed releases that have not fired yet. */
    var pendingRetries: nat

    function State(): Puzzle
      reads this
    {
      Puzzle(gapX, gapY, sliderValue, isSolved, isFailed, isLoading)
    }

    /** Mounting: the initial state, then the mount effect's loadImage. */
    constructor (c: Config)
      ensures props == c && pendingRetries == 0
      ensures State() == LoadStarted(Initial())
    {
      props := c;
      gapX, gapY, sliderValue := 0, 0, 0;
      isSolved, isFailed := false, false;
      isLoading := true;
      pendingRetries := 0;
    }

    /** loadImage, up to the request, which this model leaves to the environment. */
    method LoadImage()
      modifies this
      ensures State() == LoadStarted(old(State()))
      ensures props == old(props) && pendingRetries == old(pendingRetries)
    {
      isLoading := true;
    }

    /** The image's onload handler; kx and ky are its two draws of Math.random(). */
    method OnImageLoad(kx: int, ky: int)
      requires ValidDraws(props, kx, ky)
      modifies this
      ensures State() == ImageLoaded(old(State()), old(props), kx, ky)
      ensures props == old(props) && pendingRetries == old(pendingRetries)
    {
      isLoading := false;
      gapX := GapX(props, kx);
      gapY := GapY(props, ky);
      sliderValue := 0;
      isSolved := false;
    }

    /** A change event of the range input, reporting position `raw`; a disabled range
        input reports none. */
    method HandleSliderChange(raw: int) returns (accepted: bool)
      modifies this
      ensures accepted == !SliderDisabled(old(State()))
      ensures State() == Step(old(State()), props, Change(raw))
      ensures props == old(props) && pendingRetries == old(pendingRetries)
    {
      accepted := !SliderDisabled(State());
      if accepted {
        sliderValue := SliderValueOf(props, raw);
      }
    }

    /** handleSliderRelease, which a touchend runs in any state. A failure schedules a
        retry. */
    method HandleSliderRelease()
      modifies this
      ensures State() == Released(old(State()), props.tolerance)
      ensures State() == Step(old(State()), props, TouchEnd)
      ensures props == old(props)
      ensures pendingRetries
              == old(pendingRetries) + if Passes(old(sliderValue), old(gapX), props.tolerance) then 0 else 1
    {
      if Passes(sliderValue, gapX, props.tolerance) {
        isSolved := true;
      } else {
        isFailed := true;
        pendingRetries := pendingRetries + 1;
      }
    }

    /** A mouseup on the range input; React runs handleSliderRelease only while the input
        is enabled. */
    method OnMouseUp() returns (accepted: bool)
      modifies this
      ensures accepted == !SliderDisabled(old(State()))
      ensures State() == Step(old(State()), props, MouseUp)
      ensures props == old(props)
      ensures pendingRetries == old(pendingRetries) + if accepted && isFailed then 1 else 0
    {
      accepted := !SliderDisabled(State());
      if accepted {
        HandleSliderRelease();
      }
    }

    /** handleReset, from the refresh icon. */
    method HandleReset()
      modifies this
      ensures State() == Reset(old(State()))
      ensures props == old(props) && pendingRetries == old(pendingRetries)
    {
      isSolved := false;
      isFailed := false;
      LoadImage();
    }

    /** A retry timer of an earlier failed release fires and calls handleReset. */
    method RetryTimerFires()
      requires pendingRetries > 0
      modifies this
      ensures State() == Reset(old(State()))
      ensures props == old(props) && pendingRetries == old(pendingRetries) - 1
    {
      pendingRetries := pendingRetries - 1;
      HandleReset();
    }

    /** The host passes new props; the effect reloads when the size or tolerance changed. */
    method UpdateProps(c: Config)
      modifies this
      ensures State() == Reconfigured(old(State()), old(props), c)
      ensures props == c && pendingRetries == old(pendingRetries)
    {
      var reload := props.imageWidth != c.imageWidth || props.imageHeight != c.imageHeight
                    || props.tolerance != c.tolerance;
      props := c;
      if reload {
        LoadImage();
      }
    }
  }
}
