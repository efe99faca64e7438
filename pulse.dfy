/**
 * The map's pulse animation: `radius`, `opacity` and `expanding`, stepped once
 * per animation frame while the pulse layer exists. Radius is counted in
 * hundredths of a pixel and opacity in thousandths, so the steps of 0.35 and
 * 0.012 are the exact integers 35 and 12.
 */
module Pulse {
  import opened Wrappers

  const StartRadius := 1000
  const StartOpacity := 600
  const RadiusStep := 35
  const OpacityStep := 12
  /** Expanding stops once the radius exceeds 26. */
  const GrowLimit := 2600
  /** Shrinking stops once the radius drops below 10. */
  const ShrinkLimit := 1000

  datatype PulseState = PulseState(radius: int, opacity: int, expanding: bool)

  const Initial := PulseState(StartRadius, StartOpacity, true)

  /** One frame of `animatePulse` on a live layer. */
  function Step(s: PulseState): PulseState {
    if s.expanding then
      var radius := s.radius + RadiusStep;
      PulseState(radius, s.opacity - OpacityStep, !(radius > GrowLimit))
    else
      var radius := s.radius - RadiusStep;
      PulseState(radius, s.opacity + OpacityStep, radius < ShrinkLimit)
  }

  /** `n` frames. */
  function Run(s: PulseState, n: nat): PulseState
    decreases n
  {
    if n == 0 then s else Run(Step(s), n - 1)
  }

  /** Radius and opacity move in lockstep: 35 hundredths of radius for every 12 thousandths of opacity. */
  predicate Lockstep(s: PulseState) {
    12 * (s.radius - StartRadius) + 35 * (s.opacity - StartOpacity) == 0
  }

  /** What holds after any number of frames from the start state. */
  predicate Inv(s: PulseState) {
    && Lockstep(s)
    && (s.radius - StartRadius) % RadiusStep == 0
    && (s.expanding ==> 965 <= s.radius <= 2575)
    && (!s.expanding ==> 1000 <= s.radius <= 2610)
  }

  /**
   * Each frame moves the radius by 0.35 and the opacity by 0.012 the other way;
   * the direction turns to shrinking only when the radius exceeds 26 and to
   * expanding only when it drops below 10.
   */
  lemma StepSpec(s: PulseState)
    ensures Step(s).radius - s.radius == (if s.expanding then RadiusStep else -RadiusStep)
    ensures 12 * (Step(s).radius - s.radius) + 35 * (Step(s).opacity - s.opacity) == 0
    ensures s.expanding && !Step(s).expanding ==> Step(s).radius > GrowLimit
    ensures !s.expanding && Step(s).expanding ==> Step(s).radius < ShrinkLimit
  {
  }

  lemma StepKeepsInv(s: PulseState)
    requires Inv(s)
    ensures Inv(Step(s))
  {
  }

  lemma {:induction false} RunKeepsInv(s: PulseState, n: nat)
    requires Inv(s)
    ensures Inv(Run(s, n))
    decreases n
  {
    if n > 0 {
      StepKeepsInv(s);
      RunKeepsInv(Step(s), n - 1);
    }
  }

  /** The values written to the layer: radius `radius + 6` at zoom 6 and `radius` at zoom 10, and `max(opacity, 0)`. */
  datatype PaintUpdate = PaintUpdate(radiusAtZoom6: int, radiusAtZoom10: int, opacity: int)

  function Paint(s: PulseState): PaintUpdate {
    PaintUpdate(s.radius + 600, s.radius, if s.opacity > 0 then s.opacity else 0)
  }

  /**
   * After any number of frames the radius stays within [9.65, 26.10] and the
   * opacity within [0.048, 0.612], so the clamp to 0 never changes the applied
   * opacity.
   */
  lemma {:induction false} PulseBounds(n: nat)
    ensures var s := Run(Initial, n);
      965 <= s.radius <= 2610 && 48 <= s.opacity <= 612 && Paint(s).opacity == s.opacity
  {
    RunKeepsInv(Initial, n);
  }

  lemma {:induction false} RunAdd(s: PulseState, a: nat, b: nat)
    ensures Run(s, a + b) == Run(Run(s, a), b)
    decreases a
  {
    if a > 0 {
      RunAdd(Step(s), a - 1, b);
    }
  }

  lemma RunOne(s: PulseState)
    ensures Run(s, 1) == Step(s)
  {
  }

  /** Frames 0 to 46: the radius grows from 10 to 26.10, and frame 46 turns the pulse round. */
  lemma {:induction false} FirstRise(n: nat)
    requires n <= 46
    ensures Run(Initial, n) == PulseState(StartRadius + 35 * n, StartOpacity - 12 * n, n < 46)
  {
    if n > 0 {
      FirstRise(n - 1);
      RunAdd(Initial, n - 1, 1);
      RunOne(Run(Initial, n - 1));
    }
  }

  /** Frames 46 to 93: the radius shrinks from 26.10 to 9.65, and frame 93 turns it round again. */
  lemma {:induction false} Fall(m: nat)
    requires m <= 47
    ensures Run(Initial, 46 + m) == PulseState(2610 - 35 * m, 48 + 12 * m, m == 47)
  {
    if m == 0 {
      FirstRise(46);
    } else {
      Fall(m - 1);
      RunAdd(Initial, 46 + m - 1, 1);
      RunOne(Run(Initial, 46 + m - 1));
    }
  }

  /** Frames 93 to 140: the radius grows from 9.65 back to 26.10. */
  lemma {:induction false} Rise(j: nat)
    requires j <= 47
    ensures Run(Initial, 93 + j) == PulseState(965 + 35 * j, 612 - 12 * j, j < 47)
  {
    if j == 0 {
      Fall(47);
    } else {
      Rise(j - 1);
      RunAdd(Initial, 93 + j - 1, 1);
      RunOne(Run(Initial, 93 + j - 1));
    }
  }

  /** After 94 frames the animation is back at its initial state, and from then on it repeats. */
  lemma PulsePeriodic(n: nat)
    ensures Run(Initial, 94) == Initial
    ensures Run(Initial, n + 94) == Run(Initial, n)
  {
    Rise(1);
    RunAdd(Initial, 94, n);
  }

  /** The animator's closure variables, and whether the pulse layer still exists. */
  class PulseAnimator {
    var radius: int
    var opacity: int
    var expanding: bool
    var layerPresent: bool

    function State(): PulseState
      reads this
    {
      PulseState(radius, opacity, expanding)
    }

    ghost predicate Valid()
      reads this
    {
      Inv(State())
    }

    /** `let radius = 10; let opacity = 0.6; let expanding = true;` once the layer is added. */
    constructor ()
      ensures Valid() && State() == Initial && layerPresent
    {
      radius, opacity, expanding := StartRadius, StartOpacity, true;
      layerPresent := true;
    }

    /**
     * One call of `animatePulse`. With the layer gone nothing changes and `None`
     * says that no further frame is requested; otherwise the state takes one
     * step and the paint values written are returned (and the next frame is
     * requested).
     */
    method Tick() returns (paint: Option<PaintUpdate>)
      requires Valid()
      modifies this
      ensures Valid() && layerPresent == old(layerPresent)
      ensures !old(layerPresent) ==> paint.None? && State() == old(State())
      ensures old(layerPresent) ==> State() == Step(old(State())) && paint == Some(Paint(State()))
      ensures paint.Some? ==> 0 < paint.value.opacity == opacity
    {
      if !layerPresent {
        return None;
      }
      StepKeepsInv(State());
      if expanding {
        radius := radius + RadiusStep;
        opacity := opacity - OpacityStep;
        if radius > GrowLimit {
          expanding := false;
        }
      } else {
        radius := radius - RadiusStep;
        opacity := opacity + OpacityStep;
        if radius < ShrinkLimit {
          expanding := true;
        }
      }
      paint := Some(Paint(State()));
    }

    /** `map.remove()` takes the pulse layer with it. */
    method RemoveLayer()
      modifies this
      ensures !layerPresent && State() == old(State())
    {
      layerPresent := false;
    }
  }
}
