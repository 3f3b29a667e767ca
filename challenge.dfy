/**
 * The fishing timing mini-game. The player's circle sweeps its scale back and
 * forth between MinScale and MaxScale at the rod's speed; the player commits
 * once, and the catch succeeds when the scale is inside the pass band.
 *
 * The scale is modelled as an exact `real`. The animation never clamps: it
 * moves the scale first and only flips the direction once a bound has been
 * reached or crossed, so the scale may overshoot either bound by one step.
 */
module Challenge {

  const MinScale: real := 1.0
  const MaxScale: real := 6.0
  const PassScaleMin: real := 3.0
  const PassScaleMax: real := 4.0

  /** The animated part of the component: the scale and the direction flag
      (`looped` is true while the circle shrinks). */
  datatype Sweep = Sweep(scale: real, looped: bool)

  /** The state set up by SaveParametrs and RestoreParametrs. */
  const Initial: Sweep := Sweep(MinScale, false)

  /** Holds after every tick: a growing circle is still below the maximum and
      a shrinking one is still above the minimum. */
  predicate DirectionInvariant(s: Sweep) {
    (!s.looped ==> s.scale < MaxScale) && (s.looped ==> s.scale > MinScale)
  }

  /** The commit verdict: inside the pass band, both ends included. */
  predicate InPassBand(scale: real) {
    PassScaleMin <= scale && scale <= PassScaleMax
  }

  /** The scale lies within `d` of the nominal range. */
  predicate WithinOvershoot(scale: real, d: real) {
    MinScale - d <= scale <= MaxScale + d
  }

  /** One animation tick that moves the scale by `step` (the rod speed times
      the frame time). */
  function Advance(s: Sweep, step: real): (r: Sweep)
    // the scale moves by exactly one step in the current direction
    ensures r.scale == (if s.looped then s.scale - step else s.scale + step)
    // the direction changes only at a bound, and then on the first tick that reaches it
    ensures r.looped != s.looped <==>
              (if s.looped then r.scale <= MinScale else r.scale >= MaxScale)
    ensures DirectionInvariant(r)
  {
    if s.looped then
      var shrunk := s.scale - step;
      Sweep(shrunk, !(shrunk <= MinScale))
    else
      var grown := s.scale + step;
      Sweep(grown, grown >= MaxScale)
  }

  /** A sequence of ticks, the i-th moving the scale by steps[i]. */
  function Run(s: Sweep, steps: seq<real>): Sweep
    decreases |steps|
  {
    if steps == [] then s else Run(Advance(s, steps[0]), steps[1..])
  }

  function Sum(steps: seq<real>): real
    decreases |steps|
  {
    if steps == [] then 0.0 else steps[0] + Sum(steps[1..])
  }

  predicate AllSteps(steps: seq<real>, lo: real, hi: real) {
    forall i :: 0 <= i < |steps| ==> lo <= steps[i] <= hi
  }

  lemma {:induction false} SumNonNegative(steps: seq<real>)
    requires forall i :: 0 <= i < |steps| ==> 0.0 <= steps[i]
    ensures Sum(steps) >= 0.0
    decreases |steps|
  {
    if steps != [] {
      assert forall i :: 0 <= i < |steps[1..]| ==> 0.0 <= steps[1..][i] by {
        forall i | 0 <= i < |steps[1..]| ensures 0.0 <= steps[1..][i] {
          assert steps[1..][i] == steps[i + 1];
        }
      }
      SumNonNegative(steps[1..]);
    }
  }

  /** One tick keeps the scale within `d` of the range when the step is at most `d`. */
  lemma StepWithinOvershoot(s: Sweep, step: real, d: real)
    requires DirectionInvariant(s) && WithinOvershoot(s.scale, d)
    requires 0.0 <= step <= d
    ensures WithinOvershoot(Advance(s, step).scale, d)
  {
  }

  /** Because nothing clamps, the scale stays in [MinScale - d, MaxScale + d]
      over any run whose every step is at most `d`, and no tighter bound holds
      in general (see OvershootPastMax). */
  lemma {:induction false} RunWithinOvershoot(s: Sweep, steps: seq<real>, d: real)
    requires DirectionInvariant(s) && WithinOvershoot(s.scale, d)
    requires AllSteps(steps, 0.0, d)
    ensures WithinOvershoot(Run(s, steps).scale, d)
    ensures DirectionInvariant(Run(s, steps))
    decreases |steps|
  {
    if steps != [] {
      StepWithinOvershoot(s, steps[0], d);
      assert AllSteps(steps[1..], 0.0, d) by {
        forall i | 0 <= i < |steps[1..]| ensures 0.0 <= steps[1..][i] <= d {
          assert steps[1..][i] == steps[i + 1];
        }
      }
      RunWithinOvershoot(Advance(s, steps[0]), steps[1..], d);
    }
  }

  /** While the accumulated movement has not reached the maximum, the circle
      keeps growing and its scale is the start plus everything moved so far. */
  lemma {:induction false} GrowingRun(x: real, steps: seq<real>)
    requires forall i :: 0 <= i < |steps| ==> 0.0 <= steps[i]
    requires x + Sum(steps) < MaxScale
    ensures Run(Sweep(x, false), steps) == Sweep(x + Sum(steps), false)
    decreases |steps|
  {
    if steps != [] {
      assert forall i :: 0 <= i < |steps[1..]| ==> 0.0 <= steps[1..][i] by {
        forall i | 0 <= i < |steps[1..]| ensures 0.0 <= steps[1..][i] {
          assert steps[1..][i] == steps[i + 1];
        }
      }
      SumNonNegative(steps[1..]);
      GrowingRun(x + steps[0], steps[1..]);
    }
  }

  /** From the start, every run shorter than one sweep is the monotone rise
      MinScale + total movement. */
  lemma StartGrows(steps: seq<real>)
    requires forall i :: 0 <= i < |steps| ==> 0.0 <= steps[i]
    requires Sum(steps) < MaxScale - MinScale
    ensures Run(Initial, steps) == Sweep(MinScale + Sum(steps), false)
  {
    GrowingRun(MinScale, steps);
  }

  /** The bound of RunWithinOvershoot cannot be tightened: for any margin
      e, a state satisfying the direction invariant is pushed by one step
      of d to within e of MaxScale + d, and another to within e of MinScale - d. */
  lemma OvershootBoundSharp(d: real, e: real)
    requires 0.0 < e <= d
    ensures var s := Sweep(MaxScale - e / 2.0, false);
              DirectionInvariant(s) && WithinOvershoot(s.scale, d) &&
              Advance(s, d).scale > MaxScale + d - e
    ensures var s := Sweep(MinScale + e / 2.0, true);
              DirectionInvariant(s) && WithinOvershoot(s.scale, d) &&
              Advance(s, d).scale < MinScale - d + e
  {
  }

  /** The scale passes the maximum by the part of a tick that crosses it. */
  lemma OvershootPastMax()
    ensures Advance(Sweep(5.5, false), 1.0) == Sweep(6.5, true)
    ensures Advance(Sweep(6.5, true), 6.0) == Sweep(0.5, false)
  {
  }

  /** With speed 1, a first frame of 2.5 lands in the band, one of 0.5 does not. */
  lemma FirstFrameScenarios()
    ensures Run(Initial, [1.0 * 2.5]) == Sweep(3.5, false) && InPassBand(3.5)
    ensures Run(Initial, [1.0 * 0.5]) == Sweep(1.5, false) && !InPassBand(1.5)
  {
  }

  /**
   * The mini-game component. `enabled` is the engine flag that stops Update
   * from being called; `catchResults` records the values sent through the
   * OnTryCatchFish event; `destroyScheduled` records that the self-destroy
   * coroutine was started.
   */
  class FishingChallenge {
    var scale: real
    var isLooped: bool
    var speed: real
    var enabled: bool
    var destroyed: bool
    ghost var catchResults: seq<bool>
    ghost var destroyScheduled: bool
    /** Set once the OnDestroy event has been sent. */
    ghost var destroyNotified: bool

    function State(): Sweep
      reads this
    {
      Sweep(scale, isLooped)
    }

    /** A freshly instantiated component, before Start. */
    constructor ()
      ensures scale == 0.0 && !isLooped && speed == 1.0
      ensures enabled && !destroyed && catchResults == [] && !destroyScheduled && !destroyNotified
    {
      scale := 0.0;
      isLooped := false;
      speed := 1.0;
      enabled := true;
      destroyed := false;
      catchResults := [];
      destroyScheduled := false;
      destroyNotified := false;
    }

    /** Start: takes the speed of the player's rod, then saves the defaults. */
    method Start(rodSpeed: real)
      modifies this`speed, this`scale, this`isLooped
      ensures speed == rodSpeed && State() == Initial
    {
      speed := rodSpeed;
      SaveParametrs();
    }

    method SaveParametrs()
      modifies this`scale, this`isLooped
      ensures State() == Initial
    {
      scale := MinScale;
      isLooped := false;
    }

    method RestoreParametrs()
      modifies this`scale, this`isLooped
      ensures State() == Initial
    {
      scale := MinScale;
      isLooped := false;
    }

    method DoCircleAnimation(deltaTime: real)
      requires deltaTime >= 0.0
      modifies this`scale, this`isLooped
      ensures State() == Advance(old(State()), speed * deltaTime)
    {
      if isLooped {
        scale := scale - speed * deltaTime;
        if scale <= MinScale {
          isLooped := false;
        }
      } else {
        scale := scale + speed * deltaTime;
        if scale >= MaxScale {
          isLooped := true;
        }
      }
    }

    /** Reports the verdict through OnTryCatchFish and schedules the destroy. */
    method TryCatchFish() returns (success: bool)
      modifies this`catchResults, this`destroyScheduled
      ensures success <==> InPassBand(scale)
      ensures catchResults == old(catchResults) + [success]
      ensures destroyScheduled
    {
      if scale >= PassScaleMin && scale <= PassScaleMax {
        success := true;
      } else {
        success := false;
      }
      catchResults := catchResults + [success];
      destroyScheduled := true;
    }

    /**
     * One frame. The engine calls Update only on an enabled component, which
     * the first branch expresses. A commit press disables the component and
     * then evaluates the scale as it is after this frame's tick.
     */
    method Update(deltaTime: real, commitPressed: bool)
      requires deltaTime >= 0.0
      modifies this`scale, this`isLooped, this`enabled, this`catchResults, this`destroyScheduled
      ensures !old(enabled) ==>
                State() == old(State()) && !enabled &&
                catchResults == old(catchResults) && destroyScheduled == old(destroyScheduled)
      ensures old(enabled) ==> State() == Advance(old(State()), speed * deltaTime)
      ensures old(enabled) && !commitPressed ==>
                enabled && catchResults == old(catchResults) && destroyScheduled == old(destroyScheduled)
      ensures old(enabled) && commitPressed ==>
                !enabled && destroyScheduled &&
                catchResults == old(catchResults) + [InPassBand(scale)]
    {
      if !enabled {
        return;
      }
      DoCircleAnimation(deltaTime);
      if commitPressed {
        enabled := false;
        var _ := TryCatchFish();
      }
    }

    /** The end of the destroy coroutine, after its wait: restore, destroy,
        then send OnDestroy. */
    method DestroyItself()
      requires destroyScheduled
      modifies this`scale, this`isLooped, this`destroyed, this`destroyNotified
      ensures State() == Initial && destroyed && destroyNotified
    {
      RestoreParametrs();
      destroyed := true;
      destroyNotified := true;
    }
  }
}
