/** The spin controller of components/SpinWheel.tsx: the `isSpinning` state,
    the wheel's transform, and the deferred resolution of `spinWheel`
    (lines 68-100), driven through the Spin button (line 111). */
module SpinWheelWidget {
  import opened WheelConfig
  import opened SpinRule

  class SpinWheel {
    /** The wedge table; the component's is `Segments`. */
    const segments: seq<Icon>
    /** The wheel reference points at the mounted SVG element. */
    var mounted: bool
    /** The `isSpinning` state; the button is disabled while it holds. */
    var spinning: bool
    /** The angle of the wheel's `style.transform`. */
    var rotation: real
    /** Whether `style.transition` is the 2.5 s ease-in-out one (false: "none"). */
    var animated: bool
    /** The targets captured by the 2.5 s callbacks scheduled and not yet fired,
        in the order they fire. */
    var pending: seq<real>

    ghost predicate Valid()
      reads this
    {
      (pending != [] ==> |segments| >= 2) &&
      forall i :: 0 <= i < |pending| ==> IsTarget(pending[i])
    }

    /** Under the button alone at most one resolution is in flight, it is in
        flight only while the wheel is spinning, and a mounted wheel spins only
        while one is in flight. */
    ghost predicate OneInFlight()
      reads this
    {
      |pending| <= 1 &&
      (pending != [] ==> spinning) &&
      (mounted && spinning ==> pending != [])
    }

    /** A freshly mounted wheel: idle, unrotated, nothing scheduled. */
    constructor (segs: seq<Icon>)
      ensures segments == segs && mounted && !spinning
      ensures rotation == 0.0 && !animated && pending == []
      ensures Valid() && OneInFlight()
    {
      segments := segs;
      mounted := true;
      spinning := false;
      rotation := 0.0;
      animated := false;
      pending := [];
    }

    /** The wheel reference is cleared (the SVG element is unmounted). */
    method Detach()
      requires Valid() && OneInFlight()
      modifies this
      ensures Valid() && OneInFlight()
      ensures !mounted
      ensures spinning == old(spinning) && rotation == old(rotation)
      ensures animated == old(animated) && pending == old(pending)
    {
      mounted := false;
    }

    /** `spinWheel` with Math.random() returning `r` (lines 68-77). It does not
        look at `spinning`: without a mounted wheel or with fewer than two wedges
        it changes nothing; otherwise it sets `spinning`, animates the transform
        to the target and schedules one more resolution for that target. */
    method Spin(r: real)
      requires Valid() && 0.0 <= r < 1.0
      modifies this
      ensures Valid() && mounted == old(mounted)
      ensures !mounted || |segments| < 2 ==>
        spinning == old(spinning) && rotation == old(rotation) &&
        animated == old(animated) && pending == old(pending)
      ensures mounted && |segments| >= 2 ==>
        spinning && rotation == Target(r) && animated &&
        pending == old(pending) + [Target(r)]
    {
      if !mounted || |segments| < 2 {
        return;
      }
      spinning := true;
      rotation := 0.0;
      var degree := Target(r);
      animated := true;
      rotation := degree;
      pending := pending + [degree];
    }

    /** A click on the Spin button (line 111): a disabled button ignores it,
        so a spin in progress is never restarted and no second resolution is
        scheduled. */
    method Press(r: real)
      requires Valid() && OneInFlight() && 0.0 <= r < 1.0
      modifies this
      ensures Valid() && OneInFlight() && mounted == old(mounted)
      ensures old(spinning) || !mounted || |segments| < 2 ==>
        spinning == old(spinning) && rotation == old(rotation) &&
        animated == old(animated) && pending == old(pending)
      ensures !old(spinning) && mounted && |segments| >= 2 ==>
        spinning && rotation == Target(r) && animated && pending == [Target(r)]
    {
      if !spinning {
        Spin(r);
      }
    }

    /** The oldest scheduled 2.5 s callback fires (lines 78-99). With the wheel
        mounted it snaps the transform to the resting angle without animation,
        clears `spinning` whatever the outcome, and reports whether the 250 ms
        win effect is scheduled, by the normalised index (for the shipped
        table the same decision as the raw index of line 82); without it, it does nothing else. */
    method Resolve() returns (effect: bool)
      requires Valid() && pending != []
      modifies this
      ensures Valid() && mounted == old(mounted)
      ensures pending == old(pending)[1..]
      ensures old(mounted) ==>
        !spinning && !animated && rotation == RestingAngle(old(pending)[0]) &&
        effect == OutcomeOf(segments, old(pending)[0]).effect
      ensures old(mounted) && segments == Segments ==>
        effect == EffectAsWritten(segments, old(pending)[0])
      ensures !old(mounted) ==>
        !effect && spinning == old(spinning) &&
        rotation == old(rotation) && animated == old(animated)
      ensures OneInFlight() <== old(OneInFlight())
    {
      var degree := pending[0];
      pending := pending[1..];
      if !mounted {
        return false;
      }
      var adjustedAngle := RestingAngle(degree);
      var outcome := OutcomeOf(segments, degree);
      animated := false;
      rotation := adjustedAngle;
      spinning := false;
      effect := outcome.effect;
      ShippedTableEffectUnaffected(degree);
    }
  }

  /** One user interaction on a freshly mounted wheel: a click with the draw `r`,
      a second click while the wheel turns, then the resolution. The second click
      changes nothing, the button is disabled during the spin and enabled after
      it, the wheel rests at the draw's offset, and the win effect is scheduled
      exactly when the wedge under the pointer is not the no-win sentinel. */
  method ClickTwiceThenSettle(segs: seq<Icon>, r: real, r2: real)
      returns (busyDuringSpin: bool, busyAfter: bool, restingAt: real, effect: bool)
    requires |segs| >= 2 && 0.0 <= r < 1.0 && 0.0 <= r2 < 1.0
    ensures busyDuringSpin && !busyAfter
    ensures restingAt == FullTurn * r
    ensures effect <==> segs[ResolvedIndex(FullTurn * r, |segs|)] != NoWin
  {
    var wheel := new SpinWheel(segs);
    wheel.Press(r);
    wheel.Press(r2);
    busyDuringSpin := wheel.spinning;
    assert wheel.pending == [Target(r)];
    effect := wheel.Resolve();
    busyAfter := wheel.spinning;
    restingAt := wheel.rotation;
    RestingAngleOfTarget(r);
  }
}
