/** The spin outcome rule of components/SpinWheel.tsx (lines 74 and 80-88),
    with the wedge layout of lines 37 and 44 as the geometry it must agree with.

    Angles are exact reals in degrees, measured clockwise from 12 o'clock.
    The source computes with IEEE doubles; over doubles `Math.random() * 360 + 1800`
    can also round up to exactly 2160, a second way to reach the resting angle 0
    that `ZeroDrawReachesOutOfRangeIndex` reaches with the draw 0. */
module SpinRule {
  import opened WheelConfig

  datatype Option<T> = None | Some(value: T)

  const FullTurn: real := 360.0
  /** The target rotation adds this many whole turns to the random offset. */
  const MinTurns: nat := 5

  // ---------------------------------------------------------------------------
  // Wedge layout
  // ---------------------------------------------------------------------------

  /** Angular width of each of `n` equal wedges (line 81; line 34 is the same
      width in radians). */
  function SliceAngle(n: nat): (s: real)
    requires n > 0
    ensures s > 0.0
    ensures s * (n as real) == FullTurn
  {
    FullTurn / n as real
  }

  /** Angle where wedge `i` starts (line 37, converted from radians to degrees). */
  function WedgeStart(i: int, n: nat): real
    requires n > 0
  {
    i as real * SliceAngle(n)
  }

  /** Angle where wedge `i` ends: its start plus one slice (line 44). */
  function WedgeEnd(i: int, n: nat): real
    requires n > 0
  {
    WedgeStart(i, n) + SliceAngle(n)
  }

  /** The wedges tile the circle: the first starts at 12 o'clock, each ends where
      the next starts, all have the same width, and the last ends after a full turn. */
  lemma WedgesTileCircle(n: nat)
    requires n > 0
    ensures WedgeStart(0, n) == 0.0
    ensures WedgeStart(n, n) == FullTurn
    ensures forall i :: WedgeEnd(i, n) == WedgeStart(i + 1, n)
    ensures forall i :: WedgeEnd(i, n) - WedgeStart(i, n) == SliceAngle(n) > 0.0
  {
  }

  /** Wedge starts grow with the index. */
  lemma WedgeStartMonotone(i: int, j: int, n: nat)
    requires n > 0 && i < j
    ensures WedgeEnd(i, n) <= WedgeStart(j, n)
  {
    var s := SliceAngle(n);
    assert (j - i - 1) as real * s >= 0.0;
    assert WedgeStart(j, n) - WedgeEnd(i, n) == (j - i - 1) as real * s;
  }

  // ---------------------------------------------------------------------------
  // Target rotation and resting angle
  // ---------------------------------------------------------------------------

  /** A rotation of at least five full turns and less than six. */
  predicate IsTarget(d: real)
  {
    MinTurns as real * FullTurn <= d < (MinTurns + 1) as real * FullTurn
  }

  /** The target rotation for a draw `r` of Math.random() (line 74): at least
      five full turns, and less than six. */
  function Target(r: real): (d: real)
    requires 0.0 <= r < 1.0
    ensures IsTarget(d)
  {
    r * 360.0 + 5.0 * 360.0
  }

  /** Truncation toward zero, the rounding JavaScript's `%` uses. */
  function Trunc(x: real): (k: int)
    ensures 0.0 <= x ==> 0 <= k && k as real <= x < k as real + 1.0
    ensures x < 0.0 ==> k <= 0 && k as real - 1.0 < x <= k as real
  {
    if x >= 0.0 then x.Floor else -((-x).Floor)
  }

  /** The resting angle `degree % 360` (line 80), with JavaScript's remainder:
      it carries the sign of the dividend and differs from it by whole turns. */
  function RestingAngle(d: real): (a: real)
    ensures 0.0 <= d ==> 0.0 <= a < FullTurn
    ensures d < 0.0 ==> -FullTurn < a <= 0.0
    ensures ((d - a) / FullTurn).Floor as real == (d - a) / FullTurn
  {
    d - FullTurn * Trunc(d / FullTurn) as real
  }

  /** The resting angle of a spin is the random offset itself: the five extra
      turns vanish in the remainder. */
  lemma RestingAngleOfTarget(r: real)
    requires 0.0 <= r < 1.0
    ensures RestingAngle(Target(r)) == FullTurn * r
  {
    var d := Target(r);
    assert d / FullTurn == r + 5.0;
    assert Trunc(d / FullTurn) == 5;
  }

  // ---------------------------------------------------------------------------
  // Winning slot, as written (line 82) and normalised
  // ---------------------------------------------------------------------------

  /** The index computed at line 82: `Math.floor((360 - adjustedAngle) / sliceAngle)`. */
  function WedgeIndex(a: real, n: nat): int
    requires n > 0
  {
    ((FullTurn - a) / SliceAngle(n)).Floor
  }

  /** The point of the wheel that sits under the fixed pointer at 12 o'clock once
      the wheel has turned clockwise by the resting angle `a`. */
  function UnderPointer(a: real): (p: real)
    requires 0.0 <= a < FullTurn
    ensures 0.0 <= p < FullTurn
    ensures p + a == 0.0 || p + a == FullTurn
  {
    if a == 0.0 then 0.0 else FullTurn - a
  }

  /** Floor characterisation: an index whose wedge holds `(360 - a)` is the floor. */
  lemma FloorOfWedge(x: real, n: nat)
    requires n > 0
    ensures WedgeStart((x / SliceAngle(n)).Floor, n) <= x < WedgeEnd((x / SliceAngle(n)).Floor, n)
  {
    var s := SliceAngle(n);
    var q := x / s;
    var k := q.Floor;
    assert k as real <= q < k as real + 1.0;
    assert q * s == x;
    assert k as real * s <= q * s;
    assert q * s < (k as real + 1.0) * s;
  }

  /** For every resting angle strictly between 0 and 360, the index of line 82 is
      in range and its wedge lies under the pointer (lines 37, 81-82). */
  lemma WedgeIndexCoversPointer(a: real, n: nat)
    requires n > 0 && 0.0 < a < FullTurn
    ensures 0 <= WedgeIndex(a, n) < n
    ensures WedgeStart(WedgeIndex(a, n), n) <= FullTurn - a < WedgeEnd(WedgeIndex(a, n), n)
  {
    var k := WedgeIndex(a, n);
    FloorOfWedge(FullTurn - a, n);
    WedgesTileCircle(n);
    if k < 0 {
      WedgeStartMonotone(k, 0, n);
    }
    if k >= n {
      if k > n { WedgeStartMonotone(n, k, n); }
    }
  }

  /** At the resting angle 0 the index of line 82 is `n`, one past the last wedge. */
  lemma WedgeIndexAtZero(n: nat)
    requires n > 0
    ensures WedgeIndex(0.0, n) == n
  {
    assert (FullTurn - 0.0) / SliceAngle(n) == n as real;
  }

  /** The winning index normalised into range (`index % n`): the wedge under the
      pointer, also at the resting angle 0. */
  function ResolvedIndex(a: real, n: nat): (k: nat)
    requires n > 0 && 0.0 <= a < FullTurn
    ensures k < n
    ensures WedgeStart(k, n) <= UnderPointer(a) < WedgeEnd(k, n)
    ensures 0.0 < a ==> k == WedgeIndex(a, n)
    ensures a == 0.0 ==> k == 0
  {
    if a == 0.0 then
      WedgeIndexAtZero(n);
      WedgeIndex(a, n) % n
    else
      WedgeIndexCoversPointer(a, n);
      WedgeIndex(a, n) % n
  }

  /** The wedge under the pointer is unique: any wedge covering that point is
      the resolved one. */
  lemma CoveringWedgeIsResolved(a: real, n: nat, i: int)
    requires n > 0 && 0.0 <= a < FullTurn
    requires WedgeStart(i, n) <= UnderPointer(a) < WedgeEnd(i, n)
    ensures i == ResolvedIndex(a, n)
  {
    var k := ResolvedIndex(a, n);
    if i < k {
      WedgeStartMonotone(i, k, n);
    } else if k < i {
      WedgeStartMonotone(k, i, n);
    }
  }

  // ---------------------------------------------------------------------------
  // Segment lookup and the win test (line 88)
  // ---------------------------------------------------------------------------

  /** `segments[i]`: the icon at `i`, or `undefined` (None) outside the array. */
  function SegmentAt(segs: seq<Icon>, i: int): Option<Icon>
  {
    if 0 <= i < |segs| then Some(segs[i]) else None
  }

  /** The test of line 88, `segments[index] !== "❌"`, on the index of line 82. */
  predicate EffectAsWritten(segs: seq<Icon>, d: real)
    requires |segs| > 0
  {
    SegmentAt(segs, WedgeIndex(RestingAngle(d), |segs|)) != Some(NoWin)
  }

  /** The outcome of one spin. */
  datatype Outcome = Outcome(index: nat, icon: Icon, effect: bool)

  /** The outcome of a spin whose target rotation is `d`, with the index
      normalised into range: the wedge under the pointer wins, and the win effect
      is scheduled exactly when that wedge is not the no-win sentinel. */
  function OutcomeOf(segs: seq<Icon>, d: real): (o: Outcome)
    requires |segs| > 0 && 0.0 <= d
    ensures o.index < |segs| && o.icon == segs[o.index]
    ensures WedgeStart(o.index, |segs|) <= UnderPointer(RestingAngle(d)) < WedgeEnd(o.index, |segs|)
    ensures o.effect <==> o.icon != NoWin
  {
    var k := ResolvedIndex(RestingAngle(d), |segs|);
    Outcome(k, segs[k], segs[k] != NoWin)
  }

  /** Away from the resting angle 0 the source's rule and the normalised one agree
      on the index and on whether the effect is scheduled. */
  lemma AsWrittenAgreesAwayFromZero(segs: seq<Icon>, d: real)
    requires |segs| > 0 && 0.0 <= d && RestingAngle(d) != 0.0
    ensures WedgeIndex(RestingAngle(d), |segs|) == OutcomeOf(segs, d).index
    ensures EffectAsWritten(segs, d) <==> OutcomeOf(segs, d).effect
  {
  }

  /** The boundary defect of lines 82 and 88: at the resting angle 0 the index is
      one past the end, the lookup yields `undefined`, and since `undefined` is not
      the sentinel the win effect is scheduled whatever wedge is under the pointer. */
  lemma AsWrittenAtRestingZero(segs: seq<Icon>, d: real)
    requires |segs| > 0 && 0.0 <= d && RestingAngle(d) == 0.0
    ensures WedgeIndex(RestingAngle(d), |segs|) == |segs|
    ensures SegmentAt(segs, WedgeIndex(RestingAngle(d), |segs|)) == None
    ensures EffectAsWritten(segs, d)
    ensures OutcomeOf(segs, d).index == 0
  {
    WedgeIndexAtZero(|segs|);
  }

  /** The draw 0 of Math.random() reaches that boundary: the target is exactly
      five turns and the index of line 82 is out of range. */
  lemma ZeroDrawReachesOutOfRangeIndex(n: nat)
    requires n > 0
    ensures Target(0.0) == 1800.0 && RestingAngle(Target(0.0)) == 0.0
    ensures WedgeIndex(RestingAngle(Target(0.0)), n) == n
  {
    RestingAngleOfTarget(0.0);
    WedgeIndexAtZero(n);
  }

  /** A wheel whose first wedge is the sentinel shows the defect: landing on it
      schedules the win effect, although the normalised rule schedules none. */
  lemma NoWinFirstWedgeCounterexample()
    ensures EffectAsWritten([NoWin, RedBull], Target(0.0))
    ensures OutcomeOf([NoWin, RedBull], Target(0.0)).icon == NoWin
    ensures !OutcomeOf([NoWin, RedBull], Target(0.0)).effect
  {
    ZeroDrawReachesOutOfRangeIndex(2);
    AsWrittenAtRestingZero([NoWin, RedBull], Target(0.0));
  }

  /** With the shipped table the defect stays invisible: its first wedge is not the
      sentinel, so the source's effect decision equals the normalised one for
      every target rotation. */
  lemma ShippedTableEffectUnaffected(d: real)
    requires 0.0 <= d
    ensures EffectAsWritten(Segments, d) <==> OutcomeOf(Segments, d).effect
  {
    if RestingAngle(d) == 0.0 {
      AsWrittenAtRestingZero(Segments, d);
    } else {
      AsWrittenAgreesAwayFromZero(Segments, d);
    }
  }

  // ---------------------------------------------------------------------------
  // Worked cases on the shipped table: ten wedges of 36 degrees
  // ---------------------------------------------------------------------------

  /** Resting at 324 degrees the pointer is over wedge 1, the candy, and the
      effect is scheduled; resting at 0 it is over wedge 0, the drink. */
  lemma WorkedCaseCandyAndDrink()
    ensures WedgeIndex(324.0, 10) == 1 && OutcomeOf(Segments, 324.0).icon == Skittles
    ensures OutcomeOf(Segments, 324.0).effect
    ensures OutcomeOf(Segments, 0.0).index == 0 && OutcomeOf(Segments, 0.0).icon == RedBull
    ensures OutcomeOf(Segments, 0.0).effect
  {
    assert (FullTurn - 324.0) / SliceAngle(10) == 1.0;
  }

  /** Every resting angle in (216, 252] lands on wedge 3, the sentinel, and
      schedules no effect. */
  lemma WorkedCaseNoWinBand(a: real)
    requires 216.0 < a <= 252.0
    ensures WedgeIndex(a, 10) == 3
    ensures OutcomeOf(Segments, a).icon == NoWin && !OutcomeOf(Segments, a).effect
  {
    WedgeIndexCoversPointer(a, 10);
    var k := WedgeIndex(a, 10);
    assert k as real * 36.0 <= 360.0 - a < (k + 1) as real * 36.0;
  }

  /** The outcome depends on the draw alone: a draw `r` strictly inside (0, 1)
      wins the wedge `floor(n * (1 - r))`, and the draw 0 wins wedge 0. */
  lemma OutcomeOfDraw(segs: seq<Icon>, r: real)
    requires |segs| > 0 && 0.0 <= r < 1.0
    ensures 0.0 < r ==> OutcomeOf(segs, Target(r)).index == ((1.0 - r) * |segs| as real).Floor
    ensures r == 0.0 ==> OutcomeOf(segs, Target(r)).index == 0
  {
    RestingAngleOfTarget(r);
    var n := |segs| as real;
    assert (FullTurn - FullTurn * r) / SliceAngle(|segs|) == (1.0 - r) * n;
  }
}
