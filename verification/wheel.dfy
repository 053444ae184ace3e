/**
 Per-wheel dynamics: the open-loop torque governor `ApplyNonLinearTorque`,
 the nearest-surface-point search `WheelContactHack` and the dust emitter
 switched by contact distance (`EmitSurfaceParticles` and the contact branch
 of the shared project's `Update`).
 */
module Wheel {
  import opened Vectors
  import opened Surface

  // ---------------------------------------------------------------------------
  // Torque governor
  // ---------------------------------------------------------------------------

  /** `fraction > 0 ? 1 - fraction : 1`, with `fraction = angularVelocity / targetSpeed`. */
  function Governor(fraction: real): (mult: real)
    ensures mult <= 1.0
    ensures fraction <= 0.0 ==> mult == 1.0
    ensures fraction == 1.0 ==> mult == 0.0
    ensures 0.0 < fraction <= 1.0 ==> 0.0 <= mult < 1.0
    ensures 1.0 < fraction ==> mult < 0.0
  {
    if fraction > 0.0 then 1.0 - fraction else 1.0
  }

  /** The multiplier never grows as the wheel gets closer to, or past, its target speed. */
  lemma GovernorNonIncreasing(f1: real, f2: real)
    requires f1 <= f2
    ensures Governor(f2) <= Governor(f1)
  {
  }

  /**
   The torque handed to `ApplyTorque`. A zero target speed is not guarded in
   the source: single-precision division then yields +inf (positive angular
   velocity, the direction Down drives), -inf (negative, the direction Up
   drives) or NaN (at rest); only +inf passes `fraction > 0`,
   and `1 - inf` times the power is not a finite torque.
   */
  datatype Torque = Applied(value: real) | NonFinite

  function ApplyNonLinearTorque(angularVelocity: real, power: int, targetSpeed: int): (t: Torque)
    ensures targetSpeed != 0 ==> t.Applied?
    ensures targetSpeed == 0 ==> (t == NonFinite <==> angularVelocity > 0.0)
    ensures targetSpeed == 0 && angularVelocity <= 0.0 ==> t == Applied(power as real)
  {
    if targetSpeed == 0 then
      if angularVelocity > 0.0 then NonFinite else Applied(power as real)
    else
      Applied(Governor(angularVelocity / targetSpeed as real) * power as real)
  }

  /** At rest, or spinning against the target direction, the wheel gets the full power. */
  lemma FullPowerAtRestOrReversed(angularVelocity: real, power: int, targetSpeed: int)
    requires targetSpeed != 0
    requires angularVelocity == 0.0 || (angularVelocity < 0.0) != (targetSpeed < 0)
    ensures ApplyNonLinearTorque(angularVelocity, power, targetSpeed) == Applied(power as real)
  {
    var ts := targetSpeed as real;
    if angularVelocity != 0.0 {
      if ts > 0.0 {
        assert angularVelocity < 0.0;
        assert angularVelocity / ts < 0.0;
      } else {
        assert angularVelocity > 0.0;
        assert angularVelocity / ts < 0.0;
      }
    }
  }

  /** At the target speed no torque is added. */
  lemma NoTorqueAtTarget(power: int, targetSpeed: int)
    requires targetSpeed != 0
    ensures ApplyNonLinearTorque(targetSpeed as real, power, targetSpeed) == Applied(0.0)
  {
    assert targetSpeed as real / targetSpeed as real == 1.0;
  }

  /**
   Below the target speed in its direction the torque has the sign of the
   power and a smaller size; past it the torque opposes the power.
   */
  lemma TorqueBelowAndAboveTarget(angularVelocity: real, power: int, targetSpeed: int)
    requires targetSpeed != 0 && power != 0
    ensures var f := angularVelocity / targetSpeed as real;
            var t := ApplyNonLinearTorque(angularVelocity, power, targetSpeed);
            && (0.0 < f <= 1.0 ==> 0.0 <= t.value * power as real < power as real * power as real)
            && (1.0 < f ==> t.value * power as real < 0.0)
  {
    var f := angularVelocity / targetSpeed as real;
    var m := Governor(f);
    var p := power as real;
    var t := ApplyNonLinearTorque(angularVelocity, power, targetSpeed);
    assert t.value == m * p;
    assert t.value * p == m * (p * p);
    assert p * p > 0.0;
    if 0.0 < f <= 1.0 {
      assert 0.0 <= m < 1.0;
      assert m * (p * p) < 1.0 * (p * p);
    }
    if 1.0 < f {
      assert m < 0.0;
    }
  }

  // ---------------------------------------------------------------------------
  // Contact search
  // ---------------------------------------------------------------------------

  /** `float.MaxValue`, the starting "closest so far" distance. */
  const MaxFloat: real := 340282346638528859811704183484516925440.0

  /** The surface point sampled at `xOffset` from the wheel. */
  function Probe(e: Env, wheel: Vec3, xOffset: real): Vec2
  {
    Vec2(wheel.x + xOffset, SampleSurface(e, wheel.x + xOffset))
  }

  /**
   Squared planar distances from the wheel to each probe. The source
   compares the square roots; the square root is monotone, so comparing the
   squares (and `float.MaxValue` squared) picks the same point.
   */
  function Distances(e: Env, wheel: Vec3, offsets: seq<real>): (d: seq<real>)
    ensures |d| == |offsets|
  {
    seq(|offsets|, i requires 0 <= i < |offsets| => SqDist2(Flat(wheel), Probe(e, wheel, offsets[i])))
  }

  /** Index k holds the first strict minimum of `d`, and it beats the `float.MaxValue` start. */
  ghost predicate FirstNearest(d: seq<real>, k: int)
  {
    && 0 <= k < |d|
    && d[k] < MaxFloat * MaxFloat
    && (forall i | 0 <= i < |d| :: d[k] <= d[i])
    && (forall i | 0 <= i < k :: d[k] < d[i])
  }

  /**
   `WheelContactHack`: sample the surface at the given x-offsets around the
   wheel, keep the first point strictly closer than everything before it,
   and return it at z = 2; `Vector2.Zero` if no sample beats `float.MaxValue`.
   */
  method WheelContactHack(e: Env, wheel: Vec3, offsets: seq<real>) returns (p: Vec3)
    ensures p.z == 2.0
    ensures var d := Distances(e, wheel, offsets);
            || (exists k :: FirstNearest(d, k) && p == Lift(Probe(e, wheel, offsets[k]), 2.0))
            || ((forall i | 0 <= i < |d| :: MaxFloat * MaxFloat <= d[i]) && p == Vec3(0.0, 0.0, 2.0))
  {
    var points: seq<Vec2> := [];
    var i := 0;
    while i < |offsets|
      invariant 0 <= i <= |offsets|
      invariant |points| == i
      invariant forall j | 0 <= j < i :: points[j] == Probe(e, wheel, offsets[j])
    {
      points := points + [Probe(e, wheel, offsets[i])];
      i := i + 1;
    }

    ghost var d := Distances(e, wheel, offsets);
    var lastSq := MaxFloat * MaxFloat;
    var closest := Vec2(0.0, 0.0);
    ghost var best := -1;
    var k := 0;
    while k < |points|
      invariant 0 <= k <= |points|
      invariant -1 <= best < k
      invariant best == -1 ==> closest == Vec2(0.0, 0.0) && lastSq == MaxFloat * MaxFloat
      invariant best == -1 ==> forall j | 0 <= j < k :: MaxFloat * MaxFloat <= d[j]
      invariant best >= 0 ==> closest == points[best] && lastSq == d[best] && lastSq < MaxFloat * MaxFloat
      invariant best >= 0 ==> forall j | 0 <= j < k :: d[best] <= d[j]
      invariant best >= 0 ==> forall j | 0 <= j < best :: d[best] < d[j]
    {
      var pointSq := SqDist2(Flat(wheel), points[k]);
      if pointSq < lastSq {
        closest := points[k];
        lastSq := pointSq;
        best := k;
      }
      k := k + 1;
    }
    p := Lift(closest, 2.0);
    if best >= 0 {
      assert FirstNearest(d, best);
    }
  }

  // ---------------------------------------------------------------------------
  // Surface particles
  // ---------------------------------------------------------------------------

  datatype Color = Transparent | White

  /** The dust emitter: its start colour and its node's position. */
  datatype Emitter = Emitter(color: Color, pos: Vec3)

  /** `Vector3.Distance(wheel, point) <= limit`, stated without the square root. */
  predicate InReach(wheel: Vec3, point: Vec3, limit: real)
  {
    0.0 <= limit && SqDist3(wheel, point) <= limit * limit
  }

  /**
   Beyond the limit the emitter turns transparent and stays where it is;
   within it, white and moved to the contact point.
   */
  function EmitSurfaceParticles(em: Emitter, wheel: Vec3, nearest: Vec3, limit: real): (r: Emitter)
    ensures r.color == White <==> InReach(wheel, nearest, limit)
    ensures r.color == White ==> r.pos == nearest
    ensures r.color == Transparent ==> r.pos == em.pos
  {
    if !InReach(wheel, nearest, limit) then Emitter(Transparent, em.pos)
    else Emitter(White, nearest)
  }

  /** A larger limit never turns particles off: reach is monotone in the limit. */
  lemma ReachMonotone(wheel: Vec3, point: Vec3, l1: real, l2: real)
    requires 0.0 <= l1 <= l2
    requires InReach(wheel, point, l1)
    ensures InReach(wheel, point, l2)
  {
    assert l1 * l1 <= l1 * l2 <= l2 * l2;
  }

  /** The contact limit of the shared project's `Update`. */
  const SharedReach: real := 2.6

  /**
   In the shared project the wheel sits in the z = 0 plane while the
   contact point is returned at z = 2, so the 2.6 limit on the 3-D distance
   admits only points within sqrt(2.76) (about 1.66) of the wheel in the plane.
   */
  lemma SharedReachInPlane(wheel: Vec3, nearest: Vec3)
    requires wheel.z == 0.0 && nearest.z == 2.0
    ensures InReach(wheel, nearest, SharedReach) <==> SqDist2(Flat(wheel), Flat(nearest)) <= 2.76
  {
    assert SqDist3(wheel, nearest) == SqDist2(Flat(wheel), Flat(nearest)) + 4.0;
    assert SharedReach * SharedReach == 6.76;
  }
}
