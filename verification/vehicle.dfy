/**
 The per-tick vehicle update: wheel drive from the Up/Down keys (braking
 first), the dust emitter of every wheel, roll torque from Left/Right, the
 unflip on Space, and the exhaust parameters derived from the body's speed.
 Two versions: the desktop `Vehicle.Update` (governed torque) and the shared
 project's `Update` (fixed torques).
 */
module Vehicle {
  import opened Options
  import opened Vectors
  import opened Wheel

  /** The keys polled each tick. */
  datatype Keys = Keys(up: bool, down: bool, left: bool, right: bool, space: bool)

  /** A C# `int`. */
  type Int32 = x: int | -0x8000_0000 <= x < 0x8000_0000

  /**
   Unchecked negation of a C# `int` (`-x`, and `x * -1`): the 32-bit
   two's-complement result, so `int.MinValue` negates to itself.
   */
  function Neg32(x: Int32): (r: Int32)
    ensures (r + x) % 0x1_0000_0000 == 0
    ensures x != -0x8000_0000 ==> r + x == 0
  {
    if x == -0x8000_0000 then x else -x
  }

  /** Negating twice gives the value back, and only `int.MinValue` is its own negation besides 0. */
  lemma Neg32Involution(x: Int32)
    ensures Neg32(Neg32(x)) == x
    ensures Neg32(x) == x <==> x == 0 || x == -0x8000_0000
  {
  }

  /** The tunables set by `CreateChassis`. */
  datatype Params = Params(horsePower: Int32, maxSpdFwd: Int32, maxSpdBwd: Int32, rollForce: Int32)

  /** A call `ApplyNonLinearTorque(power, targetSpeed)`. */
  datatype Drive = Drive(power: int, targetSpeed: int)

  /** One wheel as the tick sees it; `nearest` is the surface point the contact search returned. */
  datatype WheelState = WheelState(angularVelocity: real, pos: Vec3, nearest: Vec3, reach: real, emitter: Emitter)

  /** What the tick does to one wheel: the torque applied, if any, and the emitter afterwards. */
  datatype WheelTick = WheelTick(torque: Option<Torque>, emitter: Emitter)

  /** What the tick does to the body: torques applied in order, and an angular velocity set, if any. */
  datatype BodyTick = BodyTick(torques: seq<real>, angularVelocity: Option<real>)

  datatype Exhaust = Exhaust(speed: real, speedVariance: real)

  datatype Tick = Tick(wheels: seq<WheelTick>, body: BodyTick, exhaust: Exhaust)

  /** Braking takes priority: Down drives backward, Up alone forward, neither leaves the wheels alone. */
  function WheelDrive(p: Params, k: Keys): (r: Option<Drive>)
    ensures r.Some? <==> k.down || k.up
    ensures k.down ==> r == Some(Drive(p.horsePower, p.maxSpdBwd))
    ensures !k.down && k.up ==> r == Some(Drive(Neg32(p.horsePower), Neg32(p.maxSpdFwd)))
  {
    if k.down then Some(Drive(p.horsePower, p.maxSpdBwd))
    else if k.up then Some(Drive(Neg32(p.horsePower), Neg32(p.maxSpdFwd)))
    else None
  }

  /** While braking, whether Up is also held makes no difference. */
  lemma BrakingWins(p: Params, k: Keys)
    requires k.down
    ensures WheelDrive(p, k.(up := true)) == WheelDrive(p, k.(up := false))
  {
  }

  /** Exhaust speed and its variance from the length of the body's velocity. */
  function ExhaustFor(velocityLength: real): Exhaust
  {
    Exhaust(Abs(100.0 + velocityLength * 20.0), velocityLength * 10.0)
  }

  /** A length is never negative, so the exhaust is at least 100 fast and its variance is not negative. */
  lemma ExhaustBounds(velocityLength: real)
    requires 0.0 <= velocityLength
    ensures ExhaustFor(velocityLength).speed == 100.0 + 20.0 * velocityLength >= 100.0
    ensures ExhaustFor(velocityLength).speedVariance >= 0.0
  {
  }

  /** Roll torques: Left and Right are independent, so both may be applied in one tick. */
  function Roll(force: Int32, k: Keys): (r: seq<real>)
    ensures |r| == (if k.left then 1 else 0) + (if k.right then 1 else 0)
    ensures k.left ==> r[0] == force as real
    ensures k.right ==> r[|r| - 1] == Neg32(force) as real
  {
    (if k.left then [force as real] else []) + (if k.right then [Neg32(force) as real] else [])
  }

  /**
   With both roll keys held the two torques cancel, except for a roll force
   of `int.MinValue`, whose negation wraps to itself.
   */
  lemma RollKeysCancel(force: Int32, k: Keys)
    requires k.left && k.right
    ensures var r := Roll(force, k); |r| == 2 && (r[0] + r[1] == 0.0 <==> force != -0x8000_0000)
  {
  }

  /** The desktop `Vehicle.Update`. */
  function Update(p: Params, k: Keys, wheels: seq<WheelState>, velocityLength: real): (t: Tick)
    ensures |t.wheels| == |wheels|
    ensures forall i | 0 <= i < |wheels| :: t.wheels[i].torque.Some? <==> k.down || k.up
    ensures k.down ==> forall i | 0 <= i < |wheels| ::
              t.wheels[i].torque == Some(ApplyNonLinearTorque(wheels[i].angularVelocity, p.horsePower, p.maxSpdBwd))
    ensures !k.down && k.up ==> forall i | 0 <= i < |wheels| ::
              t.wheels[i].torque == Some(ApplyNonLinearTorque(wheels[i].angularVelocity, Neg32(p.horsePower), Neg32(p.maxSpdFwd)))
    ensures forall i | 0 <= i < |wheels| ::
              t.wheels[i].emitter == EmitSurfaceParticles(wheels[i].emitter, wheels[i].pos, wheels[i].nearest, wheels[i].reach)
    ensures t.body.torques == Roll(p.rollForce, k)
    ensures k.space <==> t.body.angularVelocity == Some(2.0)
    ensures t.body.angularVelocity.Some? ==> k.space
    ensures t.exhaust == ExhaustFor(velocityLength)
  {
    var drive := WheelDrive(p, k);
    var ticks := seq(|wheels|, i requires 0 <= i < |wheels| =>
      var w := wheels[i];
      var torque := match drive
        case None => None
        case Some(d) => Some(ApplyNonLinearTorque(w.angularVelocity, d.power, d.targetSpeed));
      WheelTick(torque, EmitSurfaceParticles(w.emitter, w.pos, w.nearest, w.reach)));
    Tick(ticks, BodyTick(Roll(p.rollForce, k), if k.space then Some(2.0) else None), ExhaustFor(velocityLength))
  }

  /** The shared project's fixed drive torque, roll torque and unflip torque. */
  const SharedDrive: int := 400
  const SharedRoll: int := 500
  const SharedUnflip: int := -2500

  /**
   The shared project's `Update`: Down applies 400 to every wheel, else Up
   applies -400, ungoverned; every wheel's emitter uses the 2.6 limit; Left
   and Right roll by 500, and Space applies a -2500 torque instead of setting
   the angular velocity. Both dust emitters play the one cached
   `particles/dust.pex` effect, so its start colour is shared: each wheel
   writes it in turn and the last wheel's verdict is what both show, while
   each emitter's node still moves to its own wheel's contact point.
   */
  function SharedUpdate(k: Keys, wheels: seq<WheelState>, velocityLength: real): (t: Tick)
    ensures |t.wheels| == |wheels|
    ensures forall i | 0 <= i < |wheels| ::
              t.wheels[i].torque == (if k.down then Some(Applied(400.0)) else if k.up then Some(Applied(-400.0)) else None)
    ensures forall i | 0 <= i < |wheels| ::
              t.wheels[i].emitter.pos == EmitSurfaceParticles(wheels[i].emitter, wheels[i].pos, wheels[i].nearest, SharedReach).pos
    ensures forall i | 0 <= i < |wheels| ::
              (t.wheels[i].emitter.color == White <==> InReach(wheels[|wheels| - 1].pos, wheels[|wheels| - 1].nearest, SharedReach))
    ensures t.body.torques == Roll(SharedRoll, k) + (if k.space then [-2500.0] else [])
    ensures t.body.angularVelocity == None
    ensures t.exhaust == ExhaustFor(velocityLength)
  {
    var torque := if k.down then Some(Applied(SharedDrive as real))
                  else if k.up then Some(Applied(-SharedDrive as real))
                  else None;
    var dust := if |wheels| == 0 then Transparent
                else var w := wheels[|wheels| - 1]; EmitSurfaceParticles(w.emitter, w.pos, w.nearest, SharedReach).color;
    var ticks := seq(|wheels|, i requires 0 <= i < |wheels| =>
      WheelTick(torque, Emitter(dust, EmitSurfaceParticles(wheels[i].emitter, wheels[i].pos, wheels[i].nearest, SharedReach).pos)));
    var unflip := if k.space then [SharedUnflip as real] else [];
    Tick(ticks, BodyTick(Roll(SharedRoll, k) + unflip, None), ExhaustFor(velocityLength))
  }

  /**
   The shared dust colour can hide a wheel's contact: with the front wheel
   touching the ground and the rear wheel (created second) in the air, both
   emitters end the tick transparent, though the front emitter's node has
   moved to its contact point.
   */
  lemma SharedDustFollowsLastWheel(k: Keys, front: WheelState, rear: WheelState, velocityLength: real)
    requires InReach(front.pos, front.nearest, SharedReach)
    requires !InReach(rear.pos, rear.nearest, SharedReach)
    ensures var t := SharedUpdate(k, [front, rear], velocityLength);
            && t.wheels[0].emitter == Emitter(Transparent, front.nearest)
            && t.wheels[1].emitter == Emitter(Transparent, rear.emitter.pos)
  {
    var t := SharedUpdate(k, [front, rear], velocityLength);
    assert t.wheels[0].emitter.color != White;
    assert t.wheels[1].emitter.color != White;
  }
}
