/**
 * The thruster-allocation path of the Seabee 3 vehicle driver: logical motion
 * axes are routed onto pairs of thrusters, and each contribution is added into
 * a fixed-size actuator message whose slots are capped as a pair.
 *
 * Doubles are modelled as reals; every double-to-int conversion of the source
 * is written out as `Trunc` (C++ truncates toward zero).
 */
module Seabee3Driver {
  import opened Wrappers

  // ---------------------------------------------------------------------
  // Axes: the logical axis ids of the driver.
  // ---------------------------------------------------------------------

  const AxisSpeed := 0
  const AxisStrafe := 1
  const AxisDepth := 2
  const AxisRoll := 3
  const AxisPitch := 4
  const AxisYaw := 5
  const AxisSpeedRel := 6
  const AxisStrafeRel := 7
  const AxisDepthRel := 8
  const AxisRollRel := 9
  const AxisPitchRel := 10
  const AxisYawRel := 11

  // ---------------------------------------------------------------------
  // Motor controller ids. Their real values live in the BeeStem3 driver,
  // which is not part of this model: these are distinct in-range stand-ins,
  // and no proof depends on anything but their distinctness and range.
  // ---------------------------------------------------------------------

  const NUM_MOTOR_CONTROLLERS := 9
  const STRAFE_FRONT_THRUSTER := 0
  const FWD_LEFT_THRUSTER := 1
  const DEPTH_LEFT_THRUSTER := 2
  const FWD_RIGHT_THRUSTER := 3
  const DEPTH_RIGHT_THRUSTER := 4
  const STRAFE_BACK_THRUSTER := 5

  /** The symmetric limit handed to the proportional cap. */
  const MotorLimit := 100

  // ---------------------------------------------------------------------
  // Vector3 and Twist values and their scaling operators.
  // ---------------------------------------------------------------------

  datatype Vector3 = Vector3(x: real, y: real, z: real)
  datatype Twist = Twist(linear: Vector3, angular: Vector3)

  const ZeroVector3 := Vector3(0.0, 0.0, 0.0)
  const ZeroTwist := Twist(ZeroVector3, ZeroVector3)

  /**
   * The copy `v * scale`, and the new value of `v` after `v *= scale` when
   * `scale` is not one of `v`'s own components (the operator takes it by
   * reference, so `v *= v.x` would scale y and z by the updated x).
   */
  function ScaleVector3(v: Vector3, scale: real): (r: Vector3)
    ensures scale == 1.0 ==> r == v
    ensures scale == 0.0 ==> r == ZeroVector3
    ensures v == ZeroVector3 ==> r == ZeroVector3
  {
    Vector3(v.x * scale, v.y * scale, v.z * scale)
  }

  /** `twist * scale`: a copy whose linear and angular parts are scaled. */
  function ScaleTwist(t: Twist, scale: real): (r: Twist)
    ensures scale == 1.0 ==> r == t
    ensures scale == 0.0 ==> r == ZeroTwist
    ensures t == ZeroTwist ==> r == ZeroTwist
  {
    Twist(ScaleVector3(t.linear, scale), ScaleVector3(t.angular, scale))
  }

  /** Each of the six components is multiplied by the scalar, independently. */
  lemma ScaleTwistComponents(t: Twist, scale: real)
    ensures var r := ScaleTwist(t, scale);
      && r.linear.x == t.linear.x * scale && r.linear.y == t.linear.y * scale
      && r.linear.z == t.linear.z * scale && r.angular.x == t.angular.x * scale
      && r.angular.y == t.angular.y * scale && r.angular.z == t.angular.z * scale
  {
  }

  /** Scaling by one changes nothing; scaling twice is scaling once by the product. */
  lemma ScaleTwistCompose(t: Twist, a: real, b: real)
    ensures ScaleTwist(t, 1.0) == t
    ensures ScaleTwist(ScaleTwist(t, a), b) == ScaleTwist(t, a * b)
  {
    assert t.linear.x * a * b == t.linear.x * (a * b);
    assert t.linear.y * a * b == t.linear.y * (a * b);
    assert t.linear.z * a * b == t.linear.z * (a * b);
    assert t.angular.x * a * b == t.angular.x * (a * b);
    assert t.angular.y * a * b == t.angular.y * (a * b);
    assert t.angular.z * a * b == t.angular.z * (a * b);
  }

  // ---------------------------------------------------------------------
  // The C++ double-to-int conversion.
  // ---------------------------------------------------------------------

  /** Conversion of a double to int: the integer part, rounded toward zero. */
  function Trunc(r: real): (n: int)
    ensures 0.0 <= r ==> 0 <= n && n as real <= r < n as real + 1.0
    ensures r < 0.0 ==> n <= 0 && n as real - 1.0 < r <= n as real
  {
    if 0.0 <= r then r.Floor else -((-r).Floor)
  }

  /** With an integral gain the accumulated slot value is exact integer arithmetic. */
  lemma TruncIntegralAccumulate(old_: int, gain: int, value: int)
    ensures Trunc(old_ as real + gain as real * value as real) == old_ + gain * value
  {
    assert gain as real * value as real == (gain * value) as real;
  }

  // ---------------------------------------------------------------------
  // ThrusterArrayCfg::at, the 1-based accessor that grows its vector.
  // ---------------------------------------------------------------------

  /** The vector after `at(i)`: resized to `i` entries (new ones 0.0) when shorter. */
  function Grown(thrusters: seq<real>, i: nat): (r: seq<real>)
    ensures |r| == if |thrusters| < i then i else |thrusters|
    ensures r[..|thrusters|] == thrusters
    ensures forall k :: |thrusters| <= k < |r| ==> r[k] == 0.0
  {
    if |thrusters| < i then thrusters + seq(i - |thrusters|, _ => 0.0) else thrusters
  }

  /** `at(i)` never shrinks nor changes a vector that already has `i` entries. */
  lemma GrownKeepsLongVectors(thrusters: seq<real>, i: nat)
    requires i <= |thrusters|
    ensures Grown(thrusters, i) == thrusters
  {
  }

  /** Writing entry `i` through `at` and then entry `j > i` yields exactly the two values. */
  lemma GrownTwoWrites(m1: real, m2: real)
    ensures Grown(Grown([], 1)[0 := m1], 2)[1 := m2] == [m1, m2]
  {
    assert Grown([], 1) == [0.0];
    assert Grown([m1], 2) == [m1, 0.0];
  }

  /** The per-axis thruster direction table entry. */
  class ThrusterArrayCfg {
    var thrusters: seq<real>

    constructor ()
      ensures thrusters == []
    {
      thrusters := [];
    }

    /** Reading `at(i)`: the vector grows to `i` entries if it is shorter; the result is entry `i - 1`. */
    method At(i: nat) returns (x: real)
      requires 1 <= i
      modifies this
      ensures thrusters == Grown(old(thrusters), i)
      ensures x == thrusters[i - 1]
      ensures i <= |old(thrusters)| ==> x == old(thrusters)[i - 1]
    {
      if |thrusters| < i {
        thrusters := thrusters + seq(i - |thrusters|, _ => 0.0);
      }
      x := thrusters[i - 1];
    }

    /** Writing through the reference `at(i)` returns, as the parameter loader does. */
    method SetAt(i: nat, x: real)
      requires 1 <= i
      modifies this
      ensures thrusters == Grown(old(thrusters), i)[i - 1 := x]
    {
      if |thrusters| < i {
        thrusters := thrusters + seq(i - |thrusters|, _ => 0.0);
      }
      thrusters := thrusters[i - 1 := x];
    }
  }

  // ---------------------------------------------------------------------
  // Configuration and the value of an actuator message.
  // ---------------------------------------------------------------------

  /**
   * The driver's configuration: per axis the directions of the thrusters of its
   * pair (entries 1 and 2 of `at`, stored 0-based), the per-axis direction of
   * the command, and the proportional cap `LocalizationUtil::capValueProp`,
   * whose body is not part of this model and is therefore left as a parameter.
   */
  datatype Config = Config(
    thrusterDir: seq<seq<real>>,
    axisDir: seq<real>,
    capValueProp: (int, int, int) -> (int, int))

  predicate ValidConfig(cfg: Config)
  {
    && |cfg.thrusterDir| == 6
    && |cfg.axisDir| == 6
    && forall k :: 0 <= k < 6 ==> |cfg.thrusterDir[k]| >= 2
  }

  /** The parameter defaults for the thruster directions, axis by axis. */
  const DefaultThrusterDirs: seq<(real, real)> :=
    [(1.0, 1.0), (1.0, 1.0), (1.0, 1.0), (1.0, 1.0), (1.0, 1.0), (-1.0, 1.0)]

  /** The parameter defaults for the axis directions. */
  const DefaultAxisDirs: seq<real> := [1.0, 1.0, -1.0, -1.0, -1.0, -1.0]

  /** The configuration read at startup when every direction parameter keeps its default. */
  function DefaultConfig(cap: (int, int, int) -> (int, int)): (cfg: Config)
    ensures ValidConfig(cfg) && cfg.capValueProp == cap
    ensures forall k :: 0 <= k < 6 ==> cfg.thrusterDir[k] == [if k == AxisYaw then -1.0 else 1.0, 1.0]
    ensures forall k :: 0 <= k < 6 ==> cfg.axisDir[k] == if k == AxisSpeed || k == AxisStrafe then 1.0 else -1.0
  {
    Config(seq(6, k requires 0 <= k < 6 => [DefaultThrusterDirs[k].0, DefaultThrusterDirs[k].1]),
           DefaultAxisDirs, cap)
  }

  /** The contents of a motor control message: one value and one mask bit per controller. */
  datatype MotorCntlValue = MotorCntlValue(motors: seq<int>, mask: seq<int>)

  predicate ValidValue(m: MotorCntlValue)
  {
    |m.motors| == NUM_MOTOR_CONTROLLERS && |m.mask| == NUM_MOTOR_CONTROLLERS
  }

  function ZeroValue(): (m: MotorCntlValue)
    ensures ValidValue(m)
    ensures forall i :: 0 <= i < NUM_MOTOR_CONTROLLERS ==> m.motors[i] == 0 && m.mask[i] == 0
  {
    MotorCntlValue(seq(NUM_MOTOR_CONTROLLERS, _ => 0), seq(NUM_MOTOR_CONTROLLERS, _ => 0))
  }

  // ---------------------------------------------------------------------
  // The allocation table, flattened: where each axis ends up after redirects.
  // ---------------------------------------------------------------------

  /** The thruster pair an axis drives, the axis whose directions it uses, and the value it applies. */
  datatype Route = Route(cfgAxis: int, m1: int, m2: int, value: int)

  /**
   * Where an allocation call lands once absolute axes are redirected to their
   * body-relative counterparts (strafe and yaw unchanged, depth negated).
   * Pitch and the relative speed, roll and pitch axes have no thruster pair.
   */
  function Resolve(axis: int, value: int): (r: Option<Route>)
    ensures r.Some? ==> 0 <= r.value.cfgAxis < 6
    ensures r.Some? ==> 0 <= r.value.m1 < NUM_MOTOR_CONTROLLERS && 0 <= r.value.m2 < NUM_MOTOR_CONTROLLERS
    ensures r.Some? ==> r.value.m1 != r.value.m2
  {
    if axis == AxisSpeed then
      Some(Route(AxisSpeed, FWD_RIGHT_THRUSTER, FWD_LEFT_THRUSTER, value))
    else if axis == AxisStrafe || axis == AxisStrafeRel then
      Some(Route(AxisStrafe, STRAFE_FRONT_THRUSTER, STRAFE_BACK_THRUSTER, value))
    else if axis == AxisDepth then
      Some(Route(AxisDepth, DEPTH_RIGHT_THRUSTER, DEPTH_LEFT_THRUSTER, -value))
    else if axis == AxisDepthRel then
      Some(Route(AxisDepth, DEPTH_RIGHT_THRUSTER, DEPTH_LEFT_THRUSTER, value))
    else if axis == AxisRoll then
      Some(Route(AxisRoll, DEPTH_RIGHT_THRUSTER, DEPTH_LEFT_THRUSTER, value))
    else if axis == AxisYaw || axis == AxisYawRel then
      Some(Route(AxisYaw, STRAFE_FRONT_THRUSTER, STRAFE_BACK_THRUSTER, value))
    else
      None
  }

  /** The slot value before capping: the old value plus gain times value, converted back to int. */
  function PreCap(old_: int, gain: real, value: int): (r: int)
    ensures var x := old_ as real + gain * value as real;
      r as real - 1.0 < x < r as real + 1.0
    ensures gain == 0.0 || value == 0 ==> r == old_
  {
    Trunc(old_ as real + gain * value as real)
  }

  /** Accumulates `gain * value` into slots m1 and m2, caps the pair and marks both active. */
  function WritePair(cap: (int, int, int) -> (int, int), m: MotorCntlValue,
                     m1: int, m2: int, gain1: real, gain2: real, value: int): (r: MotorCntlValue)
    requires ValidValue(m) && 0 <= m1 < NUM_MOTOR_CONTROLLERS && 0 <= m2 < NUM_MOTOR_CONTROLLERS
    ensures ValidValue(r)
  {
    var capped := cap(PreCap(m.motors[m1], gain1, value), PreCap(m.motors[m2], gain2, value), MotorLimit);
    MotorCntlValue(m.motors[m1 := capped.0][m2 := capped.1], m.mask[m1 := 1][m2 := 1])
  }

  /** The message after one `updateMotorCntlMsg(msg, axis, value)` call. */
  function Allocate(cfg: Config, m: MotorCntlValue, axis: int, value: int): (r: MotorCntlValue)
    requires ValidConfig(cfg) && ValidValue(m)
    ensures ValidValue(r)
  {
    match Resolve(axis, value)
    case None => m
    case Some(rt) =>
      WritePair(cfg.capValueProp, m, rt.m1, rt.m2,
                cfg.thrusterDir[rt.cfgAxis][0], cfg.thrusterDir[rt.cfgAxis][1], rt.value)
  }

  /** The absolute strafe and yaw axes allocate exactly as their relative ones; depth with the value negated. */
  lemma AllocateRedirects(cfg: Config, m: MotorCntlValue, value: int)
    requires ValidConfig(cfg) && ValidValue(m)
    ensures Allocate(cfg, m, AxisStrafe, value) == Allocate(cfg, m, AxisStrafeRel, value)
    ensures Allocate(cfg, m, AxisYaw, value) == Allocate(cfg, m, AxisYawRel, value)
    ensures Allocate(cfg, m, AxisDepth, value) == Allocate(cfg, m, AxisDepthRel, -value)
  {
  }

  /** Axes without a thruster pair leave the message completely unchanged. */
  lemma AllocateUnmappedNoop(cfg: Config, m: MotorCntlValue, axis: int, value: int)
    requires ValidConfig(cfg) && ValidValue(m)
    requires axis in {AxisPitch, AxisSpeedRel, AxisRollRel, AxisPitchRel} || axis < 0 || 11 < axis
    ensures Allocate(cfg, m, axis, value) == m
  {
  }

  /**
   * For an axis with a pair: only the pair's two values and two mask bits
   * change, both mask bits become 1, and the values written are the cap's
   * output on the accumulated (old + gain * value) pair, with limit 100.
   */
  lemma AllocateMapped(cfg: Config, m: MotorCntlValue, axis: int, value: int)
    requires ValidConfig(cfg) && ValidValue(m)
    requires Resolve(axis, value).Some?
    ensures var rt := Resolve(axis, value).value;
      var r := Allocate(cfg, m, axis, value);
      var capped := cfg.capValueProp(
        PreCap(m.motors[rt.m1], cfg.thrusterDir[rt.cfgAxis][0], rt.value),
        PreCap(m.motors[rt.m2], cfg.thrusterDir[rt.cfgAxis][1], rt.value),
        MotorLimit);
      && r.motors[rt.m1] == capped.0 && r.motors[rt.m2] == capped.1
      && r.mask[rt.m1] == 1 && r.mask[rt.m2] == 1
      && forall i :: 0 <= i < NUM_MOTOR_CONTROLLERS && i != rt.m1 && i != rt.m2 ==>
           r.motors[i] == m.motors[i] && r.mask[i] == m.mask[i]
  {
  }

  /**
   * Under the default direction table every gain is +1 except yaw's first
   * thruster, which is -1, so the slot before capping is exactly the old
   * value plus or minus the commanded value.
   */
  lemma DefaultGainsExact(cap: (int, int, int) -> (int, int), k: int, j: int, old_: int, value: int)
    requires 0 <= k < 6 && 0 <= j < 2
    ensures DefaultConfig(cap).thrusterDir[k][j] == if k == AxisYaw && j == 0 then -1.0 else 1.0
    ensures PreCap(old_, DefaultConfig(cap).thrusterDir[k][j], value)
            == if k == AxisYaw && j == 0 then old_ - value else old_ + value
  {
    if k == AxisYaw && j == 0 {
      TruncIntegralAccumulate(old_, -1, value);
    } else {
      TruncIntegralAccumulate(old_, 1, value);
    }
  }

  /** Strafe and yaw share the strafe pair, roll and depth the depth pair. */
  lemma SharedPairs(v: int, w: int)
    ensures var s, y := Resolve(AxisStrafeRel, v).value, Resolve(AxisYawRel, w).value;
      s.m1 == y.m1 == STRAFE_FRONT_THRUSTER && s.m2 == y.m2 == STRAFE_BACK_THRUSTER
    ensures var d, r := Resolve(AxisDepthRel, v).value, Resolve(AxisRoll, w).value;
      d.m1 == r.m1 == DEPTH_RIGHT_THRUSTER && d.m2 == r.m2 == DEPTH_LEFT_THRUSTER
  {
  }

  /** A yaw call after a strafe call accumulates onto the values the strafe call wrote. */
  lemma StrafeThenYawAccumulates(cfg: Config, m: MotorCntlValue, v: int, w: int)
    requires ValidConfig(cfg) && ValidValue(m)
    ensures var afterStrafe := Allocate(cfg, m, AxisStrafeRel, v);
      var r := Allocate(cfg, afterStrafe, AxisYawRel, w);
      r.motors[STRAFE_FRONT_THRUSTER] == cfg.capValueProp(
        PreCap(afterStrafe.motors[STRAFE_FRONT_THRUSTER], cfg.thrusterDir[AxisYaw][0], w),
        PreCap(afterStrafe.motors[STRAFE_BACK_THRUSTER], cfg.thrusterDir[AxisYaw][1], w),
        MotorLimit).0
  {
  }

  // ---------------------------------------------------------------------
  // An explicit assumption about the unseen cap, and what follows from it.
  // ---------------------------------------------------------------------

  /** ASSUMPTION (not proved of the source): the cap keeps both values within +-limit. */
  ghost predicate CapKeepsWithin(cap: (int, int, int) -> (int, int))
  {
    forall a: int, b: int, limit: int {:trigger cap(a, b, limit)} :: 0 <= limit ==>
      -limit <= cap(a, b, limit).0 <= limit && -limit <= cap(a, b, limit).1 <= limit
  }

  /** Every motor value within +-100 and every mask bit 0 or 1. */
  ghost predicate InRange(m: MotorCntlValue)
  {
    && ValidValue(m)
    && (forall i :: 0 <= i < NUM_MOTOR_CONTROLLERS ==> -MotorLimit <= m.motors[i] <= MotorLimit)
    && (forall i :: 0 <= i < NUM_MOTOR_CONTROLLERS ==> 0 <= m.mask[i] <= 1)
  }

  /** Under the cap assumption, an allocation keeps the message in range. */
  lemma AllocateKeepsInRange(cfg: Config, m: MotorCntlValue, axis: int, value: int)
    requires ValidConfig(cfg) && CapKeepsWithin(cfg.capValueProp)
    requires InRange(m)
    ensures InRange(Allocate(cfg, m, axis, value))
  {
    match Resolve(axis, value)
    case None =>
    case Some(rt) =>
      var v1 := PreCap(m.motors[rt.m1], cfg.thrusterDir[rt.cfgAxis][0], rt.value);
      var v2 := PreCap(m.motors[rt.m2], cfg.thrusterDir[rt.cfgAxis][1], rt.value);
      var capped := cfg.capValueProp(v1, v2, MotorLimit);
      assert -MotorLimit <= capped.0 <= MotorLimit && -MotorLimit <= capped.1 <= MotorLimit;
  }

  // ---------------------------------------------------------------------
  // One control tick.
  // ---------------------------------------------------------------------

  /** The magnitude an axis receives: its configured direction times the command component, to int. */
  function AxisValue(cfg: Config, axis: int, component: real): (r: int)
    requires ValidConfig(cfg) && 0 <= axis < 6
    ensures var x := cfg.axisDir[axis] * component;
      (0.0 <= x ==> 0 <= r && r as real <= x) && (x < 0.0 ==> r <= 0 && x <= r as real)
    ensures var x := cfg.axisDir[axis] * component;
      r as real - 1.0 < x < r as real + 1.0
  {
    Trunc(cfg.axisDir[axis] * component)
  }

  /**
   * The message a tick produces from the held command: a zeroed message into
   * which speed, strafe, depth and yaw are allocated, in that order.
   */
  function TickValue(cfg: Config, t: Twist): (r: MotorCntlValue)
    requires ValidConfig(cfg)
    ensures ValidValue(r)
  {
    var afterSpeed := Allocate(cfg, ZeroValue(), AxisSpeed, AxisValue(cfg, AxisSpeed, t.linear.x));
    var afterStrafe := Allocate(cfg, afterSpeed, AxisStrafe, AxisValue(cfg, AxisStrafe, t.linear.y));
    var afterDepth := Allocate(cfg, afterStrafe, AxisDepth, AxisValue(cfg, AxisDepth, t.linear.z));
    Allocate(cfg, afterDepth, AxisYaw, AxisValue(cfg, AxisYaw, t.angular.z))
  }

  /** The six thrusters a tick drives. */
  predicate Driven(i: int)
  {
    i in {FWD_RIGHT_THRUSTER, FWD_LEFT_THRUSTER, STRAFE_FRONT_THRUSTER,
          STRAFE_BACK_THRUSTER, DEPTH_RIGHT_THRUSTER, DEPTH_LEFT_THRUSTER}
  }

  /**
   * After a tick exactly the six driven thrusters are masked active, every other
   * slot is zero, and each pair holds the cap of its own axis's contribution;
   * the strafe pair holds the yaw contribution accumulated onto the strafe one.
   */
  lemma TickSlots(cfg: Config, t: Twist)
    requires ValidConfig(cfg)
    ensures var r := TickValue(cfg, t);
      forall i :: 0 <= i < NUM_MOTOR_CONTROLLERS ==>
        (r.mask[i] == 1 <==> Driven(i)) && (!Driven(i) ==> r.mask[i] == 0 && r.motors[i] == 0)
    ensures var r := TickValue(cfg, t);
      var vs := AxisValue(cfg, AxisSpeed, t.linear.x);
      var speed := cfg.capValueProp(PreCap(0, cfg.thrusterDir[AxisSpeed][0], vs),
                                    PreCap(0, cfg.thrusterDir[AxisSpeed][1], vs), MotorLimit);
      r.motors[FWD_RIGHT_THRUSTER] == speed.0 && r.motors[FWD_LEFT_THRUSTER] == speed.1
    ensures var r := TickValue(cfg, t);
      var vd := -AxisValue(cfg, AxisDepth, t.linear.z);
      var depth := cfg.capValueProp(PreCap(0, cfg.thrusterDir[AxisDepth][0], vd),
                                    PreCap(0, cfg.thrusterDir[AxisDepth][1], vd), MotorLimit);
      r.motors[DEPTH_RIGHT_THRUSTER] == depth.0 && r.motors[DEPTH_LEFT_THRUSTER] == depth.1
    ensures var r := TickValue(cfg, t);
      var vs := AxisValue(cfg, AxisStrafe, t.linear.y);
      var vy := AxisValue(cfg, AxisYaw, t.angular.z);
      var strafe := cfg.capValueProp(PreCap(0, cfg.thrusterDir[AxisStrafe][0], vs),
                                     PreCap(0, cfg.thrusterDir[AxisStrafe][1], vs), MotorLimit);
      var yaw := cfg.capValueProp(PreCap(strafe.0, cfg.thrusterDir[AxisYaw][0], vy),
                                  PreCap(strafe.1, cfg.thrusterDir[AxisYaw][1], vy), MotorLimit);
      r.motors[STRAFE_FRONT_THRUSTER] == yaw.0 && r.motors[STRAFE_BACK_THRUSTER] == yaw.1
  {
  }

  /** A tick is the four allocations chained from the zero message. */
  lemma TickValueSteps(cfg: Config, t: Twist, m0: MotorCntlValue, m1: MotorCntlValue,
                       m2: MotorCntlValue, m3: MotorCntlValue, m4: MotorCntlValue)
    requires ValidConfig(cfg) && m0 == ZeroValue()
    requires ValidValue(m1) && ValidValue(m2) && ValidValue(m3)
    requires m1 == Allocate(cfg, m0, AxisSpeed, AxisValue(cfg, AxisSpeed, t.linear.x))
    requires m2 == Allocate(cfg, m1, AxisStrafe, AxisValue(cfg, AxisStrafe, t.linear.y))
    requires m3 == Allocate(cfg, m2, AxisDepth, AxisValue(cfg, AxisDepth, t.linear.z))
    requires m4 == Allocate(cfg, m3, AxisYaw, AxisValue(cfg, AxisYaw, t.angular.z))
    ensures m4 == TickValue(cfg, t)
  {
  }

  /** Roll and pitch are never applied: the tick ignores angular x and y. */
  lemma TickIgnoresRollPitch(cfg: Config, t: Twist, rollCmd: real, pitchCmd: real)
    requires ValidConfig(cfg)
    ensures TickValue(cfg, t) ==
      TickValue(cfg, Twist(t.linear, Vector3(rollCmd, pitchCmd, t.angular.z)))
  {
  }

  /** Under the cap assumption a tick's message is in range. */
  lemma TickInRange(cfg: Config, t: Twist)
    requires ValidConfig(cfg) && CapKeepsWithin(cfg.capValueProp)
    ensures InRange(TickValue(cfg, t))
  {
    var m0 := ZeroValue();
    var m1 := Allocate(cfg, m0, AxisSpeed, AxisValue(cfg, AxisSpeed, t.linear.x));
    var m2 := Allocate(cfg, m1, AxisStrafe, AxisValue(cfg, AxisStrafe, t.linear.y));
    var m3 := Allocate(cfg, m2, AxisDepth, AxisValue(cfg, AxisDepth, t.linear.z));
    AllocateKeepsInRange(cfg, m0, AxisSpeed, AxisValue(cfg, AxisSpeed, t.linear.x));
    AllocateKeepsInRange(cfg, m1, AxisStrafe, AxisValue(cfg, AxisStrafe, t.linear.y));
    AllocateKeepsInRange(cfg, m2, AxisDepth, AxisValue(cfg, AxisDepth, t.linear.z));
    AllocateKeepsInRange(cfg, m3, AxisYaw, AxisValue(cfg, AxisYaw, t.angular.z));
  }

  // ---------------------------------------------------------------------
  // The actuator message and the driver.
  // ---------------------------------------------------------------------

  /** The motor control message: fixed-size arrays of motor values and mask bits. */
  class MotorCntl {
    const motors: array<int>
    const mask: array<int>

    predicate Valid()
    {
      motors.Length == NUM_MOTOR_CONTROLLERS && mask.Length == NUM_MOTOR_CONTROLLERS && motors != mask
    }

    function Value(): MotorCntlValue
      reads motors, mask
    {
      MotorCntlValue(motors[..], mask[..])
    }

    constructor ()
      ensures Valid() && fresh(motors) && fresh(mask)
      ensures Value() == ZeroValue()
    {
      motors := new int[NUM_MOTOR_CONTROLLERS](_ => 0);
      mask := new int[NUM_MOTOR_CONTROLLERS](_ => 0);
      new;
      assert motors[..] == ZeroValue().motors;
      assert mask[..] == ZeroValue().mask;
    }
  }

  /** The time of the last control tick; `Never` stands for the sentinel `ros::Time(-1)`. */
  datatype Stamp = Never | At(secs: real)

  class Driver {
    const cfg: Config
    const motorCntlMsg: MotorCntl
    var twistCache: Twist
    var desiredPose: Twist
    var lastPidUpdateTime: Stamp

    predicate Valid()
    {
      ValidConfig(cfg) && motorCntlMsg.Valid()
    }

    /**
     * Construction with the parameter values read at startup (whose defaults
     * are DefaultThrusterDirs and DefaultAxisDirs): each axis's direction
     * table is written through `at(1)` and `at(2)`, and the message is reset.
     */
    constructor (thrusterDirs: seq<(real, real)>, axisDirs: seq<real>, capValueProp: (int, int, int) -> (int, int))
      requires |thrusterDirs| == 6 && |axisDirs| == 6
      ensures Valid() && fresh(motorCntlMsg) && fresh(motorCntlMsg.motors) && fresh(motorCntlMsg.mask)
      ensures forall k :: 0 <= k < 6 ==> cfg.thrusterDir[k] == [thrusterDirs[k].0, thrusterDirs[k].1]
      ensures cfg.axisDir == axisDirs && cfg.capValueProp == capValueProp
      ensures motorCntlMsg.Value() == ZeroValue()
      ensures twistCache == ZeroTwist && desiredPose == ZeroTwist && lastPidUpdateTime == Never
      ensures thrusterDirs == DefaultThrusterDirs && axisDirs == DefaultAxisDirs ==>
        cfg == DefaultConfig(capValueProp)
    {
      var dirs: seq<seq<real>> := [];
      var k := 0;
      while k < 6
        invariant 0 <= k <= 6 && |dirs| == k
        invariant forall j :: 0 <= j < k ==> dirs[j] == [thrusterDirs[j].0, thrusterDirs[j].1]
      {
        var entry := new ThrusterArrayCfg();
        entry.SetAt(1, thrusterDirs[k].0);
        entry.SetAt(2, thrusterDirs[k].1);
        GrownTwoWrites(thrusterDirs[k].0, thrusterDirs[k].1);
        dirs := dirs + [entry.thrusters];
        k := k + 1;
      }
      cfg := Config(dirs, axisDirs, capValueProp);
      if thrusterDirs == DefaultThrusterDirs && axisDirs == DefaultAxisDirs {
        assert dirs == DefaultConfig(capValueProp).thrusterDir;
      }
      motorCntlMsg := new MotorCntl();
      twistCache := ZeroTwist;
      desiredPose := ZeroTwist;
      lastPidUpdateTime := Never;
      new;
      ResetMotorCntlMsg();
    }

    /** The command callback: the latest twist replaces the cached one. */
    method CmdVelCB(twist: Twist)
      modifies this`twistCache
      ensures twistCache == twist
    {
      twistCache := twist;
    }

    /** Sets every motor value and mask bit of the driver's message to 0. */
    method ResetMotorCntlMsg()
      requires Valid()
      modifies motorCntlMsg.motors, motorCntlMsg.mask
      ensures motorCntlMsg.Value() == ZeroValue()
    {
      var i := 0;
      while i < NUM_MOTOR_CONTROLLERS
        invariant 0 <= i <= NUM_MOTOR_CONTROLLERS
        invariant forall k :: 0 <= k < i ==> motorCntlMsg.mask[k] == 0 && motorCntlMsg.motors[k] == 0
      {
        motorCntlMsg.mask[i] := 0;
        motorCntlMsg.motors[i] := 0;
        i := i + 1;
      }
      assert motorCntlMsg.motors[..] == ZeroValue().motors;
      assert motorCntlMsg.mask[..] == ZeroValue().mask;
    }

    /** One allocation call, with the source's switch and its recursive redirects. */
    method UpdateMotorCntlMsg(msg: MotorCntl, axis: int, pValue: int)
      requires Valid() && msg.Valid()
      modifies msg.motors, msg.mask
      ensures msg.Value() == Allocate(cfg, old(msg.Value()), axis, pValue)
      decreases if axis in {AxisStrafe, AxisDepth, AxisYaw} then 1 else 0
    {
      var value := pValue;
      var motor1, motor2 := -1, -1;
      var motor1Scale, motor2Scale := 1.0, 1.0;
      if axis == AxisSpeed {
        motor1, motor2 := FWD_RIGHT_THRUSTER, FWD_LEFT_THRUSTER;
        motor1Scale, motor2Scale := cfg.thrusterDir[AxisSpeed][0], cfg.thrusterDir[AxisSpeed][1];
      } else if axis == AxisStrafe {
        UpdateMotorCntlMsg(msg, AxisStrafeRel, value);
        return;
      } else if axis == AxisStrafeRel {
        motor1, motor2 := STRAFE_FRONT_THRUSTER, STRAFE_BACK_THRUSTER;
        motor1Scale, motor2Scale := cfg.thrusterDir[AxisStrafe][0], cfg.thrusterDir[AxisStrafe][1];
      } else if axis == AxisDepth {
        UpdateMotorCntlMsg(msg, AxisDepthRel, Trunc(value as real * -1.0));
        return;
      } else if axis == AxisDepthRel {
        motor1, motor2 := DEPTH_RIGHT_THRUSTER, DEPTH_LEFT_THRUSTER;
        motor1Scale, motor2Scale := cfg.thrusterDir[AxisDepth][0], cfg.thrusterDir[AxisDepth][1];
      } else if axis == AxisRoll {
        motor1, motor2 := DEPTH_RIGHT_THRUSTER, DEPTH_LEFT_THRUSTER;
        motor1Scale, motor2Scale := cfg.thrusterDir[AxisRoll][0], cfg.thrusterDir[AxisRoll][1];
      } else if axis == AxisPitch {
        return;
      } else if axis == AxisYaw {
        UpdateMotorCntlMsg(msg, AxisYawRel, value);
        return;
      } else if axis == AxisYawRel {
        motor1, motor2 := STRAFE_FRONT_THRUSTER, STRAFE_BACK_THRUSTER;
        motor1Scale, motor2Scale := cfg.thrusterDir[AxisYaw][0], cfg.thrusterDir[AxisYaw][1];
      }

      if motor1 < 0 || motor2 < 0 {
        return;
      }
      AccumulatePair(msg, motor1, motor2, motor1Scale, motor2Scale, value);
    }

    /** The tail of `updateMotorCntlMsg`: read, accumulate, cap and write back one pair. */
    method AccumulatePair(msg: MotorCntl, motor1: int, motor2: int, motor1Scale: real, motor2Scale: real, value: int)
      requires msg.Valid()
      requires 0 <= motor1 < NUM_MOTOR_CONTROLLERS && 0 <= motor2 < NUM_MOTOR_CONTROLLERS && motor1 != motor2
      modifies msg.motors, msg.mask
      ensures msg.Value() == WritePair(cfg.capValueProp, old(msg.Value()), motor1, motor2, motor1Scale, motor2Scale, value)
    {
      var motor1Val := msg.motors[motor1];
      var motor2Val := msg.motors[motor2];
      motor1Val := Trunc(motor1Val as real + motor1Scale * value as real);
      motor2Val := Trunc(motor2Val as real + motor2Scale * value as real);
      var capped := cfg.capValueProp(motor1Val, motor2Val, MotorLimit);
      motor1Val, motor2Val := capped.0, capped.1;

      msg.motors[motor1] := motor1Val;
      msg.motors[motor2] := motor2Val;
      msg.mask[motor1] := 1;
      msg.mask[motor2] := 1;
    }

    /**
     * One control tick at time `now`. The first tick only records the time;
     * later ticks reset the message, hold the cached command and allocate
     * speed, strafe, depth and yaw from it.
     */
    method PidStep(now: real)
      requires Valid()
      modifies this`desiredPose, this`lastPidUpdateTime, motorCntlMsg.motors, motorCntlMsg.mask
      ensures lastPidUpdateTime == At(now) && twistCache == old(twistCache)
      ensures old(lastPidUpdateTime) == Never ==>
        desiredPose == old(desiredPose) && motorCntlMsg.Value() == old(motorCntlMsg.Value())
      ensures old(lastPidUpdateTime) != Never ==>
        desiredPose == old(twistCache) && motorCntlMsg.Value() == TickValue(cfg, old(twistCache))
    {
      if lastPidUpdateTime != Never {
        ResetMotorCntlMsg();
        desiredPose := twistCache;

        var speedMotorVal := cfg.axisDir[AxisSpeed] * desiredPose.linear.x;
        var strafeMotorVal := cfg.axisDir[AxisStrafe] * desiredPose.linear.y;
        var depthMotorVal := cfg.axisDir[AxisDepth] * desiredPose.linear.z;
        var yawMotorVal := cfg.axisDir[AxisYaw] * desiredPose.angular.z;

        ghost var t := desiredPose;
        ghost var m0 := motorCntlMsg.Value();
        assert m0 == ZeroValue();
        assert Trunc(speedMotorVal) == AxisValue(cfg, AxisSpeed, t.linear.x);
        assert Trunc(strafeMotorVal) == AxisValue(cfg, AxisStrafe, t.linear.y);
        assert Trunc(depthMotorVal) == AxisValue(cfg, AxisDepth, t.linear.z);
        assert Trunc(yawMotorVal) == AxisValue(cfg, AxisYaw, t.angular.z);
        UpdateMotorCntlMsg(motorCntlMsg, AxisSpeed, Trunc(speedMotorVal));
        ghost var m1 := motorCntlMsg.Value();
        UpdateMotorCntlMsg(motorCntlMsg, AxisStrafe, Trunc(strafeMotorVal));
        ghost var m2 := motorCntlMsg.Value();
        UpdateMotorCntlMsg(motorCntlMsg, AxisDepth, Trunc(depthMotorVal));
        ghost var m3 := motorCntlMsg.Value();
        UpdateMotorCntlMsg(motorCntlMsg, AxisYaw, Trunc(yawMotorVal));
        TickValueSteps(cfg, t, m0, m1, m2, m3, motorCntlMsg.Value());
      }
      lastPidUpdateTime := At(now);
    }

    /** A tick followed by emitting the message; the emitted value is returned. */
    method SpinOnce(now: real) returns (published: MotorCntlValue)
      requires Valid()
      modifies this`desiredPose, this`lastPidUpdateTime, motorCntlMsg.motors, motorCntlMsg.mask
      ensures published == motorCntlMsg.Value()
      ensures lastPidUpdateTime == At(now) && twistCache == old(twistCache)
      ensures old(lastPidUpdateTime) == Never ==> published == old(motorCntlMsg.Value())
      ensures old(lastPidUpdateTime) != Never ==> published == TickValue(cfg, old(twistCache))
    {
      PidStep(now);
      published := motorCntlMsg.Value();
    }
  }
}
