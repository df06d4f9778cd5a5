/** The lander simulation: a lander under gravity with three thrusters and a fuel
    tank, a landing pad, and a terrain line of `SEGMENTS_N + 1` points. One step
    moves the lander, then lets the pad and then the terrain decide whether it has
    landed or crashed.

    Floating-point values are reals. The speed test `sqrt(vx² + vy²) <= safe` is
    stated as `vx² + vy² <= safe²` for a non-negative `safe` (and as never passing
    for a negative one), which is what it means for the exact square root. The
    values raylib's `GetRandomValue` returns are inputs. */
module Simulation {
  import NetModel

  /** The simulation parameters; `DEFAULT_SIM_PARAMS` holds the defaults. */
  datatype SimParams = SimParams(
    screenWidth: real, screenHeight: real, gravity: real,
    verticalThrustPower: real, lateralThrustPower: real,
    landingSafeSpeed: real, groundLevel: real)

  const DEFAULT_SIM_PARAMS: SimParams := SimParams(800.0, 600.0, 0.05, 0.1, 0.08, 1.5, 30.0)

  datatype GameState = PLAYING | LANDED | CRASHED

  /** The fuel a thruster burns in one step. */
  const VERTICAL_FUEL_BURN: real := 0.5
  const LATERAL_FUEL_BURN: real := 0.3

  /** The initial fuel. */
  const FULL_TANK: real := 100.0

  /** Everything the lander carries, as one value. */
  datatype LanderState = LanderState(
    posX: real, posY: real, velX: real, velY: real, fuel: real,
    thrustUp: bool, thrustLeft: bool, thrustRight: bool, state: GameState)

  // ---------------------------------------------------------------------------
  // One lander step

  /** The thrusters fired in turn (up, left, right), each changing the velocity and
      burning its fuel; the caller only does this with fuel in the tank. */
  function Thrusters(sp: SimParams, s: LanderState): LanderState
  {
    var u := if s.thrustUp then s.(velY := s.velY - sp.verticalThrustPower, fuel := s.fuel - VERTICAL_FUEL_BURN) else s;
    var l := if u.thrustLeft then u.(velX := u.velX - sp.lateralThrustPower, fuel := u.fuel - LATERAL_FUEL_BURN) else u;
    if l.thrustRight then l.(velX := l.velX + sp.lateralThrustPower, fuel := l.fuel - LATERAL_FUEL_BURN) else l
  }

  /** `AnimLander` as a function of the lander before the step. */
  function AnimStep(sp: SimParams, s: LanderState): (r: LanderState)
    requires sp.screenWidth >= 0.0
    ensures s.state != PLAYING ==> r == s
    ensures s.state == PLAYING ==> r.fuel >= 0.0 && 0.0 <= r.posX <= sp.screenWidth && r.posY >= 0.0
    ensures r.state == s.state && r.thrustUp == s.thrustUp && r.thrustLeft == s.thrustLeft && r.thrustRight == s.thrustRight
  {
    if s.state != PLAYING then s
    else
      var g := s.(velY := s.velY + sp.gravity);
      var t := if g.fuel > 0.0 then Thrusters(sp, g) else g;
      var f := t.(fuel := if t.fuel < 0.0 then 0.0 else t.fuel);
      var m := f.(posX := f.posX + f.velX, posY := f.posY + f.velY);
      m.(posX := NetModel.Clamp(m.posX, 0.0, sp.screenWidth), posY := if m.posY < 0.0 then 0.0 else m.posY)
  }

  /** The change of velocity and fuel in a playing step, thruster by thruster:
      gravity always, a thruster's push and burn only with fuel in the tank, and
      the tank never below empty. */
  lemma AnimStepVelocityAndFuel(sp: SimParams, s: LanderState)
    requires sp.screenWidth >= 0.0 && s.state == PLAYING
    ensures var r := AnimStep(sp, s);
      var up := if s.fuel > 0.0 && s.thrustUp then 1.0 else 0.0;
      var left := if s.fuel > 0.0 && s.thrustLeft then 1.0 else 0.0;
      var right := if s.fuel > 0.0 && s.thrustRight then 1.0 else 0.0;
      var burnt := s.fuel - up * VERTICAL_FUEL_BURN - (left + right) * LATERAL_FUEL_BURN;
      && r.velY == s.velY + sp.gravity - up * sp.verticalThrustPower
      && r.velX == s.velX + (right - left) * sp.lateralThrustPower
      && r.fuel == (if burnt < 0.0 then 0.0 else burnt)
  {
  }

  /** Without fuel no thruster acts: the lander only falls, and the tank reads
      empty. */
  lemma NoFuelNoThrust(sp: SimParams, s: LanderState)
    requires sp.screenWidth >= 0.0 && s.state == PLAYING && s.fuel <= 0.0
    ensures AnimStep(sp, s).velX == s.velX
    ensures AnimStep(sp, s).velY == s.velY + sp.gravity
    ensures AnimStep(sp, s).fuel == 0.0
  {
  }

  // ---------------------------------------------------------------------------
  // Landing pad and terrain verdicts

  /** The lander is over the pad: at or below the pad's height and within half a
      pad width of its centre. */
  predicate InPadArea(padX: real, padY: real, padWidth: real, s: LanderState)
  {
    s.posY >= padY && s.posX >= padX - padWidth / 2.0 && s.posX <= padX + padWidth / 2.0
  }

  /** `CalcSpeed() <= LANDING_SAFE_SPEED` for the exact square root. */
  predicate SafeSpeed(sp: SimParams, s: LanderState)
  {
    sp.landingSafeSpeed >= 0.0 && s.velX * s.velX + s.velY * s.velY <= sp.landingSafeSpeed * sp.landingSafeSpeed
  }

  /** `CheckPadLanding` as a function: over the pad the lander lands when slow
      enough and crashes otherwise, whatever its state; elsewhere nothing changes. */
  function PadVerdict(sp: SimParams, padX: real, padY: real, padWidth: real, s: LanderState): (r: LanderState)
    ensures r == s.(state := r.state)
    ensures InPadArea(padX, padY, padWidth, s) ==> r.state == (if SafeSpeed(sp, s) then LANDED else CRASHED)
    ensures !InPadArea(padX, padY, padWidth, s) ==> r == s
  {
    if InPadArea(padX, padY, padWidth, s) then s.(state := if SafeSpeed(sp, s) then LANDED else CRASHED)
    else s
  }

  /** `CheckTerrainCollision` as a function: only a playing lander at or below the
      ground crashes; nothing else changes. */
  function TerrainVerdict(groundY: real, s: LanderState): (r: LanderState)
    ensures r == s.(state := r.state)
    ensures r.state != s.state <==> s.state == PLAYING && s.posY >= groundY
    ensures r.state != s.state ==> r.state == CRASHED
  {
    if s.state != PLAYING then s
    else if s.posY >= groundY then s.(state := CRASHED)
    else s
  }

  /** `AnimateSim` as a function: a playing lander moved, then judged by the pad,
      then by the terrain. */
  function SimStep(sp: SimParams, padX: real, padY: real, padWidth: real, groundY: real, s: LanderState): LanderState
    requires sp.screenWidth >= 0.0
  {
    if s.state != PLAYING then s
    else TerrainVerdict(groundY, PadVerdict(sp, padX, padY, padWidth, AnimStep(sp, s)))
  }

  /** The outcome of a playing step: landed or crashed on the pad when the moved
      lander is over it (the terrain never overrides that verdict), crashed on the
      ground when it is not but has reached the ground, still playing otherwise. */
  lemma SimStepOutcome(sp: SimParams, padX: real, padY: real, padWidth: real, groundY: real, s: LanderState)
    requires sp.screenWidth >= 0.0 && s.state == PLAYING
    ensures var a := AnimStep(sp, s);
      var r := SimStep(sp, padX, padY, padWidth, groundY, s);
      && r == a.(state := r.state)
      && (InPadArea(padX, padY, padWidth, a) ==> r.state == (if SafeSpeed(sp, a) then LANDED else CRASHED))
      && (!InPadArea(padX, padY, padWidth, a) && a.posY >= groundY ==> r.state == CRASHED)
      && (!InPadArea(padX, padY, padWidth, a) && a.posY < groundY ==> r.state == PLAYING)
  {
  }

  /** The state after `n` steps. */
  function SimRun(sp: SimParams, padX: real, padY: real, padWidth: real, groundY: real, s: LanderState, n: nat): LanderState
    requires sp.screenWidth >= 0.0
    decreases n
  {
    if n == 0 then s else SimRun(sp, padX, padY, padWidth, groundY, SimStep(sp, padX, padY, padWidth, groundY, s), n - 1)
  }

  /** Landed and crashed are final: once the lander is in either, no number of steps
      changes anything about it. */
  lemma {:induction false} FinalStatesAbsorb(sp: SimParams, padX: real, padY: real, padWidth: real, groundY: real,
                                             s: LanderState, n: nat)
    requires sp.screenWidth >= 0.0 && s.state != PLAYING
    ensures SimRun(sp, padX, padY, padWidth, groundY, s, n) == s
  {
    if n > 0 {
      FinalStatesAbsorb(sp, padX, padY, padWidth, groundY, SimStep(sp, padX, padY, padWidth, groundY, s), n - 1);
    }
  }

  /** A run never goes back to playing: if it is playing after `n` steps, it was
      playing at every step before. */
  lemma {:induction false} PlayingRunsArePlayingThroughout(sp: SimParams, padX: real, padY: real, padWidth: real,
                                                          groundY: real, s: LanderState, n: nat, m: nat)
    requires sp.screenWidth >= 0.0 && m <= n
    requires SimRun(sp, padX, padY, padWidth, groundY, s, n).state == PLAYING
    ensures SimRun(sp, padX, padY, padWidth, groundY, s, m).state == PLAYING
    decreases m
  {
    if s.state != PLAYING {
      FinalStatesAbsorb(sp, padX, padY, padWidth, groundY, s, n);
    } else if m > 0 {
      PlayingRunsArePlayingThroughout(sp, padX, padY, padWidth, groundY,
        SimStep(sp, padX, padY, padWidth, groundY, s), n - 1, m - 1);
    }
  }

  // ---------------------------------------------------------------------------
  // Terrain layout

  /** The number of terrain segments; the terrain has one more point. */
  const SEGMENTS_N: nat := 10

  datatype Point = Point(x: real, y: real)

  function SegmentWidth(sp: SimParams): real
  {
    sp.screenWidth / SEGMENTS_N as real
  }

  /** Point `i` lies within one segment of the pad's edges. */
  predicate IsLandingPadArea(sp: SimParams, padX: real, padWidth: real, i: nat)
  {
    var x := i as real * SegmentWidth(sp);
    x >= padX - padWidth / 2.0 - SegmentWidth(sp) && x <= padX + padWidth / 2.0 + SegmentWidth(sp)
  }

  /** How many points before `i` lie outside the pad area: each of those took one
      random offset. */
  function DrawsBefore(sp: SimParams, padX: real, padWidth: real, i: nat): (k: nat)
    ensures k <= i
  {
    if i == 0 then 0
    else DrawsBefore(sp, padX, padWidth, i - 1) + (if IsLandingPadArea(sp, padX, padWidth, i - 1) then 0 else 1)
  }

  /** Point `i` of the terrain: evenly spaced, at the pad's height in the pad area,
      otherwise at the ground plus the next random offset. */
  function TerrainPoint(sp: SimParams, padX: real, padY: real, padWidth: real, offsets: nat -> int, i: nat): Point
  {
    Point(i as real * SegmentWidth(sp),
          if IsLandingPadArea(sp, padX, padWidth, i) then padY
          else sp.screenHeight - sp.groundLevel + offsets(DrawsBefore(sp, padX, padWidth, i)) as real)
  }

  /** With every offset in `[-10, 10]`, as `GetRandomValue(-10, 10)` gives, the pad
      area is flat at the pad's height and the rest lies within 10 of the ground. */
  lemma TerrainHeights(sp: SimParams, padX: real, padY: real, padWidth: real, offsets: nat -> int, i: nat)
    requires forall k :: -10 <= offsets(k) <= 10
    ensures var p := TerrainPoint(sp, padX, padY, padWidth, offsets, i);
      var ground := sp.screenHeight - sp.groundLevel;
      && (IsLandingPadArea(sp, padX, padWidth, i) ==> p.y == padY)
      && (!IsLandingPadArea(sp, padX, padWidth, i) ==> ground - 10.0 <= p.y <= ground + 10.0)
  {
    var k := DrawsBefore(sp, padX, padWidth, i);
    assert -10 <= offsets(k) <= 10;
  }

  /** Points outside the pad area take consecutive offsets, none used twice. */
  lemma {:induction false} OffsetsUsedOnce(sp: SimParams, padX: real, padWidth: real, i: nat, j: nat)
    requires i < j
    requires !IsLandingPadArea(sp, padX, padWidth, i)
    ensures DrawsBefore(sp, padX, padWidth, i) < DrawsBefore(sp, padX, padWidth, j)
    decreases j
  {
    if i < j - 1 {
      OffsetsUsedOnce(sp, padX, padWidth, i, j - 1);
    }
  }

  // ---------------------------------------------------------------------------
  // The simulation objects

  class Lander {
    const sp: SimParams
    var mPosX: real
    var mPosY: real
    var mVelX: real
    var mVelY: real
    var mFuel: real
    var mIsThrustUpActive: bool
    var mIsThrustLeftActive: bool
    var mIsThrustRightActive: bool
    var state: GameState

    /** The lander's fields as one value. */
    function Snapshot(): LanderState
      reads this
    {
      LanderState(mPosX, mPosY, mVelX, mVelY, mFuel, mIsThrustUpActive, mIsThrustLeftActive, mIsThrustRightActive, state)
    }

    /** A new lander at `(x, y)`: at rest, a full tank, no thruster firing, playing. */
    constructor (sp: SimParams, x: real, y: real)
      ensures this.sp == sp
      ensures Snapshot() == LanderState(x, y, 0.0, 0.0, FULL_TANK, false, false, false, PLAYING)
    {
      this.sp := sp;
      mPosX, mPosY := x, y;
      mVelX, mVelY := 0.0, 0.0;
      mFuel := FULL_TANK;
      mIsThrustUpActive, mIsThrustLeftActive, mIsThrustRightActive := false, false, false;
      state := PLAYING;
    }

    /** `AnimLander`: one step of gravity, thrust, fuel and motion, kept on screen;
        nothing happens unless the lander is playing. */
    method AnimLander()
      requires sp.screenWidth >= 0.0
      modifies this
      ensures Snapshot() == AnimStep(sp, old(Snapshot()))
    {
      if state != PLAYING {
        return;
      }
      mVelY := mVelY + sp.gravity;
      if mFuel > 0.0 {
        FireThrusters();
      }
      if mFuel < 0.0 {
        mFuel := 0.0;
      }
      mPosX := mPosX + mVelX;
      mPosY := mPosY + mVelY;
      mPosX := NetModel.Clamp(mPosX, 0.0, sp.screenWidth);
      if mPosY < 0.0 {
        mPosY := 0.0;
      }
    }

    /** The thrust block of `AnimLander`: each active thruster pushes and burns its
        fuel, up first, then left, then right. */
    method FireThrusters()
      modifies this
      ensures Snapshot() == Thrusters(sp, old(Snapshot()))
    {
      if mIsThrustUpActive {
        mVelY := mVelY - sp.verticalThrustPower;
        mFuel := mFuel - VERTICAL_FUEL_BURN;
      }
      if mIsThrustLeftActive {
        mVelX := mVelX - sp.lateralThrustPower;
        mFuel := mFuel - LATERAL_FUEL_BURN;
      }
      if mIsThrustRightActive {
        mVelX := mVelX + sp.lateralThrustPower;
        mFuel := mFuel - LATERAL_FUEL_BURN;
      }
    }

    /** The square of `CalcSpeed`. */
    function SpeedSquared(): (v: real)
      reads this
      ensures v >= 0.0
    {
      mVelX * mVelX + mVelY * mVelY
    }
  }

  class LandingPad {
    const sp: SimParams
    const mPosX: real
    const mPosY: real
    const mPadWidth: real

    /** A pad 100 wide, its centre at the random `x`, its top at the ground level
        below the top of the screen. */
    constructor (sp: SimParams, x: int)
      ensures this.sp == sp && mPadWidth == 100.0
      ensures mPosX == x as real && mPosY == sp.screenHeight - sp.groundLevel
    {
      this.sp := sp;
      mPadWidth := 100.0;
      mPosX := x as real;
      mPosY := sp.screenHeight - sp.groundLevel;
    }

    /** `CheckPadLanding`: whether the lander is over the pad, and if so its state
        set to landed or crashed by its speed. */
    method CheckPadLanding(lander: Lander) returns (done: bool)
      modifies lander
      ensures done == InPadArea(mPosX, mPosY, mPadWidth, old(lander.Snapshot()))
      ensures lander.Snapshot() == PadVerdict(sp, mPosX, mPosY, mPadWidth, old(lander.Snapshot()))
    {
      var landerX := lander.mPosX;
      var landerY := lander.mPosY;
      if landerY >= mPosY && landerX >= mPosX - mPadWidth / 2.0 && landerX <= mPosX + mPadWidth / 2.0 {
        var safe := sp.landingSafeSpeed;
        if safe >= 0.0 && lander.SpeedSquared() <= safe * safe {
          lander.state := LANDED;
        } else {
          lander.state := CRASHED;
        }
        return true;
      }
      return false;
    }
  }

  class Terrain {
    const sp: SimParams
    const mPoints: array<Point>
    const mGroundY: real

    /** The terrain for `pad`: the ground level, and the points laid out by
        `LayOutPoints` from the random offsets `offsets(0), offsets(1), …`. */
    constructor (sp: SimParams, pad: LandingPad, offsets: nat -> int)
      ensures this.sp == sp && mGroundY == sp.screenHeight - sp.groundLevel
      ensures fresh(mPoints) && mPoints.Length == SEGMENTS_N + 1
      ensures forall i :: 0 <= i < mPoints.Length ==>
                mPoints[i] == TerrainPoint(sp, pad.mPosX, pad.mPosY, pad.mPadWidth, offsets, i)
    {
      this.sp := sp;
      mGroundY := sp.screenHeight - sp.groundLevel;
      var points := Terrain.LayOutPoints(sp, pad.mPosX, pad.mPosY, pad.mPadWidth, offsets);
      mPoints := points;
    }

    /** The constructor's loop: point `i` at `i` segment widths, flat at the pad's
        height near the pad, elsewhere at the ground plus the next offset drawn. */
    static method LayOutPoints(sp: SimParams, padX: real, padY: real, padWidth: real, offsets: nat -> int)
      returns (points: array<Point>)
      ensures fresh(points) && points.Length == SEGMENTS_N + 1
      ensures forall i :: 0 <= i < points.Length ==> points[i] == TerrainPoint(sp, padX, padY, padWidth, offsets, i)
    {
      var groundY := sp.screenHeight - sp.groundLevel;
      var segmentWidth := sp.screenWidth / SEGMENTS_N as real;
      points := new Point[SEGMENTS_N + 1];
      var draws: nat := 0;
      for i := 0 to SEGMENTS_N + 1
        invariant draws == DrawsBefore(sp, padX, padWidth, i)
        invariant forall j :: 0 <= j < i ==> points[j] == TerrainPoint(sp, padX, padY, padWidth, offsets, j)
      {
        var x := i as real * segmentWidth;
        var padLeftX := padX - padWidth / 2.0;
        var padRightX := padX + padWidth / 2.0;
        var isLandingPadArea := x >= padLeftX - segmentWidth && x <= padRightX + segmentWidth;
        assert segmentWidth == SegmentWidth(sp);
        assert isLandingPadArea == IsLandingPadArea(sp, padX, padWidth, i);
        ghost var expected := TerrainPoint(sp, padX, padY, padWidth, offsets, i);
        if isLandingPadArea {
          points[i] := Point(x, padY);
        } else {
          points[i] := Point(x, groundY + offsets(draws) as real);
          draws := draws + 1;
        }
        assert points[i] == expected;
      }
    }

    /** `CheckTerrainCollision`: a playing lander at or below the ground crashes. */
    method CheckTerrainCollision(lander: Lander) returns (hit: bool)
      modifies lander
      ensures hit == (old(lander.state) == PLAYING && old(lander.mPosY) >= mGroundY)
      ensures lander.Snapshot() == TerrainVerdict(mGroundY, old(lander.Snapshot()))
    {
      if lander.state != PLAYING {
        return false;
      }
      if lander.mPosY >= mGroundY {
        lander.state := CRASHED;
        return true;
      }
      return false;
    }
  }

  class Sim {
    const sp: SimParams
    const mLander: Lander
    const landingPad: LandingPad
    const terrain: Terrain

    /** The lander, the pad and the terrain share the simulation's parameters. */
    predicate Valid()
    {
      mLander.sp == sp && landingPad.sp == sp && terrain.sp == sp && sp.screenWidth >= 0.0
    }

    /** A new simulation: the lander playing at the middle of the screen, a quarter
        down from the top; the pad centred at `padX`; the terrain laid out from
        `offsets`. */
    constructor (sp: SimParams, padX: int, offsets: nat -> int)
      requires sp.screenWidth >= 0.0
      ensures Valid() && this.sp == sp
      ensures mLander.Snapshot() ==
                LanderState(sp.screenWidth / 2.0, sp.screenHeight / 4.0, 0.0, 0.0, FULL_TANK, false, false, false, PLAYING)
      ensures landingPad.mPosX == padX as real && landingPad.mPosY == sp.screenHeight - sp.groundLevel
      ensures terrain.mGroundY == sp.screenHeight - sp.groundLevel
      ensures forall i :: 0 <= i < terrain.mPoints.Length ==>
                terrain.mPoints[i] == TerrainPoint(sp, landingPad.mPosX, landingPad.mPosY, landingPad.mPadWidth, offsets, i)
    {
      this.sp := sp;
      mLander := new Lander(sp, sp.screenWidth / 2.0, sp.screenHeight / 4.0);
      var pad := new LandingPad(sp, padX);
      landingPad := pad;
      terrain := new Terrain(sp, pad, offsets);
    }

    /** `AnimateSim`: for a playing lander one step of motion, then the pad check,
        then the terrain check; a landed or crashed lander stays as it is. */
    method AnimateSim()
      requires Valid()
      modifies mLander
      ensures mLander.Snapshot() ==
                SimStep(sp, landingPad.mPosX, landingPad.mPosY, landingPad.mPadWidth, terrain.mGroundY, old(mLander.Snapshot()))
    {
      if mLander.state != PLAYING {
        return;
      }
      mLander.AnimLander();
      var onPad := landingPad.CheckPadLanding(mLander);
      var hit := terrain.CheckTerrainCollision(mLander);
    }
  }
}
