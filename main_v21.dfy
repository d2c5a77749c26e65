/** `src/main-v21.js`: the camera boundary of the fly controls, the camera
    placement around the bounding box of the wallet clouds, and that entry
    point's jetpack copy. */
module MainV21 {
  import opened JsNumber
  import opened Geometry
  import opened Jetpack

  const MaxDistance: real := 50000.0
  const ResetDistance: real := 30000.0
  /** Frames between two boundary checks */
  const CheckInterval: nat := 30

  datatype ControlType = Fly | Orbit

  /** `checkCameraBoundary`: only the fly controls are checked, and the
      camera is reset once it is farther than the reset distance from the
      centre of the wallet clouds. */
  predicate CheckCameraBoundary(controlType: ControlType, camera: Vec3, boxCenter: Vec3)
  {
    controlType == Fly && DistanceSquared(camera, boxCenter) > ResetDistance * ResetDistance
  }

  function Max(a: real, b: real): real { if a >= b then a else b }
  function Min(a: real, b: real): real { if a <= b then a else b }

  /** The largest side of the bounding box, each side counted as at least 1 */
  function MaxDim(boxSize: Vec3): (m: real)
    ensures m >= 1.0 && m >= boxSize.x && m >= boxSize.y && m >= boxSize.z
    ensures m == Max(1.0, boxSize.x) || m == Max(1.0, boxSize.y) || m == Max(1.0, boxSize.z)
  {
    Max(Max(Max(1.0, boxSize.x), Max(1.0, boxSize.y)), Max(1.0, boxSize.z))
  }

  /** How far in front of the box centre the camera is placed: 2.2 times the
      largest side, but at least 5000 and at most half the maximum distance */
  function CameraDistance(boxSize: Vec3): (d: real)
    ensures 5000.0 <= d <= MaxDistance * 0.5
    ensures 5000.0 <= MaxDim(boxSize) * 2.2 <= MaxDistance * 0.5 ==> d == MaxDim(boxSize) * 2.2
  {
    Min(MaxDistance * 0.5, Max(5000.0, MaxDim(boxSize) * 2.2))
  }

  /** Where the camera starts, and where every reset puts it back */
  function InitialCameraPosition(boxCenter: Vec3, boxSize: Vec3): Vec3
  {
    Vec3(boxCenter.x, boxCenter.y + Min(MaxDim(boxSize) * 0.3, 500.0), boxCenter.z + CameraDistance(boxSize))
  }

  lemma SquareMonotone(a: real, b: real)
    requires 0.0 <= a <= b
    ensures a * a <= b * b
  {
    assert a * a <= a * b <= b * b;
  }

  /** A reset never lands outside the boundary, so the check cannot fire
      again on the position it resets to: the start lies within
      sqrt(500^2 + 25000^2) < 30000 of the centre. */
  lemma ResetPositionInsideBoundary(boxCenter: Vec3, boxSize: Vec3)
    ensures !CheckCameraBoundary(Fly, InitialCameraPosition(boxCenter, boxSize), boxCenter)
  {
    var p := InitialCameraPosition(boxCenter, boxSize);
    var dy := Min(MaxDim(boxSize) * 0.3, 500.0);
    var dz := CameraDistance(boxSize);
    assert p == Vec3(boxCenter.x + 0.0, boxCenter.y + dy, boxCenter.z + dz);
    DistanceOfOffset(boxCenter, 0.0, dy, dz);
    SquareMonotone(dy, 500.0);
    SquareMonotone(dz, 25000.0);
  }

  lemma SquareStrict(a: real, b: real)
    requires 0.0 <= a < b
    ensures a * a < b * b
  {
    var d := b - a;
    assert b * b == (a + d) * (a + d) == a * a + 2.0 * a * d + d * d;
    assert d * d > 0.0;
    assert a * d >= 0.0;
  }

  /** Along one axis the check fires exactly beyond 30000 units either way,
      and never under the orbit controls. */
  lemma BoundaryAlongAxis(boxCenter: Vec3, d: real)
    ensures !CheckCameraBoundary(Orbit, Vec3(boxCenter.x + d, boxCenter.y, boxCenter.z), boxCenter)
    ensures CheckCameraBoundary(Fly, Vec3(boxCenter.x + d, boxCenter.y, boxCenter.z), boxCenter)
      <==> d > ResetDistance || d < -ResetDistance
  {
    var p := Vec3(boxCenter.x + d, boxCenter.y + 0.0, boxCenter.z + 0.0);
    assert p == Vec3(boxCenter.x + d, boxCenter.y, boxCenter.z);
    DistanceOfOffset(boxCenter, d, 0.0, 0.0);
    var m := if d >= 0.0 then d else -d;
    assert m * m == d * d;
    if m > ResetDistance {
      SquareStrict(ResetDistance, m);
    } else {
      SquareMonotone(m, ResetDistance);
    }
  }

  /** The jetpack copy: re-enables at the reactivation level or above and sets
      the speed to 300, boosted while active */
  const V21Jetpack: JetpackConfig := StandardConfig(AtThreshold, Some(300.0))
  const V21InitialSpeed: real := 300.0

  /** This copy's step: fuel stays within the 250-unit tank, the speed is
      750 (300 boosted 2.5 times) while boosting and 300 otherwise, and a
      disabled jetpack comes back once refilled to 25 units or more. */
  lemma V21JetpackStep(s: JetpackState, shiftKeyPressed: bool, delta: real)
    requires Inv(V21Jetpack, s) && delta >= 0.0
    ensures var t := Next(V21Jetpack, s, shiftKeyPressed, delta);
      Inv(V21Jetpack, t) && 0.0 <= t.fuel <= 250.0 &&
      t.movementSpeed == (if t.active then 750.0 else 300.0) &&
      (!s.enabled ==> (t.enabled <==> t.fuel >= 25.0))
  {
    NextInv(V21Jetpack, s, shiftKeyPressed, delta);
    SpeedRule(V21Jetpack, s, shiftKeyPressed, delta);
    if !s.enabled {
      ReenableRule(V21Jetpack, s, shiftKeyPressed, delta);
    }
  }

  /** The meter bands, cut from the top: above 60 %, above 30 %, the rest */
  const V21FuelBands: BandRule := FromTop(60.0, 30.0)
  const V21FuelPalette: Palette := Palette("#cc2222", "#cccc22", "#22cc22")

  /** The meter is green on a full tank and red on an empty one. */
  lemma V21MeterEnds()
    ensures MeterColour(V21Jetpack, V21FuelBands, V21FuelPalette, V21Jetpack.maxFuel) == "#22cc22"
    ensures MeterColour(V21Jetpack, V21FuelBands, V21FuelPalette, 0.0) == "#cc2222"
  {
    BandExtremes(V21FuelBands);
  }
}
