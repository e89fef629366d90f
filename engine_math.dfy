/**
 * The small part of the engine's math library that the weapon code uses:
 * rotators (pitch, yaw, roll) with componentwise arithmetic, vectors,
 * FMath::Clamp, FMath::Abs and FMath::IsNearlyEqual. Single-precision
 * floats are modelled as reals.
 *
 * Library routines whose exact behaviour is not part of this model
 * (FRotator::IsZero with its axis normalisation, FMath::RInterpConstantTo)
 * are supplied as function values in an EngineLibrary record.
 */
module EngineMath {

  /** A nullable engine object reference (an unset UPROPERTY pointer is None). */
  datatype Option<T> = None | Some(value: T)

  /** FRotator: a rotation given as pitch, yaw and roll, in degrees. */
  datatype Rotator = Rotator(pitch: real, yaw: real, roll: real)

  /** FVector: a point or direction in world space. */
  datatype Vector = Vector(x: real, y: real, z: real)

  /** FRotator(0.f, 0.f, 0.f). */
  const ZeroRotator := Rotator(0.0, 0.0, 0.0)

  /** FRotator::operator+ */
  function Add(a: Rotator, b: Rotator): (r: Rotator)
    ensures Sub(r, b) == a
  {
    Rotator(a.pitch + b.pitch, a.yaw + b.yaw, a.roll + b.roll)
  }

  /** FRotator::operator- */
  function Sub(a: Rotator, b: Rotator): (r: Rotator)
    ensures r.pitch == a.pitch - b.pitch && r.yaw == a.yaw - b.yaw && r.roll == a.roll - b.roll
  {
    Rotator(a.pitch - b.pitch, a.yaw - b.yaw, a.roll - b.roll)
  }

  /** Adding the same rotation to two rotators keeps their difference. */
  lemma AddKeepsDifference(a: Rotator, b: Rotator, v: Rotator)
    ensures Sub(Add(a, v), Add(b, v)) == Sub(a, b)
  {
  }

  /** Subtracting the same rotation from two rotators keeps their difference. */
  lemma SubKeepsDifference(a: Rotator, b: Rotator, v: Rotator)
    ensures Sub(Sub(a, v), Sub(b, v)) == Sub(a, b)
  {
  }

  function Abs(x: real): (r: real)
    ensures r >= 0.0 && (r == x || r == -x)
  {
    if x < 0.0 then -x else x
  }

  /** FMath::Clamp(x, lo, hi) for lo <= hi. */
  function Clamp(x: real, lo: real, hi: real): (r: real)
    requires lo <= hi
    ensures lo <= r <= hi
    ensures lo <= x <= hi ==> r == x
    ensures x < lo ==> r == lo
    ensures hi < x ==> r == hi
  {
    if x < lo then lo else if hi < x then hi else x
  }

  /** FMath::IsNearlyEqual(a, b, tolerance): |a - b| <= tolerance. */
  predicate IsNearlyEqual(a: real, b: real, tolerance: real)
  {
    Abs(a - b) <= tolerance
  }

  /** IsNearlyEqual is the closed band [b - tolerance, b + tolerance]. */
  lemma IsNearlyEqualBand(a: real, b: real, tolerance: real)
    ensures IsNearlyEqual(a, b, tolerance) <==> b - tolerance <= a <= b + tolerance
  {
  }

  /**
   * Engine routines the weapon calls but whose definitions are outside the
   * model: FRotator::IsZero and FMath::RInterpConstantTo(current, target,
   * deltaTime, interpSpeed).
   */
  datatype EngineLibrary = EngineLibrary(
    isZero: Rotator -> bool,
    interpConstantTo: (Rotator, Rotator, real, real) -> Rotator)

  /** What the weapon relies on: the zero rotator is recognised as zero. */
  predicate ValidLibrary(lib: EngineLibrary)
  {
    lib.isZero(ZeroRotator)
  }
}
