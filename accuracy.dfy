/**
 * The accuracy model, AFPSWeapon::GetVectorAdjustedForSpread. The random cone
 * sample (FMath::VRandCone) and the velocity lookup are engine calls, so they
 * come in as a sampling function and as the owner's speed (None when the
 * weapon has no owner).
 */
module Accuracy {
  import opened EngineMath

  /**
   * The cone half-angle in radians: the first-shot base spread, plus the
   * movement penalty when there is an owner. The code does not clamp it.
   */
  function EffectiveSpread(firstShotBaseSpread: real, movementSpreadPenalty: real,
                           ownerSpeed: Option<real>): (s: real)
    ensures ownerSpeed.None? ==> s == firstShotBaseSpread
    ensures ownerSpeed.Some? ==> s - firstShotBaseSpread == ownerSpeed.value * movementSpreadPenalty
  {
    match ownerSpeed
    case None => firstShotBaseSpread
    case Some(speed) => firstShotBaseSpread + speed * movementSpreadPenalty
  }

  /**
   * The fire direction. With the no-spread cheat on it is the input direction
   * itself. Otherwise it is the cone sample around the input direction, with
   * the effective spread as the half-angle.
   */
  function AdjustedForSpread(direction: Vector, weaponHasNoSpread: bool, firstShotBaseSpread: real,
                             movementSpreadPenalty: real, ownerSpeed: Option<real>,
                             randCone: (Vector, real) -> Vector): (r: Vector)
    ensures weaponHasNoSpread ==> r == direction
    ensures !weaponHasNoSpread ==>
      r == randCone(direction, EffectiveSpread(firstShotBaseSpread, movementSpreadPenalty, ownerSpeed))
  {
    if weaponHasNoSpread then direction
    else randCone(direction, EffectiveSpread(firstShotBaseSpread, movementSpreadPenalty, ownerSpeed))
  }

  /** With a non-negative penalty, moving faster never narrows the cone. */
  lemma SpreadGrowsWithSpeed(firstShotBaseSpread: real, movementSpreadPenalty: real, slower: real, faster: real)
    requires movementSpreadPenalty >= 0.0
    requires slower <= faster
    ensures EffectiveSpread(firstShotBaseSpread, movementSpreadPenalty, Some(slower))
         <= EffectiveSpread(firstShotBaseSpread, movementSpreadPenalty, Some(faster))
  {
    var gap := faster - slower;
    assert gap * movementSpreadPenalty >= 0.0;
    assert faster * movementSpreadPenalty == slower * movementSpreadPenalty + gap * movementSpreadPenalty;
  }

  /** A stationary owner gets exactly the first-shot base spread. */
  lemma StationarySpreadIsBase(firstShotBaseSpread: real, movementSpreadPenalty: real)
    ensures EffectiveSpread(firstShotBaseSpread, movementSpreadPenalty, Some(0.0)) == firstShotBaseSpread
  {
  }
}
