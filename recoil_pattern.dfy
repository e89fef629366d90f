/**
 * The value side of the recoil engine.
 *
 * RecoilPatternTimeAccumulator measures how far the player is through the
 * recoil pattern. Each shot advances it by TimeBetweenShots. On each tick
 * with the fire key up it regresses by TimeBetweenShots squared. It is
 * clamped to [0, 3] both times.
 *
 * GetRecoilValueToAdd turns the accumulator into the rotation that one shot
 * adds. RecoveredTotal is what one recovery tick leaves of TotalRecoilAdded.
 */
module RecoilPattern {
  import opened EngineMath

  /** The upper clamp bound of RecoilPatternTimeAccumulator. */
  const AccumulatorMax: real := 3.0

  function MaxReal(a: real, b: real): real
  {
    if a >= b then a else b
  }

  function MinReal(a: real, b: real): real
  {
    if a <= b then a else b
  }

  /** The accumulator after OnFire fires a shot. */
  function AccumulatorAfterShot(acc: real, timeBetweenShots: real): (r: real)
    ensures 0.0 <= r <= AccumulatorMax
    ensures 0.0 <= acc <= AccumulatorMax && timeBetweenShots >= 0.0 ==> acc <= r
    ensures r == MinReal(AccumulatorMax, MaxReal(0.0, acc + timeBetweenShots))
  {
    Clamp(acc + timeBetweenShots, 0.0, AccumulatorMax)
  }

  /** The accumulator after one tick with the fire key up. */
  function AccumulatorAfterIdleTick(acc: real, timeBetweenShots: real): (r: real)
    ensures 0.0 <= r <= AccumulatorMax
    ensures 0.0 <= acc <= AccumulatorMax ==> r <= acc
    ensures 0.0 <= acc <= AccumulatorMax ==> r == MaxReal(0.0, acc - timeBetweenShots * timeBetweenShots)
  {
    Clamp(acc - timeBetweenShots * timeBetweenShots, 0.0, AccumulatorMax)
  }

  /**
   * UpdateRecoilPatternTimeAccumulator: the accumulator regresses only when
   * the weapon has an owner whose fire key is up. Otherwise it is frozen.
   * The tick's DeltaTime is not used.
   */
  function AccumulatorAfterTick(acc: real, timeBetweenShots: real, hasOwner: bool, fireKeyDown: bool): (r: real)
    ensures hasOwner && !fireKeyDown ==> r == AccumulatorAfterIdleTick(acc, timeBetweenShots)
    ensures !(hasOwner && !fireKeyDown) ==> r == acc
    ensures 0.0 <= acc <= AccumulatorMax ==> 0.0 <= r <= acc
  {
    if hasOwner && !fireKeyDown then AccumulatorAfterIdleTick(acc, timeBetweenShots) else acc
  }

  /** The accumulator after n shots with no tick in between. */
  function AfterShots(acc: real, timeBetweenShots: real, n: nat): real
  {
    if n == 0 then acc else AccumulatorAfterShot(AfterShots(acc, timeBetweenShots, n - 1), timeBetweenShots)
  }

  /** The accumulator after n ticks with the fire key up. */
  function AfterIdleTicks(acc: real, timeBetweenShots: real, n: nat): real
  {
    if n == 0 then acc else AccumulatorAfterIdleTick(AfterIdleTicks(acc, timeBetweenShots, n - 1), timeBetweenShots)
  }

  /** The distance n steps of the given length cover, added up step by step. */
  function Steps(step: real, n: nat): real
  {
    if n == 0 then 0.0 else Steps(step, n - 1) + step
  }

  /** Adding up n equal steps gives n times the step. */
  lemma {:induction false} StepsIsProduct(step: real, n: nat)
    ensures Steps(step, n) == (n as real) * step
  {
    if n > 0 {
      StepsIsProduct(step, n - 1);
      assert (n as real) * step == ((n - 1) as real) * step + step;
    }
  }

  /** The shots' advance, step by step: it stops at the bound. */
  lemma {:induction false} ShotsAdvanceBySteps(acc: real, timeBetweenShots: real, n: nat)
    requires 0.0 <= acc <= AccumulatorMax
    requires timeBetweenShots >= 0.0
    ensures Steps(timeBetweenShots, n) >= 0.0
    ensures AfterShots(acc, timeBetweenShots, n) == MinReal(AccumulatorMax, acc + Steps(timeBetweenShots, n))
  {
    if n > 0 {
      ShotsAdvanceBySteps(acc, timeBetweenShots, n - 1);
    }
  }

  /** The idle ticks' regress, step by step: it stops at zero. */
  lemma {:induction false} IdleTicksRegressBySteps(acc: real, timeBetweenShots: real, n: nat)
    requires 0.0 <= acc <= AccumulatorMax
    ensures Steps(timeBetweenShots * timeBetweenShots, n) >= 0.0
    ensures AfterIdleTicks(acc, timeBetweenShots, n)
         == MaxReal(0.0, acc - Steps(timeBetweenShots * timeBetweenShots, n))
  {
    if n > 0 {
      IdleTicksRegressBySteps(acc, timeBetweenShots, n - 1);
    }
  }

  /** Sustained fire advances the pattern linearly until it saturates at the bound. */
  lemma ShotsAdvancePattern(acc: real, timeBetweenShots: real, n: nat)
    requires 0.0 <= acc <= AccumulatorMax
    requires timeBetweenShots >= 0.0
    ensures AfterShots(acc, timeBetweenShots, n) == MinReal(AccumulatorMax, acc + (n as real) * timeBetweenShots)
  {
    ShotsAdvanceBySteps(acc, timeBetweenShots, n);
    StepsIsProduct(timeBetweenShots, n);
  }

  /** The idle ticks' regress, with the per-tick regress q named. */
  lemma IdleTicksRegressByProduct(acc: real, timeBetweenShots: real, n: nat, q: real)
    requires 0.0 <= acc <= AccumulatorMax
    requires q == timeBetweenShots * timeBetweenShots
    ensures AfterIdleTicks(acc, timeBetweenShots, n) == MaxReal(0.0, acc - (n as real) * q)
  {
    IdleTicksRegressBySteps(acc, timeBetweenShots, n);
    StepsIsProduct(q, n);
  }

  /** Idle ticks walk the pattern back linearly until it reaches its start. */
  lemma IdleTicksRegressPattern(acc: real, timeBetweenShots: real, n: nat)
    requires 0.0 <= acc <= AccumulatorMax
    ensures AfterIdleTicks(acc, timeBetweenShots, n)
         == MaxReal(0.0, acc - (n as real) * (timeBetweenShots * timeBetweenShots))
  {
    IdleTicksRegressByProduct(acc, timeBetweenShots, n, timeBetweenShots * timeBetweenShots);
  }

  /**
   * The position in the pattern as a fraction: the accumulator over the time
   * one magazine takes to empty. The code does not clamp it to [0, 1].
   */
  function PatternPercent(acc: real, magazineCapacity: nat, timeBetweenShots: real): (p: real)
    requires magazineCapacity > 0 && timeBetweenShots > 0.0
    ensures p * ((magazineCapacity as real) * timeBetweenShots) == acc
  {
    acc / ((magazineCapacity as real) * timeBetweenShots)
  }

  /**
   * On every accumulator the clamp allows, the percent lies between 0 and
   * the clamp bound over the time one magazine takes to empty.
   */
  lemma PatternPercentBounds(acc: real, magazineCapacity: nat, timeBetweenShots: real)
    requires magazineCapacity > 0 && timeBetweenShots > 0.0
    requires 0.0 <= acc <= AccumulatorMax
    ensures 0.0 <= PatternPercent(acc, magazineCapacity, timeBetweenShots)
                <= AccumulatorMax / ((magazineCapacity as real) * timeBetweenShots)
  {
    var span := (magazineCapacity as real) * timeBetweenShots;
    assert span > 0.0;
    assert PatternPercent(acc, magazineCapacity, timeBetweenShots) == acc / span;
    assert acc / span <= AccumulatorMax / span;
  }

  /**
   * The percent stays within [0, 1] for every accumulator the clamp allows
   * exactly when one magazine lasts at least as long as the clamp bound.
   */
  lemma PatternPercentWithinCurveIff(magazineCapacity: nat, timeBetweenShots: real)
    requires magazineCapacity > 0 && timeBetweenShots > 0.0
    ensures (forall acc :: 0.0 <= acc <= AccumulatorMax ==>
               0.0 <= PatternPercent(acc, magazineCapacity, timeBetweenShots) <= 1.0)
        <==> (magazineCapacity as real) * timeBetweenShots >= AccumulatorMax
  {
    var span := (magazineCapacity as real) * timeBetweenShots;
    assert span > 0.0;
    if span >= AccumulatorMax {
      forall acc | 0.0 <= acc <= AccumulatorMax
        ensures 0.0 <= PatternPercent(acc, magazineCapacity, timeBetweenShots) <= 1.0
      {
        PatternPercentBounds(acc, magazineCapacity, timeBetweenShots);
        assert AccumulatorMax / span <= 1.0;
      }
    } else {
      var top := PatternPercent(AccumulatorMax, magazineCapacity, timeBetweenShots);
      assert top * span == AccumulatorMax;
      assert top > 1.0;
    }
  }

  /**
   * A 20-round magazine at 0.1 s between shots empties in 2 s, but the clamp
   * lets the accumulator reach 3, where the percent is 1.5. A 30-round
   * magazine at 0.2 s never gets past half of the pattern.
   */
  lemma PatternPercentLeavesCurveExample()
    ensures PatternPercent(AccumulatorMax, 20, 0.1) == 1.5
    ensures PatternPercent(AccumulatorMax, 30, 0.2) == 0.5
  {
  }

  /**
   * With the default tuning (30 rounds, 0.1 s between shots) a magazine
   * emptied from the pattern's start takes the pattern exactly to its end.
   */
  lemma DefaultMagazineSpansPattern()
    ensures AfterShots(0.0, 0.1, 30) == AccumulatorMax
    ensures PatternPercent(AfterShots(0.0, 0.1, 30), 30, 0.1) == 1.0
  {
    ShotsAdvancePattern(0.0, 0.1, 30);
  }

  /**
   * GetRecoilValueToAdd: without a vector curve the shot adds no rotation.
   * With one, the curve's value (x, y) at the pattern percent becomes
   * pitch y and yaw x, with no roll.
   */
  function RecoilValueToAdd(curve: Option<real -> Vector>, acc: real, magazineCapacity: nat,
                            timeBetweenShots: real): (r: Rotator)
    requires magazineCapacity > 0 && timeBetweenShots > 0.0
    ensures curve.None? ==> r == ZeroRotator
    ensures curve.Some? ==>
      var sample := curve.value(PatternPercent(acc, magazineCapacity, timeBetweenShots));
      r.pitch == sample.y && r.yaw == sample.x && r.roll == 0.0
  {
    match curve
    case None => ZeroRotator
    case Some(f) =>
      var v := f(PatternPercent(acc, magazineCapacity, timeBetweenShots));
      Rotator(v.y, v.x, 0.0)
  }

  /**
   * What one RecoverRecoil tick leaves of TotalRecoilAdded, once
   * CheckIfRecoilFinishedCompensating has looked at it. A total the engine
   * calls zero is snapped to exactly zero. Otherwise, for a local controller,
   * the compensation that RInterpConstantTo picks is subtracted. A non-local
   * controller leaves the total as it is.
   */
  function RecoveredTotal(lib: EngineLibrary, total: Rotator, deltaTime: real, recoveryRate: real,
                          isLocalController: bool): (r: Rotator)
    ensures lib.isZero(total) ==> r == ZeroRotator
    ensures !lib.isZero(total) && isLocalController ==>
      r == Sub(total, lib.interpConstantTo(ZeroRotator, total, deltaTime, recoveryRate))
    ensures !lib.isZero(total) && !isLocalController ==> r == total
  {
    if lib.isZero(total) then ZeroRotator
    else if isLocalController then Sub(total, lib.interpConstantTo(ZeroRotator, total, deltaTime, recoveryRate))
    else total
  }

  /** TotalRecoilAdded after a run of ticks with the given delta times. */
  function AfterRecoveryTicks(lib: EngineLibrary, total: Rotator, deltaTimes: seq<real>, recoveryRate: real,
                              isLocalController: bool): Rotator
    decreases |deltaTimes|
  {
    if deltaTimes == [] then total
    else AfterRecoveryTicks(lib, RecoveredTotal(lib, total, deltaTimes[0], recoveryRate, isLocalController),
                            deltaTimes[1..], recoveryRate, isLocalController)
  }

  /**
   * Once the outstanding recoil is zero it stays exactly zero through any
   * number of further ticks: no drift and no sign flip.
   */
  lemma {:induction false} ZeroRecoilStaysZero(lib: EngineLibrary, deltaTimes: seq<real>, recoveryRate: real,
                                               isLocalController: bool)
    requires ValidLibrary(lib)
    ensures AfterRecoveryTicks(lib, ZeroRotator, deltaTimes, recoveryRate, isLocalController) == ZeroRotator
    decreases |deltaTimes|
  {
    if deltaTimes != [] {
      ZeroRecoilStaysZero(lib, deltaTimes[1..], recoveryRate, isLocalController);
    }
  }
}
