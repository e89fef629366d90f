/**
 * The objects of the firing core: the player controller whose control
 * rotation recoil moves, the weapon (AFPSWeapon), and the input-edge layer of
 * the character that wields it (AFPSCharacter).
 *
 * Weapon and Character refer to each other (OwningPlayer, EquippedWeapon),
 * so they share one module. Engine services enter as parameters: the game
 * time `now`, the tick's delta time, the EngineLibrary routines and the
 * random cone sampler. Sound, particles, the montage and the hitscan trace
 * are no-op stubs.
 */
module Actors {
  import opened EngineMath
  import opened AmmoLedger
  import opened RateOfFire
  import opened RecoilPattern
  import opened Accuracy
  import opened FireControl

  /** EWeaponType: two weapon types and the _MAX sentinel. */
  datatype WeaponType = Rifle | Pistol | WeaponTypeMax

  /**
   * EWeaponFiringMode: two real modes and the _MAX sentinel. The firing code
   * never reads it, so semi-automatic weapons fire like automatic ones.
   */
  datatype FiringMode = SemiAuto | FullAuto | FiringModeMax

  /** The tuning a weapon is built with; the engine fixes it per weapon instance. */
  datatype Tuning = Tuning(
    weaponType: WeaponType,
    firingMode: FiringMode,
    baseDamage: real,
    magazineCapacity: uint8,
    timeBetweenShots: real,
    startingNumRoundsTotal: uint8,
    unlimitedAmmo: bool,
    recoilRecoveryRate: real,
    rateOfFireForgiveness: real,
    firstShotBaseSpread: real,
    movementSpreadPenalty: real,
    weaponHasNoSpread: bool,
    recoilPatternCurve: Option<real -> Vector>)

  /** The defaults AFPSWeapon's constructor assigns; no recoil curve is set. */
  const DefaultTuning := Tuning(
    weaponType := Rifle, firingMode := FullAuto, baseDamage := 25.0,
    magazineCapacity := 30, timeBetweenShots := 0.1, startingNumRoundsTotal := 120,
    unlimitedAmmo := true, recoilRecoveryRate := 20.0, rateOfFireForgiveness := 0.0001,
    firstShotBaseSpread := 0.005, movementSpreadPenalty := 0.00025, weaponHasNoSpread := true,
    recoilPatternCurve := None)

  /** What the model needs of a tuning: a non-empty magazine and a positive fire period. */
  predicate ValidTuning(t: Tuning)
  {
    t.magazineCapacity > 0 && t.timeBetweenShots > 0.0
  }

  /** The default tuning is valid and its starting rounds fill the magazine. */
  lemma DefaultTuningIsValid()
    ensures ValidTuning(DefaultTuning)
    ensures Consistent(Ammo(DefaultTuning.magazineCapacity, DefaultTuning.startingNumRoundsTotal),
                       DefaultTuning.magazineCapacity)
  {
  }

  /**
   * The default weapon has the unlimited-ammo cheat on: any number of OnFire
   * calls from its starting 30/120 all fire, and the ledger stays at 30/120.
   */
  lemma DefaultWeaponNeverRunsDry(n: nat)
    ensures var start := Ammo(DefaultTuning.magazineCapacity, DefaultTuning.startingNumRoundsTotal);
      && DefaultTuning.unlimitedAmmo
      && Burst(start, DefaultTuning.magazineCapacity, DefaultTuning.unlimitedAmmo, n) == start
      && OnFireBranch(Burst(start, DefaultTuning.magazineCapacity, DefaultTuning.unlimitedAmmo, n)) == FireShot
  {
    UnlimitedBurstKeepsLedger(Ammo(30, 120), 30, n);
  }

  /** AMainPlayerController, reduced to what recoil uses. */
  class PlayerController {
    /** IsLocalPlayerController() */
    const isLocalPlayerController: bool
    /** GetControlRotation() / SetControlRotation() */
    var controlRotation: Rotator

    constructor (isLocal: bool, rotation: Rotator)
      ensures isLocalPlayerController == isLocal && controlRotation == rotation
    {
      isLocalPlayerController := isLocal;
      controlRotation := rotation;
    }
  }

  class Weapon {
    const weaponType: WeaponType
    const firingMode: FiringMode
    const baseDamage: real
    const magazineCapacity: uint8
    const timeBetweenShots: real
    const startingNumRoundsTotal: uint8
    const unlimitedAmmo: bool
    const recoilRecoveryRate: real
    const rateOfFireForgiveness: real
    const firstShotBaseSpread: real
    const movementSpreadPenalty: real
    const weaponHasNoSpread: bool
    const recoilPatternCurve: Option<real -> Vector>

    var currentNumRoundsTotal: uint8
    var currentNumRoundsInMag: uint8
    var lastFireTime: real
    var finishedCompensatingRecoil: bool
    var totalRecoilAdded: Rotator
    var recoilPatternTimeAccumulator: real
    /** TimerHandle_HandleFiring: whether the re-fire timer is armed, and when it goes off. */
    var fireTimerArmed: bool
    var fireTimerDue: real
    /** OwningPlayer */
    var owner: Character?

    predicate Valid()
      reads this
    {
      magazineCapacity > 0 && timeBetweenShots > 0.0
      && 0.0 <= recoilPatternTimeAccumulator <= AccumulatorMax
    }

    function AmmoState(): Ammo
      reads this
    {
      Ammo(currentNumRoundsInMag, currentNumRoundsTotal)
    }

    /** The ledger invariant of AmmoLedger.Consistent, on this weapon's counters. */
    predicate AmmoConsistent()
      reads this
    {
      Consistent(AmmoState(), magazineCapacity)
    }

    /** The owner and its player controller are both set. */
    predicate HasController()
      reads this, owner
    {
      owner != null && owner.controller != null
    }

    /** The objects recoil may write to: the owner's controller, when there is one. */
    function ControllerFrame(): set<object>
      reads this, owner
    {
      if HasController() then {owner.controller} else {}
    }

    /** The test of HandleWeaponFire: an owner holding the fire key, and an open gate. */
    predicate Triggered(now: real)
      reads this, owner
    {
      owner != null && owner.fireWeaponKeyIsPressed && WeaponCanFireAgain(now, lastFireTime, timeBetweenShots)
    }

    constructor (tuning: Tuning)
      requires ValidTuning(tuning)
      ensures Valid()
      ensures weaponType == tuning.weaponType && firingMode == tuning.firingMode
      ensures baseDamage == tuning.baseDamage && magazineCapacity == tuning.magazineCapacity
      ensures timeBetweenShots == tuning.timeBetweenShots
      ensures startingNumRoundsTotal == tuning.startingNumRoundsTotal
      ensures unlimitedAmmo == tuning.unlimitedAmmo && recoilRecoveryRate == tuning.recoilRecoveryRate
      ensures rateOfFireForgiveness == tuning.rateOfFireForgiveness
      ensures firstShotBaseSpread == tuning.firstShotBaseSpread
      ensures movementSpreadPenalty == tuning.movementSpreadPenalty
      ensures weaponHasNoSpread == tuning.weaponHasNoSpread && recoilPatternCurve == tuning.recoilPatternCurve
      ensures AmmoState() == Ammo(0, 0) && lastFireTime == 0.0
      ensures finishedCompensatingRecoil && totalRecoilAdded == ZeroRotator
      ensures recoilPatternTimeAccumulator == 0.0
      ensures !fireTimerArmed && owner == null
    {
      weaponType := tuning.weaponType;
      firingMode := tuning.firingMode;
      baseDamage := tuning.baseDamage;
      magazineCapacity := tuning.magazineCapacity;
      lastFireTime := 0.0;
      timeBetweenShots := tuning.timeBetweenShots;
      startingNumRoundsTotal := tuning.startingNumRoundsTotal;
      unlimitedAmmo := tuning.unlimitedAmmo;
      recoilRecoveryRate := tuning.recoilRecoveryRate;
      rateOfFireForgiveness := tuning.rateOfFireForgiveness;
      finishedCompensatingRecoil := true;
      totalRecoilAdded := ZeroRotator;
      firstShotBaseSpread := tuning.firstShotBaseSpread;
      movementSpreadPenalty := tuning.movementSpreadPenalty;
      weaponHasNoSpread := tuning.weaponHasNoSpread;
      recoilPatternCurve := tuning.recoilPatternCurve;
      recoilPatternTimeAccumulator := 0.0;
      currentNumRoundsTotal, currentNumRoundsInMag := 0, 0;
      fireTimerArmed, fireTimerDue := false, 0.0;
      owner := null;
    }

    /** BeginPlay: the weapon starts out full. */
    method BeginPlay()
      requires Valid()
      modifies this`currentNumRoundsTotal, this`currentNumRoundsInMag
      ensures Valid()
      ensures AmmoState() == Ammo(magazineCapacity, startingNumRoundsTotal)
      ensures AmmoConsistent() <==> magazineCapacity <= startingNumRoundsTotal
    {
      currentNumRoundsTotal := startingNumRoundsTotal;
      currentNumRoundsInMag := magazineCapacity;
    }

    /** GetWorldTimerManager().SetTimer(TimerHandle_HandleFiring, ..., rate): a non-positive rate clears it. */
    method SetFireTimer(now: real, rate: real)
      requires Valid()
      modifies this`fireTimerArmed, this`fireTimerDue
      ensures Valid()
      ensures rate > 0.0 ==> fireTimerArmed && fireTimerDue == now + rate
      ensures rate <= 0.0 ==> !fireTimerArmed && fireTimerDue == old(fireTimerDue)
    {
      if rate > 0.0 {
        fireTimerArmed, fireTimerDue := true, now + rate;
      } else {
        fireTimerArmed := false;
      }
    }

    /** GetWorldTimerManager().ClearTimer(TimerHandle_HandleFiring) */
    method ClearFireTimer()
      requires Valid()
      modifies this`fireTimerArmed
      ensures Valid()
      ensures !fireTimerArmed
    {
      fireTimerArmed := false;
    }

    ////////////////////////// AMMO //////////////////////////

    /** Consumes one round, when the magazine and the total both hold one. */
    method ConsumeAmmo()
      requires Valid()
      modifies this`currentNumRoundsInMag, this`currentNumRoundsTotal
      ensures Valid()
      ensures AmmoState() == AfterConsume(old(AmmoState()))
      ensures old(AmmoConsistent()) ==> AmmoConsistent()
    {
      if currentNumRoundsInMag > 0 && currentNumRoundsTotal > 0 {
        currentNumRoundsInMag := currentNumRoundsInMag - 1;
        currentNumRoundsTotal := currentNumRoundsTotal - 1;
      } else if currentNumRoundsTotal > 0 {
        // logs that a reload is needed
      } else {
        // logs that no rounds are left
      }
      if old(AmmoConsistent()) {
        ConsumeKeepsConsistent(old(AmmoState()), magazineCapacity);
      }
    }

    /** Determines whether a reload is possible, from the ammunition counts alone. */
    function CanReload(): (r: bool)
      reads this
      // a reload is possible exactly when it would change the ledger
      ensures r <==> AfterReload(AmmoState(), magazineCapacity) != AmmoState()
    {
      AmmoLedger.CanReload(AmmoState(), magazineCapacity)
    }

    /** Fills the magazine as far as the rounds allow, and cancels the re-fire timer. */
    method Reload()
      requires Valid()
      modifies this`currentNumRoundsInMag, this`fireTimerArmed
      ensures Valid()
      ensures AmmoState() == AfterReload(old(AmmoState()), magazineCapacity)
      ensures fireTimerArmed == (old(fireTimerArmed) && !old(CanReload()))
      ensures old(AmmoConsistent()) ==> AmmoConsistent()
    {
      if CanReload() {
        var numRoundsBeforeFullMag: int := magazineCapacity as int - currentNumRoundsInMag as int;
        var numRoundsInReserve: int := currentNumRoundsTotal as int - currentNumRoundsInMag as int;
        var numRoundsToReload: int := Min(numRoundsBeforeFullMag, numRoundsInReserve);
        currentNumRoundsInMag := (currentNumRoundsInMag as int + numRoundsToReload) as uint8;
        ClearFireTimer();
      } else {
        // logs that the reload was refused
      }
    }

    /** The rate-of-fire gate, with this weapon's LastFireTime and RateOfFireForgiveness. */
    function WeaponCanFireAgain(currentTime: real, lastTimeFired: real, minTimeBetweenShots: real): (r: bool)
      reads this
      // called with LastFireTime, as HandleWeaponFire does, and a non-negative
      // forgiveness, the gate opens once the interval minus the forgiveness has passed
      ensures lastTimeFired == lastFireTime && rateOfFireForgiveness >= 0.0 ==>
                (r <==> currentTime - lastFireTime >= minTimeBetweenShots - rateOfFireForgiveness)
      // a re-fire timer that goes off on schedule always passes
      ensures currentTime == lastFireTime + minTimeBetweenShots && rateOfFireForgiveness >= 0.0 ==> r
    {
      if rateOfFireForgiveness >= 0.0 then
        GateAtCallSite(currentTime, lastFireTime, minTimeBetweenShots, rateOfFireForgiveness);
        OpensOnSchedule(lastTimeFired, lastFireTime, minTimeBetweenShots, rateOfFireForgiveness);
        CanFireAgain(currentTime, lastTimeFired, lastFireTime, minTimeBetweenShots, rateOfFireForgiveness)
      else
        CanFireAgain(currentTime, lastTimeFired, lastFireTime, minTimeBetweenShots, rateOfFireForgiveness)
    }

    ////////////////////////// RECOIL //////////////////////////

    /** The rotation the next shot adds, from the recoil curve at the current pattern position. */
    function GetRecoilValueToAdd(): (r: Rotator)
      requires Valid()
      reads this
      ensures recoilPatternCurve.None? ==> r == ZeroRotator
      // the curve is sampled at the pattern percent, which lies between 0 and
      // the clamp bound over the time one magazine takes to empty
      ensures var p := PatternPercent(recoilPatternTimeAccumulator, magazineCapacity as nat, timeBetweenShots);
        && 0.0 <= p <= AccumulatorMax / ((magazineCapacity as nat as real) * timeBetweenShots)
        && (recoilPatternCurve.Some? ==>
              var sample := recoilPatternCurve.value(p);
              r == Rotator(sample.y, sample.x, 0.0))
    {
      PatternPercentBounds(recoilPatternTimeAccumulator, magazineCapacity as nat, timeBetweenShots);
      RecoilValueToAdd(recoilPatternCurve, recoilPatternTimeAccumulator, magazineCapacity as nat, timeBetweenShots)
    }

    /**
     * The recoil of one shot: for a local controller, the same rotation goes
     * onto the control rotation and onto TotalRecoilAdded. For any other
     * controller both stay as they were.
     */
    twostate predicate RecoilKicked()
      requires Valid() && HasController()
      reads this, owner, owner.controller
    {
      && SameController()
      && var c := owner.controller;
      if c.isLocalPlayerController then
        && totalRecoilAdded == Add(old(totalRecoilAdded), GetRecoilValueToAdd())
        && c.controlRotation == Add(old(owner.controller.controlRotation), GetRecoilValueToAdd())
      else
        totalRecoilAdded == old(totalRecoilAdded) && c.controlRotation == old(owner.controller.controlRotation)
    }

    /** The weapon is held by the same owner, through the same controller, as before. */
    twostate predicate SameController()
      requires HasController()
      reads this, owner
    {
      owner == old(owner) && old(owner) != null && owner.controller == old(owner.controller)
    }

    /** The control rotation recoil writes to has not moved. */
    twostate predicate AimUnchanged()
      reads this, owner, ControllerFrame()
    {
      HasController() ==>
        SameController() && owner.controller.controlRotation == old(owner.controller.controlRotation)
    }

    method AddRecoil()
      requires Valid() && HasController()
      modifies this`totalRecoilAdded, owner.controller
      ensures Valid()
      ensures RecoilKicked()
      // the aim minus the outstanding recoil is the aim before any recoil, and it stays put
      ensures Sub(owner.controller.controlRotation, totalRecoilAdded)
           == old(Sub(owner.controller.controlRotation, totalRecoilAdded))
    {
      var playerController := owner.controller;
      if playerController.isLocalPlayerController {
        var currentRotation := playerController.controlRotation;
        var newRotation := Add(currentRotation, GetRecoilValueToAdd());
        totalRecoilAdded := Add(totalRecoilAdded, GetRecoilValueToAdd());
        playerController.controlRotation := newRotation;
        AddKeepsDifference(currentRotation, old(totalRecoilAdded), GetRecoilValueToAdd());
      }
    }

    /** On tick: recovery is finished exactly when the engine calls TotalRecoilAdded zero. */
    method CheckIfRecoilFinishedCompensating(lib: EngineLibrary)
      requires Valid()
      modifies this`finishedCompensatingRecoil
      ensures Valid()
      ensures finishedCompensatingRecoil == lib.isZero(totalRecoilAdded)
    {
      if lib.isZero(totalRecoilAdded) {
        finishedCompensatingRecoil := true;
      } else {
        finishedCompensatingRecoil := false;
      }
    }

    /**
     * On tick: once recovery is finished the total is snapped to exactly
     * zero. Until then, for a local controller, one constant-rate
     * compensation step is taken off both the control rotation and the total.
     */
    method RecoverRecoil(deltaTime: real, lib: EngineLibrary)
      requires Valid()
      requires !finishedCompensatingRecoil ==> HasController()
      modifies this`totalRecoilAdded, ControllerFrame()
      ensures Valid()
      ensures finishedCompensatingRecoil ==> totalRecoilAdded == ZeroRotator
      ensures finishedCompensatingRecoil && HasController() ==>
                owner.controller.controlRotation == old(owner.controller.controlRotation)
      ensures !finishedCompensatingRecoil ==>
        var c := owner.controller;
        var compensation := lib.interpConstantTo(ZeroRotator, old(totalRecoilAdded), deltaTime, recoilRecoveryRate);
        if c.isLocalPlayerController then
          && totalRecoilAdded == Sub(old(totalRecoilAdded), compensation)
          && c.controlRotation == Sub(old(c.controlRotation), compensation)
        else
          totalRecoilAdded == old(totalRecoilAdded) && c.controlRotation == old(c.controlRotation)
      ensures !finishedCompensatingRecoil ==>
        Sub(owner.controller.controlRotation, totalRecoilAdded)
          == old(Sub(owner.controller.controlRotation, totalRecoilAdded))
    {
      if !finishedCompensatingRecoil {
        var playerController := owner.controller;
        if playerController.isLocalPlayerController {
          var noRotation := ZeroRotator;
          var currentRotation := playerController.controlRotation;
          var compensation := lib.interpConstantTo(noRotation, totalRecoilAdded, deltaTime, recoilRecoveryRate);
          playerController.controlRotation := Sub(currentRotation, compensation);
          totalRecoilAdded := Sub(totalRecoilAdded, compensation);
          SubKeepsDifference(currentRotation, old(totalRecoilAdded), compensation);
        }
      } else {
        totalRecoilAdded := ZeroRotator;
      }
    }

    /** On tick: with an owner whose fire key is up, the pattern regresses by TimeBetweenShots squared. */
    method UpdateRecoilPatternTimeAccumulator(deltaTime: real)
      requires Valid()
      modifies this`recoilPatternTimeAccumulator
      ensures Valid()
      ensures recoilPatternTimeAccumulator
           == AccumulatorAfterTick(old(recoilPatternTimeAccumulator), timeBetweenShots,
                                   owner != null, owner != null && owner.fireWeaponKeyIsPressed)
    {
      if owner != null && !owner.fireWeaponKeyIsPressed {
        recoilPatternTimeAccumulator :=
          Clamp(recoilPatternTimeAccumulator - timeBetweenShots * timeBetweenShots, 0.0, AccumulatorMax);
      }
    }

    /**
     * Tick: the finished check, then recovery, then the pattern update, in
     * that order. An outstanding total the engine calls zero is snapped to
     * zero, so a zero total stays zero on every later tick.
     */
    method Tick(deltaTime: real, lib: EngineLibrary)
      requires Valid()
      requires lib.isZero(totalRecoilAdded) || HasController()
      modifies this`finishedCompensatingRecoil, this`totalRecoilAdded, this`recoilPatternTimeAccumulator
      modifies ControllerFrame()
      ensures Valid()
      ensures finishedCompensatingRecoil == lib.isZero(old(totalRecoilAdded))
      ensures totalRecoilAdded
           == RecoveredTotal(lib, old(totalRecoilAdded), deltaTime, recoilRecoveryRate,
                             HasController() && owner.controller.isLocalPlayerController)
      ensures ValidLibrary(lib) && old(totalRecoilAdded) == ZeroRotator ==> totalRecoilAdded == ZeroRotator
      ensures HasController() && finishedCompensatingRecoil ==>
                owner.controller.controlRotation == old(owner.controller.controlRotation)
      ensures HasController() && !finishedCompensatingRecoil ==>
                Sub(owner.controller.controlRotation, totalRecoilAdded)
                  == old(Sub(owner.controller.controlRotation, totalRecoilAdded))
      ensures recoilPatternTimeAccumulator
           == AccumulatorAfterTick(old(recoilPatternTimeAccumulator), timeBetweenShots,
                                   owner != null, owner != null && owner.fireWeaponKeyIsPressed)
    {
      CheckIfRecoilFinishedCompensating(lib);
      RecoverRecoil(deltaTime, lib);
      UpdateRecoilPatternTimeAccumulator(deltaTime);
    }

    ////////////////////////// ACCURACY //////////////////////////

    /** The fire direction for the given aim direction; ownerSpeed is the owner's velocity size. */
    function GetVectorAdjustedForSpread(inVector: Vector, ownerSpeed: real,
                                        randCone: (Vector, real) -> Vector): (r: Vector)
      reads this
      ensures weaponHasNoSpread ==> r == inVector
    {
      AdjustedForSpread(inVector, weaponHasNoSpread, firstShotBaseSpread, movementSpreadPenalty,
                        if owner != null then Some(ownerSpeed) else None, randCone)
    }

    ////////////////////////// FIRING //////////////////////////

    /** Sound, muzzle flash and montage: engine effects, not modelled. */
    method PlayFireWeaponEffects()
    {
    }

    /** The hitscan trace: an engine spatial query, not modelled. */
    method StartWeaponTrace()
    {
    }

    /** Nothing the firing code writes has changed. */
    twostate predicate FiringStateUnchanged()
      reads this, owner, ControllerFrame()
    {
      && unchanged(this)
      && AimUnchanged()
    }

    /**
     * One shot fired at time `now`: a round consumed unless ammunition is
     * unlimited, the pattern advanced, the recoil kicked, LastFireTime set,
     * and the re-fire timer armed for TimeBetweenShots whatever the firing mode.
     */
    twostate predicate ShotFiredAt(now: real)
      requires Valid() && HasController()
      reads this, owner, owner.controller
    {
      && AmmoState() == (if unlimitedAmmo then old(AmmoState()) else AfterConsume(old(AmmoState())))
      && recoilPatternTimeAccumulator == AccumulatorAfterShot(old(recoilPatternTimeAccumulator), timeBetweenShots)
      && RecoilKicked()
      && lastFireTime == now
      && fireTimerArmed && fireTimerDue == now + timeBetweenShots
      && finishedCompensatingRecoil == old(finishedCompensatingRecoil)
      && owner == old(owner)
    }

    /** OnFire reloaded instead of firing: only the magazine and the timer may have changed. */
    twostate predicate ReloadedInstead()
      reads this, owner, ControllerFrame()
    {
      && AmmoState() == AfterReload(old(AmmoState()), magazineCapacity)
      && fireTimerArmed == (old(fireTimerArmed) && !old(CanReload()))
      && fireTimerDue == old(fireTimerDue)
      && lastFireTime == old(lastFireTime)
      && totalRecoilAdded == old(totalRecoilAdded)
      && recoilPatternTimeAccumulator == old(recoilPatternTimeAccumulator)
      && finishedCompensatingRecoil == old(finishedCompensatingRecoil)
      && owner == old(owner)
      && AimUnchanged()
    }

    /** The effect of one OnFire call: exactly one of fire, reload or nothing. */
    twostate predicate OnFireEffect(now: real)
      requires Valid()
      reads this, owner, ControllerFrame()
    {
      match OnFireBranch(old(AmmoState()))
      case FireShot => HasController() && ShotFiredAt(now)
      case ReloadInstead => ReloadedInstead()
      case OutOfAmmo => FiringStateUnchanged()
    }

    /** Fires one shot if a round is available, otherwise reloads. */
    method OnFire(now: real)
      requires Valid()
      requires CanConsume(AmmoState()) ==> HasController()
      modifies this`currentNumRoundsInMag, this`currentNumRoundsTotal, this`recoilPatternTimeAccumulator
      modifies this`totalRecoilAdded, this`lastFireTime, this`fireTimerArmed, this`fireTimerDue
      modifies ControllerFrame()
      ensures Valid()
      ensures OnFireEffect(now)
      ensures old(AmmoConsistent()) ==> AmmoConsistent()
    {
      if currentNumRoundsTotal > 0 && currentNumRoundsInMag > 0 {
        PlayFireWeaponEffects();
        StartWeaponTrace();
        if !unlimitedAmmo {
          ConsumeAmmo();
        }
        recoilPatternTimeAccumulator := Clamp(recoilPatternTimeAccumulator + timeBetweenShots, 0.0, AccumulatorMax);
        AddRecoil();
        lastFireTime := now;
        SetFireTimer(now, timeBetweenShots);
      } else if currentNumRoundsTotal > 0 && currentNumRoundsInMag == 0 {
        // logs the empty magazine, then reloads
        Reload();
      } else {
        // logs that no rounds are left
      }
    }

    /**
     * Called on input from the owner, and by the re-fire timer. It passes the
     * request to OnFire exactly when the owner holds the fire key and the
     * gate is open. Every other path only reports and changes nothing.
     */
    method HandleWeaponFire(now: real)
      requires Valid()
      requires Triggered(now) && CanConsume(AmmoState()) ==> HasController()
      modifies this`currentNumRoundsInMag, this`currentNumRoundsTotal, this`recoilPatternTimeAccumulator
      modifies this`totalRecoilAdded, this`lastFireTime, this`fireTimerArmed, this`fireTimerDue
      modifies ControllerFrame()
      ensures Valid()
      ensures old(Triggered(now)) ==> OnFireEffect(now)
      ensures !old(Triggered(now)) ==> FiringStateUnchanged()
      ensures old(AmmoConsistent()) ==> AmmoConsistent()
    {
      var currentGameTime := now;
      var decision := HandleWeaponFireDecision(owner != null, owner != null && owner.fireWeaponKeyIsPressed,
                                               WeaponCanFireAgain(currentGameTime, lastFireTime, timeBetweenShots));
      if decision == CallOnFire {
        OnFire(currentGameTime);
      } else if decision == ReportElapsedTime {
        // logs the time elapsed since the last shot
      }
    }

    /**
     * The timer manager running TimerHandle_HandleFiring once it is due: the
     * one-shot timer is spent, then HandleWeaponFire runs. A shot re-arms it;
     * otherwise it stays disarmed, so a released key ends automatic fire.
     */
    method FireTimerElapsed(now: real)
      requires Valid() && fireTimerArmed && fireTimerDue <= now
      requires Triggered(now) && CanConsume(AmmoState()) ==> HasController()
      modifies this`currentNumRoundsInMag, this`currentNumRoundsTotal, this`recoilPatternTimeAccumulator
      modifies this`totalRecoilAdded, this`lastFireTime, this`fireTimerArmed, this`fireTimerDue
      modifies ControllerFrame()
      ensures Valid()
      ensures old(Triggered(now)) && OnFireBranch(old(AmmoState())) == FireShot ==>
                HasController() && ShotFiredAt(now)
      ensures !(old(Triggered(now)) && OnFireBranch(old(AmmoState())) == FireShot) ==>
                !fireTimerArmed && lastFireTime == old(lastFireTime)
      ensures old(Triggered(now)) && OnFireBranch(old(AmmoState())) != FireShot ==>
                && AmmoState() == OnFireAmmo(old(AmmoState()), magazineCapacity, unlimitedAmmo)
                && totalRecoilAdded == old(totalRecoilAdded)
                && recoilPatternTimeAccumulator == old(recoilPatternTimeAccumulator)
                && fireTimerDue == old(fireTimerDue)
                && finishedCompensatingRecoil == old(finishedCompensatingRecoil)
                && owner == old(owner)
                && AimUnchanged()
      ensures !old(Triggered(now)) ==>
                && AmmoState() == old(AmmoState())
                && totalRecoilAdded == old(totalRecoilAdded)
                && recoilPatternTimeAccumulator == old(recoilPatternTimeAccumulator)
                && fireTimerDue == old(fireTimerDue)
                && finishedCompensatingRecoil == old(finishedCompensatingRecoil)
                && owner == old(owner)
                && AimUnchanged()
    {
      fireTimerArmed := false;
      HandleWeaponFire(now);
    }

    /** Releasing the fire key: only the re-fire timer was disarmed. */
    twostate predicate FireTimerCancelled()
      reads this
    {
      && !fireTimerArmed
      && unchanged(this`currentNumRoundsInMag, this`currentNumRoundsTotal, this`lastFireTime)
      && unchanged(this`finishedCompensatingRecoil, this`totalRecoilAdded, this`recoilPatternTimeAccumulator)
      && unchanged(this`fireTimerDue, this`owner)
    }
  }

  /** AFPSCharacter, reduced to its input-edge layer. */
  class Character {
    /** bFireWeaponKeyIsPressed */
    var fireWeaponKeyIsPressed: bool
    /** bMovingForward, bMovingRight */
    var movingForward: bool
    var movingRight: bool
    /** bCanStartFiringWeapon: set, but never read by the firing code */
    var canStartFiringWeapon: bool
    var equippedWeapon: Weapon?
    /** MainPlayerController */
    var controller: PlayerController?

    constructor ()
      ensures !fireWeaponKeyIsPressed && !movingForward && !movingRight && canStartFiringWeapon
      ensures equippedWeapon == null && controller == null
    {
      movingForward := false;
      movingRight := false;
      canStartFiringWeapon := true;
      fireWeaponKeyIsPressed := false;
      equippedWeapon := null;
      controller := null;
    }

    /** BeginPlay: the engine's controller, cast to the game's player controller (null when the cast fails). */
    method BeginPlay(castController: PlayerController?)
      modifies this`controller
      ensures controller == castController
    {
      controller := castController;
    }

    /** The equipped weapon knows this character as its owner. */
    predicate WeaponLinked()
      reads this, equippedWeapon
    {
      equippedWeapon != null ==> equippedWeapon.owner == this
    }

    /** EquipWeapon with InitWeaponToPlayer, for an already spawned weapon. */
    method EquipWeapon(spawned: Weapon)
      modifies this`equippedWeapon, spawned`owner
      ensures equippedWeapon == spawned && spawned.owner == this
      ensures WeaponLinked()
    {
      equippedWeapon := spawned;
      spawned.owner := this;
    }

    /** MoveForward: the flag is reset every call and set exactly for non-zero input. */
    method MoveForward(value: real)
      modifies this`movingForward
      ensures movingForward <==> value != 0.0
    {
      movingForward := false;
      if value != 0.0 {
        // the engine's movement input, forwards
        movingForward := true;
      }
    }

    /** MoveRight: the flag is reset every call and set exactly for non-zero input. */
    method MoveRight(value: real)
      modifies this`movingRight
      ensures movingRight <==> value != 0.0
    {
      movingRight := false;
      if value != 0.0 {
        // the engine's movement input, sideways
        movingRight := true;
      }
    }

    /** The objects a fire request may write to: the weapon and this character's controller. */
    function FiringFrame(): set<object>
      reads this
    {
      if equippedWeapon == null then {}
      else {equippedWeapon} + (if controller != null then {controller} else {})
    }

    /** Forwards a fire request to the equipped weapon; without one it does nothing. */
    method StartFireWeapon(now: real)
      requires WeaponLinked()
      requires equippedWeapon != null ==> equippedWeapon.Valid()
      requires (equippedWeapon != null && equippedWeapon.Triggered(now)
                && CanConsume(equippedWeapon.AmmoState())) ==> controller != null
      modifies FiringFrame()
      ensures equippedWeapon != null ==> equippedWeapon.Valid()
      ensures equippedWeapon != null && old(equippedWeapon.Triggered(now)) ==> equippedWeapon.OnFireEffect(now)
      ensures equippedWeapon != null && !old(equippedWeapon.Triggered(now)) ==>
                equippedWeapon.FiringStateUnchanged()
    {
      if equippedWeapon != null {
        var weapon := equippedWeapon;
        weapon.HandleWeaponFire(now);
      }
    }

    /**
     * The fire key goes down: the held flag is raised first, so the weapon's
     * own test sees it, and the request is forwarded.
     */
    method OnStartFireWeapon(now: real)
      requires WeaponLinked()
      requires equippedWeapon != null ==> equippedWeapon.Valid()
      requires (equippedWeapon != null
                && equippedWeapon.WeaponCanFireAgain(now, equippedWeapon.lastFireTime, equippedWeapon.timeBetweenShots)
                && CanConsume(equippedWeapon.AmmoState())) ==> controller != null
      modifies this`fireWeaponKeyIsPressed, FiringFrame()
      ensures fireWeaponKeyIsPressed
      ensures equippedWeapon != null ==> equippedWeapon.Valid()
      ensures equippedWeapon != null
              && old(equippedWeapon.WeaponCanFireAgain(now, equippedWeapon.lastFireTime,
                                                       equippedWeapon.timeBetweenShots)) ==>
                equippedWeapon.OnFireEffect(now)
      ensures equippedWeapon != null
              && !old(equippedWeapon.WeaponCanFireAgain(now, equippedWeapon.lastFireTime,
                                                        equippedWeapon.timeBetweenShots)) ==>
                equippedWeapon.FiringStateUnchanged()
    {
      fireWeaponKeyIsPressed := true;
      StartFireWeapon(now);
    }

    /**
     * The fire key goes up: the held flag is lowered and, when a weapon is
     * equipped, its re-fire timer is cancelled.
     */
    method OnFinishFireWeapon()
      requires equippedWeapon != null ==> equippedWeapon.Valid()
      modifies this`fireWeaponKeyIsPressed, FiringFrame()
      ensures !fireWeaponKeyIsPressed
      ensures equippedWeapon != null ==> equippedWeapon.Valid()
      ensures equippedWeapon != null ==> equippedWeapon.FireTimerCancelled()
      ensures controller != null ==> unchanged(controller)
    {
      fireWeaponKeyIsPressed := false;
      if OnFinishFireWeaponDecision(equippedWeapon != null) == ClearFireTimer {
        equippedWeapon.ClearFireTimer();
      }
    }
  }

  /**
   * A default rifle with limited ammunition, spawned and equipped by a
   * character whose controller is a local player controller.
   */
  method EquippedRifle() returns (player: Character, weapon: Weapon)
    ensures fresh(player) && fresh(weapon)
    ensures player.equippedWeapon == weapon && player.WeaponLinked()
    ensures player.controller != null && fresh(player.controller)
    ensures !player.fireWeaponKeyIsPressed
    ensures weapon.Valid() && !weapon.unlimitedAmmo && weapon.recoilPatternCurve.None?
    ensures weapon.AmmoState() == Ammo(30, 120) && weapon.AmmoConsistent()
    ensures weapon.lastFireTime == 0.0 && weapon.timeBetweenShots == 0.1
  {
    var playerController := new PlayerController(true, ZeroRotator);
    player := new Character();
    player.BeginPlay(playerController);
    weapon := new Weapon(DefaultTuning.(unlimitedAmmo := false));
    weapon.BeginPlay();
    player.EquipWeapon(weapon);
  }

  /**
   * A client of the contracts above: the player presses the fire key one
   * second into the game, then releases it.
   */
  method PressAndReleaseScenario()
  {
    var player, weapon := EquippedRifle();
    assert weapon.WeaponCanFireAgain(1.0, weapon.lastFireTime, weapon.timeBetweenShots);
    assert OnFireBranch(weapon.AmmoState()) == FireShot;

    player.OnStartFireWeapon(1.0);
    assert weapon.AmmoState() == AfterConsume(Ammo(30, 120));
    assert weapon.AmmoState() == Ammo(29, 119);
    assert weapon.lastFireTime == 1.0 && weapon.fireTimerArmed && weapon.fireTimerDue == 1.1;
    assert player.equippedWeapon == weapon;
    player.OnFinishFireWeapon();
    assert !player.fireWeaponKeyIsPressed && !weapon.fireTimerArmed;
    assert weapon.AmmoState() == Ammo(29, 119);
  }
}
