# FPSFromScratch weapon firing core, in Dafny

This project models the weapon-firing core of FPSFromScratch, an Unreal
Engine first-person shooter: the `AFPSWeapon` actor and the input-edge layer
of `AFPSCharacter` that drives it. It then proves properties of that model.

- **Ammunition ledger** (`ammo_ledger.dfy`, module `AmmoLedger`):
  - the two `uint8` counters `CurrentNumRoundsInMag` and `CurrentNumRoundsTotal`, judged against the `uint8` `MagazineCapacity`;
  - `ConsumeAmmo`, `CanReload` and `Reload` as functions on the pair;
  - the ledger invariant "the magazine holds at most its capacity, and its rounds are part of the total";
  - lemmas over any series of ledger calls.

  Every store into a counter is a checked conversion to the `uint8` newtype, so the model also proves that no counter wraps around.
- **Rate-of-fire gate** (`rate_of_fire.dfy`, `RateOfFire`): `WeaponCanFireAgain`, with game time as a real number of seconds. Its jitter clause reads the member `LastFireTime` rather than its parameter, and the model keeps the two apart.
- **Recoil pattern** (`recoil_pattern.dfy`, `RecoilPattern`):
  - the pattern accumulator, advanced on each shot and regressed on idle ticks, clamped to [0, 3];
  - the curve lookup of `GetRecoilValueToAdd`;
  - what a recovery tick leaves of `TotalRecoilAdded`.
- **Accuracy** (`accuracy.dfy`, `Accuracy`): the no-spread short-circuit and the effective cone half-angle of `GetVectorAdjustedForSpread`.
- **Fire controller decisions** (`fire_control.dfy`, `FireControl`):
  - which of its three branches `OnFire` takes, and the ledger it leaves;
  - the decisions of `HandleWeaponFire` and of the release handler, each written twice: as the code has them and with the missing null tests added (see Findings).
- **Actors** (`actors.dfy`, `Actors`): these classes update their fields in place, like the C++ objects:
  - `PlayerController` holds the control rotation;
  - `Weapon` holds the tuning as `const` fields and the counters, `LastFireTime`, the recoil state, the re-fire timer and `OwningPlayer` as mutable fields. Its methods are `BeginPlay`, `ConsumeAmmo`, `Reload`, `OnFire`, `HandleWeaponFire`, `AddRecoil`, `CheckIfRecoilFinishedCompensating`, `RecoverRecoil`, `UpdateRecoilPatternTimeAccumulator` and `Tick`;
  - `Character` holds the key-held and movement flags, the equipped weapon and the controller.

  Each weapon method is specified against the value functions above. At the end, `PressAndReleaseScenario` presses and releases the fire key on a default rifle with the unlimited-ammo cheat off.
- **Engine values** (`engine_math.dfy`, `EngineMath`): rotators and vectors as triples of reals, `FMath::Clamp`, and `FMath::IsNearlyEqual`. `FRotator::IsZero` and `FMath::RInterpConstantTo` come in as a record of function values, `EngineLibrary`. The model assumes only that `IsZero` holds of the zero rotator.

Each engine service is a parameter:

- the game time `now`;
- the tick's `DeltaTime`;
- the `EngineLibrary` routines;
- the owner's speed;
- the random cone sampler.

The timer manager's single handle `TimerHandle_HandleFiring` is an armed flag and a due time. `SetTimer` re-arms it and `ClearTimer` disarms it. `Weapon.FireTimerElapsed` is the timer manager running the handle once it is due.

The code never reads `EWeaponFiringMode`, which has `SemiAuto`, `FullAuto` and a `_MAX` sentinel (`Source/FPSFromScratch/FPSWeapon.h:22-29`). The model therefore gives no mode-dependent behaviour: every shot re-arms the timer. `CanReload` is a predicate on the two counters and the capacity alone, as `FPSWeapon.h:191-192` says.

Where the code's comments and its statements differ, the model follows the statements:

- The comment at `FPSWeapon.cpp:441` calls the pattern percent a value between 0 and 1. Line 442 divides the accumulator, clamped to [0, 3], by capacity times period without clamping the quotient, so `PatternPercent` ranges over [0, 3 / (capacity * period)]. That lies within [0, 1] exactly when capacity times period is at least 3, as it is for the default 30 rounds at 0.1 s.
- The effective spread at `FPSWeapon.cpp:476-490` is not clamped either; a negative speed or penalty would narrow the cone.
- `FPSWeapon.h` is older than `FPSWeapon.cpp`. It does not declare `RecoilPatternTimeAccumulator`, `MovementSpreadPenalty`, `RecoilPatternCurve`, `GetRecoilValueToAdd`, `UpdateRecoilPatternTimeAccumulator` or `GetVectorAdjustedForSpread`. The model takes their types from their uses in the `.cpp`.

## Model

| member | source | states |
|---|---|---|
| AmmoLedger.CanConsume | Source/FPSFromScratch/FPSWeapon.cpp:292 | the consume guard holds only when both counters can drop by one without leaving uint8, and fails only when one of them is zero |
| AmmoLedger.AfterConsume | Source/FPSFromScratch/FPSWeapon.cpp:290-306 | with a round in the magazine and a non-empty total, both counters drop by exactly one; otherwise the ledger is unchanged |
| AmmoLedger.ConsumeKeepsConsistent | Source/FPSFromScratch/FPSWeapon.cpp:292-297 | consuming a round keeps the magazine within its capacity and within the total |
| AmmoLedger.CanReload | Source/FPSFromScratch/FPSWeapon.cpp:334-337 | a reload is possible iff it would load at least one round: the smaller of the room in the magazine and the owned rounds outside it is positive |
| AmmoLedger.RoundsToReload | Source/FPSFromScratch/FPSWeapon.cpp:313-320 | the reload count is positive, fits the room left in the magazine and the owned rounds outside it, and equals one of the two |
| AmmoLedger.AfterReload | Source/FPSFromScratch/FPSWeapon.cpp:308-337 | an accepted reload fills the magazine to min(capacity, total) and keeps the total; a rejected one changes nothing; afterwards no reload is possible; the invariant is kept |
| AmmoLedger.ReloadIdempotent | Source/FPSFromScratch/FPSWeapon.cpp:308-337 | reloading twice is reloading once |
| AmmoLedger.ReloadEmptyMagazineExample | Source/FPSFromScratch/FPSWeapon.cpp:311-322 | an empty 30-round magazine with 50 rounds owned reloads to 30, with the total still 50 |
| AmmoLedger.ReloadWithNoReserveExample | Source/FPSFromScratch/FPSWeapon.cpp:334-337 | 25 of 30 loaded with 25 owned cannot reload, and Reload leaves it as it is |
| AmmoLedger.ReplayKeepsConsistent | Source/FPSFromScratch/FPSWeapon.cpp:290-337 | the ledger invariant holds after any series of ConsumeAmmo and Reload calls |
| AmmoLedger.ReplayAccountsForEveryRound | Source/FPSFromScratch/FPSWeapon.cpp:290-337 | over any series of calls the total drops by exactly the number of rounds consumed; reloads create no rounds |
| RateOfFire.CanFireAgain | Source/FPSFromScratch/FPSWeapon.cpp:339-342 | the gate opens only once the interval has passed since lastTimeFired, or the interval minus the forgiveness since LastFireTime; with a negative forgiveness only the first clause can open it |
| RateOfFire.CanFireAgainCases | Source/FPSFromScratch/FPSWeapon.cpp:339-342 | the gate holds iff a full interval has passed since the lastTimeFired argument, or the time since the LastFireTime member is within the forgiveness of the interval (both ends of the band included) |
| RateOfFire.GateAtCallSite | Source/FPSFromScratch/FPSWeapon.cpp:121 | with LastFireTime passed for both times and a non-negative forgiveness, the gate opens iff at least the interval minus the forgiveness has elapsed |
| RateOfFire.OpensOnSchedule | Source/FPSFromScratch/FPSWeapon.cpp:339-342 | at exactly LastFireTime plus the interval the gate is open, whatever lastTimeFired is passed |
| RateOfFire.AdmitsEarlyTimer | Source/FPSFromScratch/FPSWeapon.h:127-128 | a timer that goes off early by no more than the forgiveness still passes the gate |
| RateOfFire.RefusesEarlyRequest | Source/FPSFromScratch/FPSWeapon.cpp:339-342 | a request earlier than the interval minus the forgiveness is refused |
| RateOfFire.ForgivenessMonotone | Source/FPSFromScratch/FPSWeapon.h:127-128 | a larger forgiveness admits every time a smaller one admits |
| RecoilPattern.AccumulatorAfterShot | Source/FPSFromScratch/FPSWeapon.cpp:146 | a shot leaves the accumulator in [0, 3], never lower than before, at min(3, max(0, acc + TimeBetweenShots)) |
| RecoilPattern.AccumulatorAfterIdleTick | Source/FPSFromScratch/FPSWeapon.cpp:465 | an idle tick leaves the accumulator in [0, 3], never higher than before, at max(0, acc - TimeBetweenShots squared) |
| RecoilPattern.AccumulatorAfterTick | Source/FPSFromScratch/FPSWeapon.cpp:461-467 | the accumulator regresses only when an owner exists and its fire key is up, and is frozen otherwise |
| RecoilPattern.ShotsAdvancePattern | Source/FPSFromScratch/FPSWeapon.cpp:146 | n shots in a row advance the accumulator to min(3, acc + n * TimeBetweenShots) |
| RecoilPattern.IdleTicksRegressPattern | Source/FPSFromScratch/FPSWeapon.cpp:461-467 | n idle ticks regress it to max(0, acc - n * TimeBetweenShots squared) |
| RecoilPattern.PatternPercent | Source/FPSFromScratch/FPSWeapon.cpp:442 | the percent times the time one magazine takes to empty is the accumulator |
| RecoilPattern.PatternPercentBounds | Source/FPSFromScratch/FPSWeapon.cpp:442 | for an accumulator in its clamp range [0, 3], the percent lies in [0, 3 / (capacity * period)] |
| RecoilPattern.PatternPercentWithinCurveIff | Source/FPSFromScratch/FPSWeapon.cpp:441-442 | the percent stays within [0, 1] for every reachable accumulator iff capacity times period is at least 3 |
| RecoilPattern.PatternPercentLeavesCurveExample | Source/FPSFromScratch/FPSWeapon.cpp:441-442 | a 20-round magazine at 0.1 s reaches percent 1.5 at the clamp bound; a 30-round one at 0.2 s never gets past 0.5 |
| RecoilPattern.DefaultMagazineSpansPattern | Source/FPSFromScratch/FPSWeapon.cpp:441-442 | with 30 rounds and 0.1 s between shots, a magazine emptied from the start takes the accumulator to 3 and the percent to exactly 1 |
| RecoilPattern.RecoilValueToAdd | Source/FPSFromScratch/FPSWeapon.cpp:433-459 | without a curve the shot adds no rotation; with one, the curve's (x, y) at the percent becomes pitch y, yaw x and roll 0 |
| RecoilPattern.RecoveredTotal | Source/FPSFromScratch/FPSWeapon.cpp:368-431 | a total the engine calls zero is snapped to exactly zero; otherwise a local controller has the compensation subtracted, and any other controller leaves it unchanged |
| RecoilPattern.ZeroRecoilStaysZero | Source/FPSFromScratch/FPSWeapon.cpp:427-430 | once the total is zero it stays exactly zero through any number of ticks |
| Accuracy.EffectiveSpread | Source/FPSFromScratch/FPSWeapon.cpp:476-490 | without an owner the half-angle is the base spread; with one it exceeds the base by speed times the movement penalty |
| Accuracy.AdjustedForSpread | Source/FPSFromScratch/FPSWeapon.cpp:469-493 | with the no-spread cheat the direction is returned unchanged; otherwise it is the cone sample at the effective spread |
| Accuracy.SpreadGrowsWithSpeed | Source/FPSFromScratch/FPSWeapon.cpp:476-490 | with a non-negative penalty, moving faster never narrows the cone |
| Accuracy.StationarySpreadIsBase | Source/FPSFromScratch/FPSWeapon.cpp:476-490 | a standing owner gets exactly the first-shot base spread |
| FireControl.OnFireBranch | Source/FPSFromScratch/FPSWeapon.cpp:134-170 | fire iff a round is in the magazine and the total is not empty; reload iff the magazine is empty but rounds are owned; nothing iff no round is owned |
| FireControl.ReloadBranchAcceptedIffCapacity | Source/FPSFromScratch/FPSWeapon.cpp:159-165 | on the reload branch, the reload is accepted iff the magazine has any capacity |
| FireControl.OnFireAmmo | Source/FPSFromScratch/FPSWeapon.cpp:134-170 | a shot consumes one round unless ammunition is unlimited; the reload branch fills the magazine to min(capacity, total); out of ammo nothing changes; the invariant is kept |
| FireControl.BurstFiresFromMagazine | Source/FPSFromScratch/FPSWeapon.cpp:136-145 | with limited ammunition each of the first inMag calls fires and takes one round from both counters |
| FireControl.MagazineThenReload | Source/FPSFromScratch/FPSWeapon.h:168-169 | a magazine of k rounds lasts exactly k calls; the next call reloads from what is left, or finds the weapon out of ammo |
| FireControl.UnlimitedBurstKeepsLedger | Source/FPSFromScratch/FPSWeapon.cpp:136-145 | with the unlimited-ammo cheat on, any number of OnFire calls on a loaded magazine leave the ledger exactly as it was |
| FireControl.LimitedWeaponFiresThirtyThenReloads | Source/FPSFromScratch/FPSWeapon.cpp:134-170 | a 30/120 weapon with the unlimited-ammo cheat off fires 30 shots to 0/90, and its 31st OnFire reloads to 30/90 |
| FireControl.EmptyMagazineReloadsExample | Source/FPSFromScratch/FPSWeapon.cpp:159-165 | an empty magazine with 10 rounds owned reloads to 10 instead of firing |
| FireControl.HandleWeaponFireAsWrittenFaultsWithoutOwner | Source/FPSFromScratch/FPSWeapon.cpp:126 | as written, a fire request on a weapon with no owner dereferences the null OwningPlayer |
| FireControl.HandleWeaponFireDecision | Source/FPSFromScratch/FPSWeapon.cpp:117-132 | OnFire is called iff an owner exists, holds the key and passes the gate; the elapsed time is reported iff the gate alone fails; nothing is dereferenced without an owner, and with an owner it agrees with the code as written |
| FireControl.OnFinishFireWeaponAsWrittenFaultsUnarmed | Source/FPSFromScratch/FPSCharacter.cpp:156 | as written, releasing the key with no weapon equipped dereferences the null EquippedWeapon |
| FireControl.OnFinishFireWeaponDecision | Source/FPSFromScratch/FPSCharacter.cpp:152-157 | the timer is cleared iff a weapon is equipped, nothing is dereferenced otherwise, and with a weapon it agrees with the code as written |
| Actors.DefaultTuningIsValid | Source/FPSFromScratch/FPSWeapon.cpp:32-37 | the default capacity and fire period are positive, and 120 starting rounds fill a 30-round magazine consistently |
| Actors.DefaultWeaponNeverRunsDry | Source/FPSFromScratch/FPSWeapon.cpp:32-39 | the default weapon has the unlimited-ammo cheat on, so from its starting 30/120 every OnFire fires and the ledger stays at 30/120 |
| Actors.Weapon.constructor | Source/FPSFromScratch/FPSWeapon.cpp:17-54 | the weapon takes its tuning, starts with LastFireTime 0, recovery finished, no recoil added, the pattern at its start, the timer disarmed and no owner |
| Actors.Weapon.BeginPlay | Source/FPSFromScratch/FPSWeapon.cpp:57-65 | the weapon starts full: the magazine at capacity and the total at the starting rounds; the invariant then holds iff the capacity does not exceed the starting rounds |
| Actors.Weapon.SetFireTimer | Source/FPSFromScratch/FPSWeapon.cpp:155 | a positive rate arms the timer due at now plus the rate; a non-positive one clears it |
| Actors.Weapon.ClearFireTimer | Source/FPSFromScratch/FPSWeapon.cpp:326 | the timer is disarmed |
| Actors.Weapon.ConsumeAmmo | Source/FPSFromScratch/FPSWeapon.cpp:290-306 | the counters become AfterConsume of the old ones, and the invariant is kept |
| Actors.Weapon.CanReload | Source/FPSFromScratch/FPSWeapon.cpp:334-337 | a reload is possible iff it would change the weapon's ledger |
| Actors.Weapon.Reload | Source/FPSFromScratch/FPSWeapon.cpp:308-332 | the counters become AfterReload of the old ones; the timer is disarmed iff the reload was accepted, and is otherwise left as it was; the invariant is kept |
| Actors.Weapon.WeaponCanFireAgain | Source/FPSFromScratch/FPSWeapon.cpp:339-342 | called with LastFireTime and a non-negative forgiveness, the gate opens iff the interval minus the forgiveness has passed; a timer due exactly one interval after the last shot always passes |
| Actors.Weapon.GetRecoilValueToAdd | Source/FPSFromScratch/FPSWeapon.cpp:433-459 | without a curve the shot adds no rotation; with one, the curve's (x, y) becomes pitch y, yaw x and roll 0, sampled at a percent in [0, 3 / (capacity * period)] |
| Actors.Weapon.AddRecoil | Source/FPSFromScratch/FPSWeapon.cpp:345-365 | for a local controller the same recoil value goes onto the aim and onto TotalRecoilAdded; otherwise both stay; the aim minus the outstanding recoil does not move |
| Actors.Weapon.CheckIfRecoilFinishedCompensating | Source/FPSFromScratch/FPSWeapon.cpp:368-378 | recovery is finished exactly when the engine calls the total zero |
| Actors.Weapon.RecoverRecoil | Source/FPSFromScratch/FPSWeapon.cpp:382-431 | when finished, the total is snapped to zero and the aim stays; otherwise a local controller has the same compensation taken off aim and total, keeping their difference |
| Actors.Weapon.UpdateRecoilPatternTimeAccumulator | Source/FPSFromScratch/FPSWeapon.cpp:461-467 | the accumulator becomes AccumulatorAfterTick of the old one, and stays in [0, 3] |
| Actors.Weapon.Tick | Source/FPSFromScratch/FPSWeapon.cpp:68-80 | the finished flag, the recovered total and the accumulator are those of one tick in source order; a zero total stays zero; aim and total keep their difference |
| Actors.Weapon.GetVectorAdjustedForSpread | Source/FPSFromScratch/FPSWeapon.cpp:469-474 | with the no-spread cheat the weapon fires along the input direction |
| Actors.Weapon.OnFire | Source/FPSFromScratch/FPSWeapon.cpp:134-170 | exactly one of: a shot (ammo per OnFireAmmo, the pattern advanced, the recoil kicked, LastFireTime set, the timer armed for TimeBetweenShots), a reload, or no change; the invariant is kept |
| Actors.Weapon.HandleWeaponFire | Source/FPSFromScratch/FPSWeapon.cpp:117-132 | when the owner holds the key and the gate is open, the effect is OnFire's; otherwise ammo, timer, recoil, pattern and aim are all unchanged |
| Actors.Weapon.FireTimerElapsed | Source/FPSFromScratch/FPSWeapon.cpp:155 | a due timer fires the next shot when the key is still held, the gate is open and a round is loaded; otherwise automatic fire stops with the timer disarmed and LastFireTime kept; a triggered call on a magazine that cannot fire leaves the ledger per OnFireAmmo (a reload, or nothing out of ammo); whenever no shot is fired, the recoil, the pattern, the aim, the due time, the finished flag and the owner are unchanged |
| Actors.Character.constructor | Source/FPSFromScratch/FPSCharacter.cpp:28-38 | the key-held and movement flags start false, firing is allowed, and no weapon or controller is set |
| Actors.Character.BeginPlay | Source/FPSFromScratch/FPSCharacter.cpp:61 | the controller is the engine's controller cast to the game's player controller |
| Actors.Character.EquipWeapon | Source/FPSFromScratch/FPSCharacter.cpp:109-110 | the spawned weapon becomes the equipped one and knows the character as its owner |
| Actors.Character.MoveForward | Source/FPSFromScratch/FPSCharacter.cpp:71-84 | the forward flag is set iff the input is non-zero |
| Actors.Character.MoveRight | Source/FPSFromScratch/FPSCharacter.cpp:86-99 | the right flag is set iff the input is non-zero |
| Actors.Character.StartFireWeapon | Source/FPSFromScratch/FPSCharacter.cpp:120-132 | the request reaches the equipped weapon's HandleWeaponFire; with no weapon nothing happens |
| Actors.Character.OnStartFireWeapon | Source/FPSFromScratch/FPSCharacter.cpp:145-150 | the key-held flag is raised before the request is forwarded, so a weapon whose gate is open fires, reloads or does nothing as OnFire does |
| Actors.Character.OnFinishFireWeapon | Source/FPSFromScratch/FPSCharacter.cpp:152-157 | the key-held flag is lowered and the equipped weapon's re-fire timer disarmed, with nothing else of the weapon changed |

## Left out

- The hitscan trace of `StartWeaponTrace`, `LineTraceSingleByChannel` and the debug points are engine spatial queries and drawing. `StartWeaponTrace` is a no-op stub.
- `PlayFireWeaponEffects` (sound, muzzle flash, montage play rate) is engine glue and a no-op stub.
- `FMath::VRandCone` is random, so the cone sampler is a parameter.
- The exact `FRotator::IsZero` and `FMath::RInterpConstantTo` are engine code that is not part of this model. They are abstract functions, and only "IsZero holds of the zero rotator" is assumed.
- `InitWeaponToPlayer` is modelled only as setting `OwningPlayer`. The collision settings and the socket attachment are engine object plumbing. The `SetInstigator` store into `WeaponInstigator` is left out, because no modelled code reads it.
- `EquipWeapon` takes an already spawned weapon. `SpawnActor` and the failed-spawn branch are engine object creation.
- `SetupPlayerInputComponent` is left out. The bindings appear in the model only as which handler runs on a press and on a release.
- Look input and its effect on the aim are left out.
- On-screen debug messages and `UE_LOG` output are left out.
- `FPSHUD` and `FPSCharacterAnimInstance` are left out, as drawing and animation reads.
- Floats are modelled as reals. Rounding such as `0.1f` not being exact, and the float division behind `PatternPercent`, are not modelled.
- A zero `MagazineCapacity` or a non-positive `TimeBetweenShots` is excluded by `ValidTuning` and `Weapon.Valid`. The code would divide by zero at `FPSWeapon.cpp:442`, and a zero period would never re-arm the timer.
- Scheduling is modelled one timer expiry at a time (`Weapon.FireTimerElapsed`), with game time as a parameter. Sustained full-auto fire is covered as counts of shots, rounds and pattern advance, not as a timeline of expiries.
- The tick's `DeltaTime` is not used by `UpdateRecoilPatternTimeAccumulator` in the code, and the model accepts and ignores it too.
- Actors.Weapon.AddRecoil: requires an owner with a controller. The code dereferences both without a test (`FPSWeapon.cpp:347-349`), and the crash that follows without them is not modelled.
- Actors.Weapon.RecoverRecoil: requires an owner with a controller while recovery is unfinished, where the code dereferences them without a test (`FPSWeapon.cpp:386-388`).
- Actors.Weapon.OnFire: requires an owner with a controller on the firing branch, which calls AddRecoil.
- Actors.Weapon.GetVectorAdjustedForSpread: states only the no-spread branch. The cone branch with the owner's speed is stated by Accuracy.AdjustedForSpread, which it delegates to.
- RecoilPattern.PatternPercent: the comment at `FPSWeapon.cpp:441` promises a value between 0 and 1. The model keeps the code's clamp bound of 3 and its unclamped division, so that promise holds only when capacity times period is at least 3 (PatternPercentWithinCurveIff). It is not a finding, because the default tuning meets it.
- Actors.Weapon.FireTimerElapsed: the model's rule that a spent timer is disarmed before `HandleWeaponFire` runs is the engine timer manager's behaviour for a non-looping timer, not the game's own code.

## Findings

| source | as written | input that shows it | evidently intended | confidence | as-written member | corrected member |
|---|---|---|---|---|---|---|
| Source/FPSFromScratch/FPSWeapon.cpp:121-131 | when the first test fails, the else-branch calls `OwningPlayer->GetFireWeaponKeyIsPressed()` without testing `OwningPlayer` | `HandleWeaponFire` on a weapon whose `OwningPlayer` is null | test `OwningPlayer` in the else-branch too | not executed; the game's callers reach it only for a weapon whose owner was never set | FireControl.HandleWeaponFireAsWrittenFaultsWithoutOwner | FireControl.HandleWeaponFireDecision |
| Source/FPSFromScratch/FPSCharacter.cpp:152-157 | `OnFinishFireWeapon` clears `EquippedWeapon->TimerHandle_HandleFiring` without testing `EquippedWeapon` | releasing the fire key on a character with no weapon equipped (no `SelectedWeapon`, or a failed spawn) | clear the timer only when a weapon is equipped | not executed | FireControl.OnFinishFireWeaponAsWrittenFaultsUnarmed | FireControl.OnFinishFireWeaponDecision |
