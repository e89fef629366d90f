/**
 * The decisions of the fire controller, as values: which branch OnFire takes,
 * what the ammunition becomes, whether HandleWeaponFire passes the request on
 * to OnFire, and what the release handler does.
 *
 * HandleWeaponFire and OnFinishFireWeapon are modelled here twice. The
 * "AsWritten" functions keep the unguarded pointer dereferences of the code,
 * with a NullDereference outcome. The guarded versions are the ones the
 * weapon and character classes use.
 */
module FireControl {
  import opened AmmoLedger

  /** The three outcomes of OnFire: fire one shot, reload instead, or nothing (out of ammo). */
  datatype FireBranch = FireShot | ReloadInstead | OutOfAmmo

  /** The branch OnFire takes for the given ledger. */
  function OnFireBranch(a: Ammo): (b: FireBranch)
    ensures b == FireShot <==> CanConsume(a)
    ensures b == ReloadInstead <==> a.total > 0 && a.inMag == 0
    ensures b == OutOfAmmo <==> a.total == 0
  {
    if a.total > 0 && a.inMag > 0 then FireShot
    else if a.total > 0 && a.inMag == 0 then ReloadInstead
    else OutOfAmmo
  }

  /**
   * With the magazine empty and rounds owned, the reload OnFire falls back to
   * is accepted exactly when the magazine has any room at all.
   */
  lemma ReloadBranchAcceptedIffCapacity(a: Ammo, capacity: uint8)
    requires OnFireBranch(a) == ReloadInstead
    ensures CanReload(a, capacity) <==> capacity > 0
  {
  }

  /** The ledger after OnFire; with unlimited ammo a shot consumes nothing. */
  function OnFireAmmo(a: Ammo, capacity: uint8, unlimitedAmmo: bool): (r: Ammo)
    ensures OnFireBranch(a) == FireShot && unlimitedAmmo ==> r == a
    ensures OnFireBranch(a) == FireShot && !unlimitedAmmo ==>
              r.inMag as int == a.inMag as int - 1 && r.total as int == a.total as int - 1
    ensures OnFireBranch(a) == ReloadInstead && capacity > 0 ==>
              r.inMag as int == Min(capacity as int, a.total as int) && r.total == a.total
    ensures OnFireBranch(a) == ReloadInstead && capacity == 0 ==> r == a
    ensures OnFireBranch(a) == OutOfAmmo ==> r == a
    ensures Consistent(a, capacity) ==> Consistent(r, capacity)
  {
    match OnFireBranch(a)
    case FireShot => if unlimitedAmmo then a else AfterConsume(a)
    case ReloadInstead => AfterReload(a, capacity)
    case OutOfAmmo => a
  }

  /** The ledger after n OnFire calls. */
  function Burst(a: Ammo, capacity: uint8, unlimitedAmmo: bool, n: nat): Ammo
  {
    if n == 0 then a else OnFireAmmo(Burst(a, capacity, unlimitedAmmo, n - 1), capacity, unlimitedAmmo)
  }

  /**
   * With limited ammunition, each of the first inMag calls fires one round
   * from a consistent ledger.
   */
  lemma {:induction false} BurstFiresFromMagazine(a: Ammo, capacity: uint8, n: nat)
    requires Consistent(a, capacity)
    requires n <= a.inMag as int
    ensures Burst(a, capacity, false, n).inMag as int == a.inMag as int - n
    ensures Burst(a, capacity, false, n).total as int == a.total as int - n
    ensures n < a.inMag as int ==> OnFireBranch(Burst(a, capacity, false, n)) == FireShot
  {
    if n > 0 {
      BurstFiresFromMagazine(a, capacity, n - 1);
    }
  }

  /**
   * A consistent magazine of k rounds lasts for exactly k shots. The next
   * call then reloads from what is left, or finds the weapon out of ammo.
   */
  lemma MagazineThenReload(a: Ammo, capacity: uint8)
    requires Consistent(a, capacity)
    ensures var emptied := Burst(a, capacity, false, a.inMag as nat);
      && emptied.inMag == 0
      && emptied.total as int == a.total as int - a.inMag as int
      && (emptied.total > 0 ==>
            (OnFireBranch(emptied) == ReloadInstead
             && OnFireAmmo(emptied, capacity, false).inMag as int == Min(capacity as int, emptied.total as int)))
      && (emptied.total == 0 ==> OnFireBranch(emptied) == OutOfAmmo)
  {
    BurstFiresFromMagazine(a, capacity, a.inMag as nat);
  }

  /**
   * With the unlimited-ammo cheat on, every OnFire on a loaded magazine fires
   * and the ledger never moves.
   */
  lemma {:induction false} UnlimitedBurstKeepsLedger(a: Ammo, capacity: uint8, n: nat)
    requires CanConsume(a)
    ensures Burst(a, capacity, true, n) == a
  {
    if n > 0 {
      UnlimitedBurstKeepsLedger(a, capacity, n - 1);
    }
  }

  /**
   * A 30-round magazine with 120 rounds and the unlimited-ammo cheat off
   * fires 30 shots, then its 31st OnFire reloads it to a full magazine out
   * of the 90 rounds left.
   */
  lemma LimitedWeaponFiresThirtyThenReloads()
    ensures Burst(Ammo(30, 120), 30, false, 30) == Ammo(0, 90)
    ensures OnFireBranch(Ammo(0, 90)) == ReloadInstead
    ensures OnFireAmmo(Ammo(0, 90), 30, false) == Ammo(30, 90)
  {
    var full := Ammo(30, 120);
    BurstFiresFromMagazine(full, 30, 30);
    var emptied := Burst(full, 30, false, 30);
    assert emptied.inMag as int == 0 && emptied.total as int == 90;
  }

  /** An empty magazine with 10 rounds owned: OnFire reloads instead of firing. */
  lemma EmptyMagazineReloadsExample()
    ensures OnFireBranch(Ammo(0, 10)) == ReloadInstead
    ensures OnFireAmmo(Ammo(0, 10), 30, false) == Ammo(10, 10)
  {
  }

  /** What HandleWeaponFire does with a fire request. */
  datatype TriggerOutcome = CallOnFire | ReportElapsedTime | Ignore | NullOwnerDereference

  /**
   * HandleWeaponFire as written. When the first test fails, the else-branch
   * reads the fire key through OwningPlayer without checking that it is set.
   */
  function HandleWeaponFireAsWritten(hasOwner: bool, fireKeyPressed: bool, gateOpen: bool): TriggerOutcome
  {
    if hasOwner && fireKeyPressed && gateOpen then CallOnFire
    else if !hasOwner then NullOwnerDereference
    else if fireKeyPressed then ReportElapsedTime
    else Ignore
  }

  /** A weapon with no owner dereferences a null OwningPlayer on every fire request. */
  lemma HandleWeaponFireAsWrittenFaultsWithoutOwner(fireKeyPressed: bool, gateOpen: bool)
    ensures HandleWeaponFireAsWritten(false, fireKeyPressed, gateOpen) == NullOwnerDereference
  {
  }

  /**
   * HandleWeaponFire with the owner tested in the else-branch too. OnFire
   * runs exactly when an owner exists, holds the fire key and passes the
   * gate. The other paths only report or do nothing.
   */
  function HandleWeaponFireDecision(hasOwner: bool, fireKeyPressed: bool, gateOpen: bool): (r: TriggerOutcome)
    ensures r == CallOnFire <==> hasOwner && fireKeyPressed && gateOpen
    ensures r == ReportElapsedTime <==> hasOwner && fireKeyPressed && !gateOpen
    ensures r != NullOwnerDereference
    ensures hasOwner ==> r == HandleWeaponFireAsWritten(hasOwner, fireKeyPressed, gateOpen)
  {
    if hasOwner && fireKeyPressed && gateOpen then CallOnFire
    else if hasOwner && fireKeyPressed then ReportElapsedTime
    else Ignore
  }

  /** What OnFinishFireWeapon does besides lowering the fire key. */
  datatype ReleaseOutcome = ClearFireTimer | NoWeaponEquipped | NullWeaponDereference

  /** OnFinishFireWeapon as written: it reaches the timer handle through EquippedWeapon unchecked. */
  function OnFinishFireWeaponAsWritten(hasEquippedWeapon: bool): ReleaseOutcome
  {
    if hasEquippedWeapon then ClearFireTimer else NullWeaponDereference
  }

  /** Releasing the fire key with no weapon equipped dereferences a null EquippedWeapon. */
  lemma OnFinishFireWeaponAsWrittenFaultsUnarmed()
    ensures OnFinishFireWeaponAsWritten(false) == NullWeaponDereference
  {
  }

  /**
   * OnFinishFireWeapon with the weapon tested first: the timer is cleared
   * exactly when a weapon is equipped, and nothing is dereferenced otherwise.
   */
  function OnFinishFireWeaponDecision(hasEquippedWeapon: bool): (r: ReleaseOutcome)
    ensures r == ClearFireTimer <==> hasEquippedWeapon
    ensures r != NullWeaponDereference
    ensures hasEquippedWeapon ==> r == OnFinishFireWeaponAsWritten(hasEquippedWeapon)
  {
    if hasEquippedWeapon then ClearFireTimer else NoWeaponEquipped
  }
}
