/**
 * The weapon's ammunition ledger: the two uint8 counters
 * CurrentNumRoundsInMag and CurrentNumRoundsTotal, judged against the uint8
 * MagazineCapacity. The total counts every round the weapon owns, including
 * the ones already in the magazine.
 *
 * Every counter is a uint8, and every store into one is a checked conversion
 * here, so each function below is also a proof that the code it models never
 * wraps around.
 */
module AmmoLedger {

  /** The engine's uint8. */
  newtype uint8 = x: int | 0 <= x < 256

  /** The pair (CurrentNumRoundsInMag, CurrentNumRoundsTotal). */
  datatype Ammo = Ammo(inMag: uint8, total: uint8)

  function Min(a: int, b: int): int
  {
    if a <= b then a else b
  }

  /**
   * The ledger's design invariant: the magazine holds no more than its
   * capacity, and its rounds are part of the total.
   */
  predicate Consistent(a: Ammo, capacity: uint8)
  {
    a.inMag <= capacity && a.inMag <= a.total
  }

  /** The guard of ConsumeAmmo: a round is in the magazine and the total is not empty. */
  function CanConsume(a: Ammo): (r: bool)
    // both counters can be decremented without leaving uint8
    ensures r ==> 0 <= a.inMag as int - 1 && 0 <= a.total as int - 1
    ensures !r ==> a.inMag == 0 || a.total == 0
  {
    a.inMag > 0 && a.total > 0
  }

  /** The ledger after ConsumeAmmo. */
  function AfterConsume(a: Ammo): (r: Ammo)
    ensures CanConsume(a) ==> r.inMag as int == a.inMag as int - 1 && r.total as int == a.total as int - 1
    ensures !CanConsume(a) ==> r == a
  {
    if CanConsume(a) then Ammo(a.inMag - 1, a.total - 1) else a
  }

  lemma ConsumeKeepsConsistent(a: Ammo, capacity: uint8)
    requires Consistent(a, capacity)
    ensures Consistent(AfterConsume(a), capacity)
  {
  }

  /**
   * CanReload: the magazine is not full and some owned round is not in it.
   * It reads the two counters and the capacity and nothing else.
   */
  function CanReload(a: Ammo, capacity: uint8): (r: bool)
    // a reload is possible exactly when it would load at least one round
    ensures r <==> 0 < Min(capacity as int - a.inMag as int, a.total as int - a.inMag as int)
  {
    a.inMag < capacity && a.total > a.inMag
  }

  /**
   * NumRoundsToReload: the smaller of the rounds missing from the magazine
   * and the owned rounds outside it, both computed as int32.
   */
  function RoundsToReload(a: Ammo, capacity: uint8): (n: int)
    requires CanReload(a, capacity)
    ensures 0 < n <= capacity as int - a.inMag as int
    ensures n <= a.total as int - a.inMag as int
    ensures n == capacity as int - a.inMag as int || n == a.total as int - a.inMag as int
  {
    Min(capacity as int - a.inMag as int, a.total as int - a.inMag as int)
  }

  /** The ledger after Reload. */
  function AfterReload(a: Ammo, capacity: uint8): (r: Ammo)
    // a reload fills the magazine to full, or with every round that is left
    ensures CanReload(a, capacity) ==> r.inMag as int == Min(capacity as int, a.total as int)
    ensures r.total == a.total
    // a rejected reload changes nothing
    ensures !CanReload(a, capacity) ==> r == a
    // after a reload there is nothing more to reload
    ensures !CanReload(r, capacity)
    ensures Consistent(a, capacity) ==> Consistent(r, capacity)
  {
    if CanReload(a, capacity) then
      Ammo((a.inMag as int + RoundsToReload(a, capacity)) as uint8, a.total)
    else
      a
  }

  /** Reloading twice is reloading once. */
  lemma ReloadIdempotent(a: Ammo, capacity: uint8)
    ensures AfterReload(AfterReload(a, capacity), capacity) == AfterReload(a, capacity)
  {
  }

  /** An empty magazine with 50 rounds owned and room for 30 reloads to 30 and keeps 50. */
  lemma ReloadEmptyMagazineExample()
    ensures AfterReload(Ammo(0, 50), 30) == Ammo(30, 50)
  {
  }

  /** 25 of 30 loaded and 25 owned: nothing is outside the magazine, so the reload is rejected. */
  lemma ReloadWithNoReserveExample()
    ensures !CanReload(Ammo(25, 25), 30)
    ensures AfterReload(Ammo(25, 25), 30) == Ammo(25, 25)
  {
  }

  /** One call into the ledger: ConsumeAmmo or Reload. */
  datatype LedgerCall = ConsumeCall | ReloadCall

  function Apply(a: Ammo, capacity: uint8, call: LedgerCall): Ammo
  {
    match call
    case ConsumeCall => AfterConsume(a)
    case ReloadCall => AfterReload(a, capacity)
  }

  /** The ledger after a series of calls, the first call first. */
  function Replay(a: Ammo, capacity: uint8, calls: seq<LedgerCall>): Ammo
    decreases |calls|
  {
    if calls == [] then a else Replay(Apply(a, capacity, calls[0]), capacity, calls[1..])
  }

  /** How many of the calls actually consumed a round. */
  function RoundsConsumed(a: Ammo, capacity: uint8, calls: seq<LedgerCall>): nat
    decreases |calls|
  {
    if calls == [] then 0
    else
      (if calls[0] == ConsumeCall && CanConsume(a) then 1 else 0)
        + RoundsConsumed(Apply(a, capacity, calls[0]), capacity, calls[1..])
  }

  /** The invariant holds after every series of ConsumeAmmo and Reload calls. */
  lemma {:induction false} ReplayKeepsConsistent(a: Ammo, capacity: uint8, calls: seq<LedgerCall>)
    requires Consistent(a, capacity)
    ensures Consistent(Replay(a, capacity, calls), capacity)
    decreases |calls|
  {
    if calls != [] {
      var b := Apply(a, capacity, calls[0]);
      if calls[0] == ConsumeCall {
        ConsumeKeepsConsistent(a, capacity);
      }
      ReplayKeepsConsistent(b, capacity, calls[1..]);
    }
  }

  /**
   * The total drops by exactly the number of rounds consumed: a reload moves
   * rounds into the magazine and never creates any.
   */
  lemma {:induction false} ReplayAccountsForEveryRound(a: Ammo, capacity: uint8, calls: seq<LedgerCall>)
    ensures Replay(a, capacity, calls).total as int == a.total as int - RoundsConsumed(a, capacity, calls)
    decreases |calls|
  {
    if calls != [] {
      ReplayAccountsForEveryRound(Apply(a, capacity, calls[0]), capacity, calls[1..]);
    }
  }
}
