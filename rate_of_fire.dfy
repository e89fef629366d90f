/**
 * The rate-of-fire gate, AFPSWeapon::WeaponCanFireAgain. Game time is a
 * real number of seconds.
 *
 * The gate has two clauses. The first compares the elapsed time measured from
 * its LastTimeFired argument with the minimum interval. The second, the
 * jitter tolerance, measures the elapsed time from the weapon's LastFireTime
 * member instead. The model keeps both times apart. The one call site passes
 * LastFireTime for LastTimeFired, and GateAtCallSite gives the gate's meaning
 * there.
 */
module RateOfFire {
  import opened EngineMath

  /**
   * WeaponCanFireAgain(now, lastTimeFired, minTimeBetweenShots), reading the
   * weapon's LastFireTime and RateOfFireForgiveness.
   */
  function CanFireAgain(now: real, lastTimeFired: real, lastFireTime: real,
                         minTimeBetweenShots: real, forgiveness: real): (r: bool)
    // the gate never opens before the interval minus the forgiveness has
    // passed since one of the two times
    ensures r ==> now - lastTimeFired >= minTimeBetweenShots
                  || now - lastFireTime >= minTimeBetweenShots - forgiveness
    // a negative forgiveness switches the jitter tolerance off
    ensures forgiveness < 0.0 ==> (r <==> now - lastTimeFired >= minTimeBetweenShots)
  {
    now - lastTimeFired >= minTimeBetweenShots
    || IsNearlyEqual(now - lastFireTime, minTimeBetweenShots, forgiveness)
  }

  /**
   * The two ways through the gate, written out: a full interval since
   * lastTimeFired, or an elapsed time since lastFireTime inside the closed
   * band of half-width forgiveness around the interval.
   */
  lemma CanFireAgainCases(now: real, lastTimeFired: real, lastFireTime: real,
                          minTimeBetweenShots: real, forgiveness: real)
    ensures CanFireAgain(now, lastTimeFired, lastFireTime, minTimeBetweenShots, forgiveness)
        <==> now - lastTimeFired >= minTimeBetweenShots
             || (minTimeBetweenShots - forgiveness <= now - lastFireTime
                 && now - lastFireTime <= minTimeBetweenShots + forgiveness)
  {
    IsNearlyEqualBand(now - lastFireTime, minTimeBetweenShots, forgiveness);
  }

  /**
   * At the call site both times are LastFireTime. For a non-negative
   * forgiveness the gate then opens exactly when at least the interval minus
   * the forgiveness has elapsed.
   */
  lemma GateAtCallSite(now: real, lastFireTime: real, minTimeBetweenShots: real, forgiveness: real)
    requires forgiveness >= 0.0
    ensures CanFireAgain(now, lastFireTime, lastFireTime, minTimeBetweenShots, forgiveness)
        <==> now - lastFireTime >= minTimeBetweenShots - forgiveness
  {
    CanFireAgainCases(now, lastFireTime, lastFireTime, minTimeBetweenShots, forgiveness);
  }

  /**
   * A re-fire timer that goes off exactly one interval after the last shot
   * always passes the gate, whatever time is passed as lastTimeFired.
   */
  lemma OpensOnSchedule(lastTimeFired: real, lastFireTime: real, minTimeBetweenShots: real, forgiveness: real)
    requires forgiveness >= 0.0
    ensures CanFireAgain(lastFireTime + minTimeBetweenShots, lastTimeFired, lastFireTime,
                         minTimeBetweenShots, forgiveness)
  {
    IsNearlyEqualBand(minTimeBetweenShots, minTimeBetweenShots, forgiveness);
  }

  /** A timer that goes off early by no more than the forgiveness still passes. */
  lemma AdmitsEarlyTimer(lastFireTime: real, minTimeBetweenShots: real, forgiveness: real, early: real)
    requires 0.0 <= early <= forgiveness
    ensures CanFireAgain(lastFireTime + minTimeBetweenShots - early, lastFireTime, lastFireTime,
                         minTimeBetweenShots, forgiveness)
  {
    GateAtCallSite(lastFireTime + minTimeBetweenShots - early, lastFireTime, minTimeBetweenShots, forgiveness);
  }

  /** A request earlier than the interval minus the forgiveness is refused. */
  lemma RefusesEarlyRequest(now: real, lastFireTime: real, minTimeBetweenShots: real, forgiveness: real)
    requires forgiveness >= 0.0
    requires now - lastFireTime < minTimeBetweenShots - forgiveness
    ensures !CanFireAgain(now, lastFireTime, lastFireTime, minTimeBetweenShots, forgiveness)
  {
    GateAtCallSite(now, lastFireTime, minTimeBetweenShots, forgiveness);
  }

  /** A larger forgiveness admits every time a smaller one admits. */
  lemma ForgivenessMonotone(now: real, lastTimeFired: real, lastFireTime: real,
                            minTimeBetweenShots: real, smaller: real, larger: real)
    requires smaller <= larger
    requires CanFireAgain(now, lastTimeFired, lastFireTime, minTimeBetweenShots, smaller)
    ensures CanFireAgain(now, lastTimeFired, lastFireTime, minTimeBetweenShots, larger)
  {
  }
}
