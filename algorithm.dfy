/**
 * The delta algorithm of the vehicle-counting engine: from the current and
 * previous readings of a lane's two cyclic 7-bit counters (and each sensor's
 * inactivity streak and previous contribution) it computes how many vehicles
 * passed and the new bookkeeping of both sensors.
 *
 * Inputs are JavaScript numbers holding integers; nothing forces them into the
 * counter range, so the function is total over `int` and the lemmas state
 * their range assumptions.
 */
module CountingAlgorithm {

  /** The firmware counters count modulo 128; 128 itself is the reset sentinel. */
  const Modulus: int := 128

  /** The inactivity streak saturates here. */
  const MaxInactive: int := 127

  /** What the algorithm is given about one sensor. */
  datatype Sensor = Sensor(current: int, previous: int, inactive: int, prevChange: int)

  /** What it returns: sensor 1 is the front sensor, sensor 2 the back one. */
  datatype Results = Results(
    totalChange: int,
    sensor1Inactive: int,
    sensor2Inactive: int,
    sensor1PrevChange: int,
    sensor2PrevChange: int)

  predicate IsCounter(c: int) {
    0 <= c < Modulus
  }

  function Max(a: int, b: int): int {
    if a > b then a else b
  }

  /** The wrap-aware difference of one counter (getDifference). */
  function Difference(s: Sensor): (d: int)
    ensures IsCounter(s.current) && IsCounter(s.previous) ==>
              IsCounter(d) && d == (s.current - s.previous) % Modulus
    ensures d == 0 <==> s.current == s.previous || s.current + Modulus == s.previous
  {
    if s.current >= s.previous then s.current - s.previous
    else (Modulus + s.current) - s.previous
  }

  /** The inactivity streak after one more idle cycle, saturating (getInactiveCount). */
  function InactiveCount(s: Sensor): (n: int)
    ensures n <= MaxInactive
    ensures n == s.inactive + 1 || n == MaxInactive
    ensures 0 <= s.inactive ==> 1 <= n
    ensures s.inactive < MaxInactive ==> n == s.inactive + 1
  {
    var n := s.inactive + 1;
    if n > MaxInactive then MaxInactive else n
  }

  /**
   * What a sensor contributes before the stall-breaking rule: its raw
   * difference, unless it shows no change or entered the cycle with an
   * inactivity streak.
   */
  function Contribution(s: Sensor): int {
    if s.inactive > 0 || Difference(s) == 0 then 0 else Difference(s)
  }

  /** Both sensors contribute nothing and contributed nothing last cycle. */
  predicate Stalled(s1: Sensor, s2: Sensor) {
    Contribution(s1) == 0 && Contribution(s2) == 0 && s1.prevChange == 0 && s2.prevChange == 0
  }

  /**
   * One reconciliation cycle of both sensors (Process). Each recorded change
   * is that sensor's contribution, except in a stalled cycle, where both
   * sensors are credited one unit; the lane delta is the larger of the two
   * recorded changes, never their sum.
   */
  function Process(s1: Sensor, s2: Sensor): (r: Results)
    ensures r.totalChange == Max(r.sensor1PrevChange, r.sensor2PrevChange)
    ensures Stalled(s1, s2) ==> r.sensor1PrevChange == 1 && r.sensor2PrevChange == 1
    ensures !Stalled(s1, s2) ==>
      r.sensor1PrevChange == Contribution(s1) && r.sensor2PrevChange == Contribution(s2)
  {
    var delta1 := Difference(s1);
    var delta2 := Difference(s2);
    var inactive1 := if delta1 == 0 then InactiveCount(s1) else s1.inactive;
    var inactive2 := if delta2 == 0 then InactiveCount(s2) else s2.inactive;
    var adjusted1 := if inactive1 > 0 then 0 else delta1;
    var adjusted2 := if inactive2 > 0 then 0 else delta2;
    var forced := adjusted1 == 0 && adjusted2 == 0 && s1.prevChange == 0 && s2.prevChange == 0;
    var final1 := if forced then 1 else adjusted1;
    var final2 := if forced then 1 else adjusted2;
    Results(
      if final1 > final2 then final1 else final2,
      if delta1 != 0 then 0 else inactive1,
      if delta2 != 0 then 0 else inactive2,
      final1,
      final2)
  }

  /** A sensor that entered the cycle with an inactivity streak is credited at most the forced unit. */
  lemma InactiveSensorSuppressed(s1: Sensor, s2: Sensor)
    requires s1.inactive > 0
    ensures Process(s1, s2).sensor1PrevChange == (if Stalled(s1, s2) then 1 else 0)
  {
  }

  /** A real counter change clears the streak; no change extends it, saturating. */
  lemma InactivityStreaks(s1: Sensor, s2: Sensor)
    ensures var r := Process(s1, s2);
      (Difference(s1) != 0 ==> r.sensor1Inactive == 0)
      && (Difference(s1) == 0 ==> r.sensor1Inactive == InactiveCount(s1))
      && (Difference(s2) != 0 ==> r.sensor2Inactive == 0)
      && (Difference(s2) == 0 ==> r.sensor2Inactive == InactiveCount(s2))
  {
  }

  predicate InRange(s: Sensor) {
    IsCounter(s.current) && IsCounter(s.previous) && 0 <= s.inactive
  }

  /** For counters in range, every output is in 0..127 and the lane delta is never negative. */
  lemma ResultsInRange(s1: Sensor, s2: Sensor)
    requires InRange(s1) && InRange(s2)
    ensures var r := Process(s1, s2);
      0 <= r.totalChange < Modulus
      && 0 <= r.sensor1PrevChange < Modulus && 0 <= r.sensor2PrevChange < Modulus
      && 0 <= r.sensor1Inactive <= MaxInactive && 0 <= r.sensor2Inactive <= MaxInactive
      && (Difference(s1) == 0 ==> r.sensor1Inactive >= 1)
      && (Difference(s2) == 0 ==> r.sensor2Inactive >= 1)
  {
  }

  /**
   * The stall-breaking credit cannot fire in two consecutive cycles: once it
   * fired, a further cycle in which neither sensor contributes adds nothing.
   */
  lemma ForcedCreditNotTwice(s1: Sensor, s2: Sensor, t1: Sensor, t2: Sensor)
    requires Stalled(s1, s2)
    requires t1.prevChange == Process(s1, s2).sensor1PrevChange
    requires t2.prevChange == Process(s1, s2).sensor2PrevChange
    requires Contribution(t1) == 0 && Contribution(t2) == 0
    ensures Process(t1, t2).totalChange == 0
  {
  }

  /** The worked examples of the algorithm's unit tests. */
  lemma TestVectors()
    ensures Process(Sensor(1, 0, 0, 0), Sensor(1, 0, 0, 0)) == Results(1, 0, 0, 1, 1)
    ensures Process(Sensor(1, 0, 0, 0), Sensor(0, 0, 0, 0)) == Results(1, 0, 1, 1, 0)
    ensures Process(Sensor(0, 0, 0, 0), Sensor(1, 0, 0, 0)) == Results(1, 1, 0, 0, 1)
    ensures Process(Sensor(2, 0, 0, 0), Sensor(0, 0, 0, 0)) == Results(2, 0, 1, 2, 0)
    ensures Process(Sensor(0, 0, 0, 0), Sensor(2, 0, 0, 0)) == Results(2, 1, 0, 0, 2)
    ensures Process(Sensor(2, 0, 0, 0), Sensor(1, 0, 0, 0)) == Results(2, 0, 0, 2, 1)
    ensures Process(Sensor(1, 0, 0, 0), Sensor(2, 0, 0, 0)) == Results(2, 0, 0, 1, 2)
    ensures Process(Sensor(1, 0, 1, 0), Sensor(1, 1, 0, 1)) == Results(0, 0, 1, 0, 0)
    ensures Process(Sensor(1, 1, 0, 1), Sensor(1, 0, 1, 0)) == Results(0, 1, 0, 0, 0)
    ensures Process(Sensor(2, 1, 1, 0), Sensor(1, 1, 0, 0)) == Results(1, 0, 1, 1, 1)
    ensures Process(Sensor(1, 1, 0, 0), Sensor(2, 1, 1, 0)) == Results(1, 1, 0, 1, 1)
    ensures Process(Sensor(1, 126, 0, 0), Sensor(0, 0, 0, 0)) == Results(3, 0, 1, 3, 0)
    ensures Process(Sensor(0, 0, 0, 0), Sensor(1, 126, 0, 0)) == Results(3, 1, 0, 0, 3)
    ensures Process(Sensor(0, 0, 0, 0), Sensor(0, 0, 0, 0)) == Results(1, 1, 1, 1, 1)
    ensures Process(Sensor(0, 0, 1, 1), Sensor(0, 0, 1, 1)).totalChange == 0
  {
  }
}
