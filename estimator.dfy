/**
 * The retrieval-time estimator: the arithmetic of `calculate`
 * (js/calculator.js:157-191), over exact reals.
 *
 * One retrieval costs a fixed overhead, a traverse (the mean of two
 * distances), a half turn of the turntable and a lift. The minimum counts a
 * tenth of the lift; the maximum counts all of it and is then scaled by the
 * tower type's complexity factor.
 */
module Estimator {
  import opened Params
  import TowerConfig

  /** The figures `calculate` hands to `updateResults`; times in s, height in mm. */
  datatype Metrics = Metrics(
    minTime: real,
    maxTime: real,
    avgTime: real,
    totalTimeSeconds: real,
    totalTimeHours: real,
    carsPerHour: real,
    throughputPercent: real,
    baseTime: real,
    totalLiftingTime: real,
    avgTraversingTime: real,
    rotationTime: real,
    totalHeight: real)

  /**
   * Seconds to cover `distance` mm at `speed` m/min: the distance in metres
   * over the speed in m/s.
   */
  function TravelTime(distance: real, speed: real): (t: real)
    requires distance >= 0.0 && speed > 0.0
    ensures t >= 0.0
    ensures t == 0.06 * distance / speed
    ensures distance > 0.0 ==> t > 0.0
  {
    (distance / 1000.0) / (speed / 60.0)
  }

  /** Seconds for the turntable's half turn at `rpm` revolutions per minute. */
  function HalfTurnTime(rpm: real): (t: real)
    requires rpm > 0.0
    ensures t > 0.0
    ensures t == 30.0 / rpm
  {
    (180.0 / 360.0) / (rpm / 60.0)
  }

  /** A longer way at the same speed takes no less time. */
  lemma TravelTimeMonotone(d1: real, d2: real, speed: real)
    requires 0.0 <= d1 <= d2 && speed > 0.0
    ensures TravelTime(d1, speed) <= TravelTime(d2, speed)
    ensures TravelTime(d2, speed) - TravelTime(d1, speed) == TravelTime(d2 - d1, speed)
  {
  }

  /** The fixed overhead of one retrieval: the five configured durations, never negative when none of them is. */
  function BaseTime(p: Params): (t: real)
    ensures (&& p.doorTime >= 0.0 && p.processingTime >= 0.0 && p.additionalTime >= 0.0
             && p.liftingAddTime >= 0.0 && p.traversingAddTime >= 0.0)
            ==> t >= p.doorTime && t >= 0.0
  {
    p.doorTime + p.processingTime + p.additionalTime + p.liftingAddTime + p.traversingAddTime
  }

  /**
   * The times and throughput for parameters `p` and a resolved total height in
   * mm: the minimum is positive and strictly below the maximum, the average is
   * their midpoint, and the hourly rate and throughput are positive.
   */
  function Estimate(p: Params, totalHeight: real): (m: Metrics)
    requires Admissible(p) && totalHeight >= 0.0
    ensures m.totalHeight == totalHeight
    ensures 0.0 < m.minTime < m.avgTime < m.maxTime
    ensures m.avgTime == (m.minTime + m.maxTime) / 2.0
    ensures m.carsPerHour > 0.0 && m.throughputPercent > 0.0
    ensures m.totalTimeSeconds == m.avgTime * p.numberOfCars as real
    ensures m.totalTimeHours * 3600.0 == m.totalTimeSeconds
    ensures m.carsPerHour * m.avgTime == 3600.0
    ensures m.throughputPercent * m.totalTimeSeconds == 360000.0
    ensures m.totalTimeHours * m.carsPerHour == p.numberOfCars as real
    ensures m.throughputPercent * p.numberOfCars as real == m.carsPerHour * 100.0
  {
    var traversingTime1 := TravelTime(p.traversingDistance1, p.traversingSpeed);
    var traversingTime2 := TravelTime(p.traversingDistance2, p.traversingSpeed);
    Assemble(BaseTime(p), TravelTime(totalHeight, p.liftingSpeed), (traversingTime1 + traversingTime2) / 2.0,
             HalfTurnTime(p.turnTableSpeed), TowerConfig.ComplexityFactor(p.towerType),
             p.numberOfCars as real, totalHeight)
  }

  /**
   * The cycle-time arithmetic for given component times, complexity factor and
   * number of cars. The minimum is positive and strictly below the maximum, and
   * the average is their midpoint.
   */
  function Assemble(baseTime: real, totalLiftingTime: real, avgTraversingTime: real, rotationTime: real,
                    complexityFactor: real, cars: real, totalHeight: real): (m: Metrics)
    requires baseTime >= 0.0 && totalLiftingTime >= 0.0 && avgTraversingTime >= 0.0 && rotationTime > 0.0
    requires complexityFactor > 1.0 && cars > 0.0
    ensures 0.0 < baseTime + rotationTime <= m.minTime < m.avgTime < m.maxTime
    ensures m.avgTime == (m.minTime + m.maxTime) / 2.0
    ensures m.maxTime == Scaled(m.minTime + 0.9 * totalLiftingTime, complexityFactor)
    ensures m.totalTimeSeconds == m.avgTime * cars
    ensures m.totalTimeHours * 3600.0 == m.totalTimeSeconds
    ensures m.carsPerHour * m.avgTime == 3600.0
    ensures m.throughputPercent * m.totalTimeSeconds == 360000.0
    ensures m.totalTimeHours * m.carsPerHour == cars
    ensures m.throughputPercent * cars == m.carsPerHour * 100.0
    ensures m.carsPerHour > 0.0 && m.throughputPercent > 0.0
  {
    var minTime := baseTime + totalLiftingTime * 0.1 + avgTraversingTime + rotationTime;
    var whole := baseTime + totalLiftingTime + avgTraversingTime + rotationTime;
    var maxTime := Scaled(whole, complexityFactor);
    ScaleGrows(whole, complexityFactor);
    assert minTime <= whole < maxTime;
    var avgTime := (minTime + maxTime) / 2.0;
    var totalTimeSeconds := avgTime * cars;
    var totalTimeHours := totalTimeSeconds / 3600.0;
    var carsPerHour := 3600.0 / avgTime;
    var throughputPercent := (carsPerHour / cars) * 100.0;
    BatchIdentities(avgTime, cars, totalTimeSeconds, totalTimeHours, carsPerHour, throughputPercent);
    Metrics(minTime, maxTime, avgTime, totalTimeSeconds, totalTimeHours, carsPerHour, throughputPercent,
            baseTime, totalLiftingTime, avgTraversingTime, rotationTime, totalHeight)
  }

  /**
   * The batch figures for `cars` cars of `avgTime` seconds each: the batch
   * time in seconds and hours; `carsPerHour` cars of `avgTime` fill an hour;
   * the throughput percentage times the batch time is 100 hours' worth of
   * seconds; the hours times the hourly rate give back the number of cars.
   */
  lemma BatchIdentities(avgTime: real, cars: real, totalTimeSeconds: real, totalTimeHours: real,
                        carsPerHour: real, throughputPercent: real)
    requires avgTime > 0.0 && cars > 0.0
    requires totalTimeSeconds == avgTime * cars && totalTimeHours == totalTimeSeconds / 3600.0
    requires carsPerHour == 3600.0 / avgTime && throughputPercent == (carsPerHour / cars) * 100.0
    ensures totalTimeHours * 3600.0 == totalTimeSeconds
    ensures carsPerHour * avgTime == 3600.0
    ensures throughputPercent * totalTimeSeconds == 360000.0
    ensures totalTimeHours * carsPerHour == cars
    ensures throughputPercent * cars == carsPerHour * 100.0
    ensures carsPerHour > 0.0 && throughputPercent > 0.0
  {
    assert carsPerHour * avgTime == 3600.0;
    assert throughputPercent * cars == carsPerHour * 100.0;
    calc {
      throughputPercent * totalTimeSeconds;
      throughputPercent * (avgTime * cars);
      (throughputPercent * cars) * avgTime;
      (carsPerHour * 100.0) * avgTime;
      (carsPerHour * avgTime) * 100.0;
    }
    calc {
      totalTimeHours * carsPerHour;
      (avgTime * cars / 3600.0) * carsPerHour;
      (carsPerHour * avgTime) * cars / 3600.0;
    }
    QuotientPositive(3600.0, avgTime);
    QuotientPositive(carsPerHour, cars);
  }

  // ----- arithmetic helpers -----

  lemma QuotientPositive(a: real, b: real)
    requires a > 0.0 && b > 0.0
    ensures a / b > 0.0
  {
  }

  /** `x` scaled by the factor `f`. */
  function Scaled(x: real, f: real): real
  {
    x * f
  }

  /** Scaling a positive quantity by a factor above 1 makes it larger. */
  lemma ScaleGrows(x: real, f: real)
    requires x > 0.0 && f > 1.0
    ensures Scaled(x, f) > x
  {
    assert x * f - x == x * (f - 1.0);
  }

  // ----- what the estimate promises -----

  /**
   * The estimate is made of the component times: the fixed overhead, the lift
   * of the whole height, the mean of the two traverses and one half turn; the
   * maximum adds the other nine tenths of the lift to the minimum and scales
   * the lot by the tower's complexity factor. The minimum is positive and
   * strictly below the maximum, and the average is their midpoint.
   */
  lemma TimesOrdered(p: Params, totalHeight: real)
    requires Admissible(p) && totalHeight >= 0.0
    ensures var m := Estimate(p, totalHeight);
      && m.baseTime == BaseTime(p)
      && m.totalLiftingTime == TravelTime(totalHeight, p.liftingSpeed)
      && m.avgTraversingTime == (TravelTime(p.traversingDistance1, p.traversingSpeed)
                                 + TravelTime(p.traversingDistance2, p.traversingSpeed)) / 2.0
      && m.rotationTime == HalfTurnTime(p.turnTableSpeed)
      && m.minTime == m.baseTime + m.totalLiftingTime / 10.0 + m.avgTraversingTime + m.rotationTime
      && m.maxTime == Scaled(m.minTime + 0.9 * m.totalLiftingTime, TowerConfig.ComplexityFactor(p.towerType))
      && 0.0 < m.minTime < m.avgTime < m.maxTime
      && m.avgTime == (m.minTime + m.maxTime) / 2.0
  {
  }

  /** A taller tower never shortens the retrieval times nor raises the throughput. */
  lemma HeightMonotone(p: Params, h1: real, h2: real)
    requires Admissible(p) && 0.0 <= h1 <= h2
    ensures Estimate(p, h1).minTime <= Estimate(p, h2).minTime
    ensures Estimate(p, h1).maxTime <= Estimate(p, h2).maxTime
    ensures Estimate(p, h1).avgTime <= Estimate(p, h2).avgTime
    ensures Estimate(p, h1).throughputPercent >= Estimate(p, h2).throughputPercent
  {
    TravelTimeMonotone(h1, h2, p.liftingSpeed);
    var t1 := TravelTime(p.traversingDistance1, p.traversingSpeed);
    var t2 := TravelTime(p.traversingDistance2, p.traversingSpeed);
    LiftMonotone(BaseTime(p), TravelTime(h1, p.liftingSpeed), TravelTime(h2, p.liftingSpeed), (t1 + t2) / 2.0,
                 HalfTurnTime(p.turnTableSpeed), TowerConfig.ComplexityFactor(p.towerType),
                 p.numberOfCars as real, h1, h2);
  }

  /** `Assemble` with a longer lift and everything else equal. */
  lemma LiftMonotone(baseTime: real, lift1: real, lift2: real, avgTraversingTime: real, rotationTime: real,
                     complexityFactor: real, cars: real, h1: real, h2: real)
    requires baseTime >= 0.0 && 0.0 <= lift1 <= lift2 && avgTraversingTime >= 0.0 && rotationTime > 0.0
    requires complexityFactor > 1.0 && cars > 0.0
    ensures var m1 := Assemble(baseTime, lift1, avgTraversingTime, rotationTime, complexityFactor, cars, h1);
      var m2 := Assemble(baseTime, lift2, avgTraversingTime, rotationTime, complexityFactor, cars, h2);
      && m1.minTime <= m2.minTime && m1.maxTime <= m2.maxTime && m1.avgTime <= m2.avgTime
      && m1.throughputPercent >= m2.throughputPercent
  {
    var m1 := Assemble(baseTime, lift1, avgTraversingTime, rotationTime, complexityFactor, cars, h1);
    var m2 := Assemble(baseTime, lift2, avgTraversingTime, rotationTime, complexityFactor, cars, h2);
    ScaleMonotone(m1.minTime + 0.9 * lift1, m2.minTime + 0.9 * lift2, complexityFactor);
    ThroughputAntitone(m1.avgTime, m2.avgTime, cars, m1.throughputPercent, m2.throughputPercent);
  }

  /** Scaling by a non-negative factor keeps the order. */
  lemma ScaleMonotone(x: real, y: real, f: real)
    requires x <= y && f >= 0.0
    ensures Scaled(x, f) <= Scaled(y, f)
  {
    assert y * f - x * f == (y - x) * f;
  }

  /** From `percent * avg * n == 360000`, a longer average means a smaller percentage. */
  lemma ThroughputAntitone(a1: real, a2: real, n: real, t1: real, t2: real)
    requires 0.0 < a1 <= a2 && n > 0.0
    requires t1 * (a1 * n) == 360000.0 && t2 * (a2 * n) == 360000.0
    ensures t1 >= t2
  {
    assert t1 == 360000.0 / (a1 * n);
    assert t2 == 360000.0 / (a2 * n);
    assert a1 * n <= a2 * n;
  }

  /** With the factory defaults, no levels and the "1+1" tower, one retrieval averages 107.356 s. */
  lemma DefaultsExample(p: Params)
    requires p.liftingSpeed == 60.0 && p.traversingSpeed == 20.0 && p.turnTableSpeed == 2.2
    requires p.traversingDistance1 == 2270.0 && p.traversingDistance2 == 2370.0
    requires p.doorTime == 20.0 && p.processingTime == 20.0 && p.additionalTime == 20.0
    requires p.liftingAddTime == 12.0 && p.traversingAddTime == 5.0
    requires p.towerType == "1+1" && p.numberOfCars == 70
    ensures Estimate(p, 0.0).baseTime == 77.0
    ensures Estimate(p, 0.0).avgTraversingTime == 6.96
    ensures Estimate(p, 0.0).maxTime == 1.2 * Estimate(p, 0.0).minTime
    ensures Estimate(p, 0.0).avgTime == 107.356
  {
    TowerConfig.UnknownTypeIsOnePlusOne("");
    var m := Estimate(p, 0.0);
    assert m.rotationTime == 150.0 / 11.0;
  }
}
