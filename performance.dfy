/**
 * The two performance indicators of `updatePerformanceIndicators`
 * (js/calculator.js:273-293): an efficiency bar scored from the average
 * retrieval time, and a speed bar from the throughput percentage. Each bar has
 * a fill percentage and one of three ratings, shown by a CSS class.
 */
module Performance {

  datatype Rating = Good | Moderate | Poor

  /** One indicator: how full the bar is, in percent, and its rating. */
  datatype Indicator = Indicator(percent: real, rating: Rating)

  /** The CSS class the page gives a rating. */
  function ClassName(r: Rating): string
  {
    match r
    case Good => "performance-good"
    case Moderate => "performance-moderate"
    case Poor => "performance-poor"
  }

  /** The three ratings show as three different classes. */
  lemma ClassNamesDistinct(r1: Rating, r2: Rating)
    ensures ClassName(r1) == ClassName(r2) <==> r1 == r2
  {
    if r1 != r2 {
      assert ClassName(r1)[12] != ClassName(r2)[12];
    }
  }

  /** Ratings ordered from worst (0) to best (2). */
  function Score(r: Rating): nat
  {
    match r
    case Poor => 0
    case Moderate => 1
    case Good => 2
  }

  /**
   * The efficiency indicator for an average retrieval time in seconds. Up to
   * three minutes the bar falls from 100 % to 70 % and is rated good; up to
   * five minutes it falls to 30 % and is rated moderate; beyond that it falls
   * by 5 % a minute, never below 0, and is rated poor.
   */
  function Efficiency(avgTime: real): (ind: Indicator)
    ensures ind.percent >= 0.0
    ensures ind.percent <= 100.0 <==> avgTime >= 0.0
    ensures ind.percent == 0.0 <==> avgTime >= 660.0
    ensures ind.rating == Good <==> avgTime <= 180.0
    ensures ind.rating == Moderate <==> 180.0 < avgTime <= 300.0
    ensures ind.rating == Poor <==> avgTime > 300.0
  {
    var avgTimeMinutes := avgTime / 60.0;
    if avgTimeMinutes <= 3.0 then
      Indicator(100.0 - (avgTimeMinutes / 3.0 * 30.0), Good)
    else if avgTimeMinutes <= 5.0 then
      Indicator(70.0 - ((avgTimeMinutes - 3.0) / 2.0 * 40.0), Moderate)
    else
      var falling := 30.0 - (avgTimeMinutes - 5.0) * 5.0;
      Indicator(if falling >= 0.0 then falling else 0.0, Poor)
  }

  /**
   * The speed indicator for a throughput percentage: the bar shows the
   * percentage capped at 100, rated good above 50 and moderate above 25.
   */
  function Speed(throughputPercent: real): (ind: Indicator)
    ensures ind.percent <= 100.0
    ensures ind.percent <= throughputPercent
    ensures ind.percent == throughputPercent <==> throughputPercent <= 100.0
    ensures ind.percent == 100.0 <==> throughputPercent >= 100.0
    ensures ind.rating == Good <==> throughputPercent > 50.0
    ensures ind.rating == Moderate <==> 25.0 < throughputPercent <= 50.0
    ensures ind.rating == Poor <==> throughputPercent <= 25.0
  {
    var speedPercent := if throughputPercent <= 100.0 then throughputPercent else 100.0;
    var rating := if speedPercent > 50.0 then Good else if speedPercent > 25.0 then Moderate else Poor;
    Indicator(speedPercent, rating)
  }

  /**
   * The three bands meet: the bar reads 100 % at no time, 70 % at exactly
   * three minutes (the last good time), 30 % at exactly five minutes (the last
   * moderate time) and 0 % from eleven minutes on.
   */
  lemma EfficiencyAnchors()
    ensures Efficiency(0.0) == Indicator(100.0, Good)
    ensures Efficiency(180.0) == Indicator(70.0, Good)
    ensures Efficiency(300.0) == Indicator(30.0, Moderate)
    ensures Efficiency(660.0) == Indicator(0.0, Poor)
  {
  }

  /** Each rating of the efficiency bar goes with its own range of fill. */
  lemma EfficiencyBands(avgTime: real)
    requires avgTime >= 0.0
    ensures Efficiency(avgTime).rating == Good ==> 70.0 <= Efficiency(avgTime).percent <= 100.0
    ensures Efficiency(avgTime).rating == Moderate ==> 30.0 <= Efficiency(avgTime).percent < 70.0
    ensures Efficiency(avgTime).rating == Poor ==> Efficiency(avgTime).percent < 30.0
  {
  }

  /**
   * A longer average never raises the efficiency bar nor improves its rating,
   * and the bar falls by at most a third of a percent per second: no band
   * boundary makes it jump.
   */
  lemma EfficiencyAntitone(a: real, b: real)
    requires a <= b
    ensures Efficiency(b).percent <= Efficiency(a).percent
    ensures Efficiency(a).percent - Efficiency(b).percent <= (b - a) / 3.0
    ensures Score(Efficiency(b).rating) <= Score(Efficiency(a).rating)
  {
  }

  /** A higher throughput never lowers the speed bar nor worsens its rating. */
  lemma SpeedMonotone(a: real, b: real)
    requires a <= b
    ensures Speed(a).percent <= Speed(b).percent
    ensures Score(Speed(a).rating) <= Score(Speed(b).rating)
  {
  }
}
