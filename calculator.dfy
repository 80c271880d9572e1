/**
 * One press of "calculate" (js/calculator.js:152-213 and 216-234): read the
 * form, resolve the level heights, estimate the times and score the two
 * indicators.
 */
module Calculator {
  import opened Params
  import LevelHeights
  import Estimator
  import Performance

  /** Everything one calculation puts on the page. */
  datatype Report = Report(
    params: Params,
    levels: LevelHeights.LevelData,
    metrics: Estimator.Metrics,
    efficiency: Performance.Indicator,
    speed: Performance.Indicator)

  /**
   * Runs the calculation on one reading of the form. With no negative measure
   * every step is defined (a level count that is not positive contributes no
   * levels), the times are ordered and positive, and the bars are
   * scored from the times they show.
   */
  method Calculate(raw: RawInput) returns (report: Report)
    requires NoNegativeMeasures(raw)
    ensures report.params == Normalize(raw)
    ensures report.levels == LevelHeights.LevelHeights(report.params)
    ensures Admissible(report.params) && report.levels.totalHeight >= 0.0
    ensures report.metrics == Estimator.Estimate(report.params, report.levels.totalHeight)
    ensures report.metrics.totalHeight == report.levels.totalHeight
    ensures report.params.levelsAbove <= 0 ==> report.levels.totalAboveHeight == 0.0
    ensures report.params.levelsBelow <= 0 ==> report.levels.totalBelowHeight == 0.0
    ensures 0.0 < report.metrics.minTime < report.metrics.avgTime < report.metrics.maxTime
    ensures report.efficiency == Performance.Efficiency(report.metrics.avgTime)
    ensures report.speed == Performance.Speed(report.metrics.throughputPercent)
    ensures 0.0 <= report.efficiency.percent <= 100.0
    ensures 0.0 < report.speed.percent <= 100.0
  {
    var params := Normalize(raw);
    assert Admissible(params) && HeightsNonNegative(params) by {
      NormalizeAdmissible(raw);
    }
    var levelData := LevelHeights.CalculateLevelHeights(params);
    assert levelData.totalHeight >= 0.0 by {
      LevelHeights.TotalHeightNonNegative(params);
    }
    var results := Estimator.Estimate(params, levelData.totalHeight);
    assert && results.totalHeight == levelData.totalHeight
           && 0.0 < results.minTime < results.avgTime < results.maxTime
           && results.throughputPercent > 0.0 by {
      Estimator.TimesOrdered(params, levelData.totalHeight);
    }
    var efficiency := Performance.Efficiency(results.avgTime);
    var speed := Performance.Speed(results.throughputPercent);
    report := Report(params, levelData, results, efficiency, speed);
  }
}
