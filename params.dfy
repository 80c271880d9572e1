/**
 * The parameter record the calculator works on, and the rule that turns the
 * parsed form fields into it: every numeric field is `parsed || default`, so a
 * field that does not parse, and a field that parses to 0, both take the
 * field's default (js/calculator.js:48-73).
 */
module Params {
  import opened Wrappers

  /** The record `getInputValues` returns; heights and distances in mm, speeds in m/min, times in s. */
  datatype Params = Params(
    levelsAbove: int,
    levelsBelow: int,
    aboveHeight1: real,
    enableCombos: bool,
    aboveHeight2: real,
    aboveCount2: int,
    aboveHeight3: real,
    aboveCount3: int,
    belowHeight: real,
    liftingSpeed: real,
    traversingSpeed: real,
    turnTableSpeed: real,
    traversingDistance1: real,
    traversingDistance2: real,
    doorTime: real,
    additionalTime: real,
    processingTime: real,
    liftingAddTime: real,
    traversingAddTime: real,
    towerType: string,
    numberOfCars: int)

  /**
   * What the form yields before the fallback rule: the result of `parseInt`
   * or `parseFloat` on each numeric field (None for NaN), the checkbox, and
   * the text of the tower-type selector.
   */
  datatype RawInput = RawInput(
    levelsAbove: Option<int>,
    levelsBelow: Option<int>,
    aboveHeight1: Option<real>,
    enableCombos: bool,
    aboveHeight2: Option<real>,
    aboveCount2: Option<int>,
    aboveHeight3: Option<real>,
    aboveCount3: Option<int>,
    belowHeight: Option<real>,
    liftingSpeed: Option<real>,
    traversingSpeed: Option<real>,
    turnTableSpeed: Option<real>,
    traversingDistance1: Option<real>,
    traversingDistance2: Option<real>,
    doorTime: Option<real>,
    additionalTime: Option<real>,
    processingTime: Option<real>,
    liftingAddTime: Option<real>,
    traversingAddTime: Option<real>,
    towerType: string,
    numberOfCars: Option<int>)

  const DEFAULT_LEVELS_ABOVE: int := 0
  const DEFAULT_LEVELS_BELOW: int := 0
  const DEFAULT_ABOVE_HEIGHT_1: real := 2100.0
  const DEFAULT_ABOVE_HEIGHT_2: real := 1900.0
  const DEFAULT_ABOVE_COUNT_2: int := 0
  const DEFAULT_ABOVE_HEIGHT_3: real := 2200.0
  const DEFAULT_ABOVE_COUNT_3: int := 0
  const DEFAULT_BELOW_HEIGHT: real := 2000.0
  const DEFAULT_LIFTING_SPEED: real := 60.0
  const DEFAULT_TRAVERSING_SPEED: real := 20.0
  const DEFAULT_TURN_TABLE_SPEED: real := 2.2
  const DEFAULT_TRAVERSING_DISTANCE_1: real := 2270.0
  const DEFAULT_TRAVERSING_DISTANCE_2: real := 2370.0
  const DEFAULT_DOOR_TIME: real := 20.0
  const DEFAULT_ADDITIONAL_TIME: real := 20.0
  const DEFAULT_PROCESSING_TIME: real := 20.0
  const DEFAULT_LIFTING_ADD_TIME: real := 12.0
  const DEFAULT_TRAVERSING_ADD_TIME: real := 5.0
  const DEFAULT_TOWER_TYPE: string := "1+1"
  const DEFAULT_NUMBER_OF_CARS: int := 70

  /** JavaScript's `parseInt(...) || default`: NaN and 0 are falsy and give way to the default. */
  function IntOr(parsed: Option<int>, default: int): (v: int)
    ensures parsed.Some? && parsed.value != 0 ==> v == parsed.value
    ensures parsed.None? || parsed.value == 0 ==> v == default
  {
    match parsed
    case Some(x) => if x != 0 then x else default
    case None => default
  }

  /** JavaScript's `parseFloat(...) || default`, with the same two falsy cases. */
  function RealOr(parsed: Option<real>, default: real): (v: real)
    ensures parsed.Some? && parsed.value != 0.0 ==> v == parsed.value
    ensures parsed.None? || parsed.value == 0.0 ==> v == default
  {
    match parsed
    case Some(x) => if x != 0.0 then x else default
    case None => default
  }

  /** JavaScript's `value || '1+1'`: only the empty string is falsy. */
  function TextOr(value: string, default: string): (v: string)
    ensures value != [] ==> v == value
    ensures value == [] ==> v == default
  {
    if value != [] then value else default
  }

  /** A field value that is the number typed into the form or the field's default. */
  predicate IntFrom(parsed: Option<int>, default: int, v: int) { v == default || parsed == Some(v) }
  predicate RealFrom(parsed: Option<real>, default: real, v: real) { v == default || parsed == Some(v) }

  /**
   * `getInputValues` with the reading of the form taken out (js/calculator.js:48-73):
   * every field holds what the form gave for it or the field's default, and the
   * checkbox and the tower type are taken over.
   */
  function Normalize(raw: RawInput): (p: Params)
    ensures IntFrom(raw.levelsAbove, DEFAULT_LEVELS_ABOVE, p.levelsAbove)
    ensures IntFrom(raw.levelsBelow, DEFAULT_LEVELS_BELOW, p.levelsBelow)
    ensures RealFrom(raw.aboveHeight1, DEFAULT_ABOVE_HEIGHT_1, p.aboveHeight1)
    ensures p.enableCombos == raw.enableCombos
    ensures RealFrom(raw.aboveHeight2, DEFAULT_ABOVE_HEIGHT_2, p.aboveHeight2)
    ensures IntFrom(raw.aboveCount2, DEFAULT_ABOVE_COUNT_2, p.aboveCount2)
    ensures RealFrom(raw.aboveHeight3, DEFAULT_ABOVE_HEIGHT_3, p.aboveHeight3)
    ensures IntFrom(raw.aboveCount3, DEFAULT_ABOVE_COUNT_3, p.aboveCount3)
    ensures RealFrom(raw.belowHeight, DEFAULT_BELOW_HEIGHT, p.belowHeight)
    ensures RealFrom(raw.liftingSpeed, DEFAULT_LIFTING_SPEED, p.liftingSpeed)
    ensures RealFrom(raw.traversingSpeed, DEFAULT_TRAVERSING_SPEED, p.traversingSpeed)
    ensures RealFrom(raw.turnTableSpeed, DEFAULT_TURN_TABLE_SPEED, p.turnTableSpeed)
    ensures RealFrom(raw.traversingDistance1, DEFAULT_TRAVERSING_DISTANCE_1, p.traversingDistance1)
    ensures RealFrom(raw.traversingDistance2, DEFAULT_TRAVERSING_DISTANCE_2, p.traversingDistance2)
    ensures RealFrom(raw.doorTime, DEFAULT_DOOR_TIME, p.doorTime)
    ensures RealFrom(raw.additionalTime, DEFAULT_ADDITIONAL_TIME, p.additionalTime)
    ensures RealFrom(raw.processingTime, DEFAULT_PROCESSING_TIME, p.processingTime)
    ensures RealFrom(raw.liftingAddTime, DEFAULT_LIFTING_ADD_TIME, p.liftingAddTime)
    ensures RealFrom(raw.traversingAddTime, DEFAULT_TRAVERSING_ADD_TIME, p.traversingAddTime)
    ensures p.towerType == DEFAULT_TOWER_TYPE || p.towerType == raw.towerType
    ensures IntFrom(raw.numberOfCars, DEFAULT_NUMBER_OF_CARS, p.numberOfCars)
  {
    Params(
      levelsAbove := IntOr(raw.levelsAbove, DEFAULT_LEVELS_ABOVE),
      levelsBelow := IntOr(raw.levelsBelow, DEFAULT_LEVELS_BELOW),
      aboveHeight1 := RealOr(raw.aboveHeight1, DEFAULT_ABOVE_HEIGHT_1),
      enableCombos := raw.enableCombos,
      aboveHeight2 := RealOr(raw.aboveHeight2, DEFAULT_ABOVE_HEIGHT_2),
      aboveCount2 := IntOr(raw.aboveCount2, DEFAULT_ABOVE_COUNT_2),
      aboveHeight3 := RealOr(raw.aboveHeight3, DEFAULT_ABOVE_HEIGHT_3),
      aboveCount3 := IntOr(raw.aboveCount3, DEFAULT_ABOVE_COUNT_3),
      belowHeight := RealOr(raw.belowHeight, DEFAULT_BELOW_HEIGHT),
      liftingSpeed := RealOr(raw.liftingSpeed, DEFAULT_LIFTING_SPEED),
      traversingSpeed := RealOr(raw.traversingSpeed, DEFAULT_TRAVERSING_SPEED),
      turnTableSpeed := RealOr(raw.turnTableSpeed, DEFAULT_TURN_TABLE_SPEED),
      traversingDistance1 := RealOr(raw.traversingDistance1, DEFAULT_TRAVERSING_DISTANCE_1),
      traversingDistance2 := RealOr(raw.traversingDistance2, DEFAULT_TRAVERSING_DISTANCE_2),
      doorTime := RealOr(raw.doorTime, DEFAULT_DOOR_TIME),
      additionalTime := RealOr(raw.additionalTime, DEFAULT_ADDITIONAL_TIME),
      processingTime := RealOr(raw.processingTime, DEFAULT_PROCESSING_TIME),
      liftingAddTime := RealOr(raw.liftingAddTime, DEFAULT_LIFTING_ADD_TIME),
      traversingAddTime := RealOr(raw.traversingAddTime, DEFAULT_TRAVERSING_ADD_TIME),
      towerType := TextOr(raw.towerType, DEFAULT_TOWER_TYPE),
      numberOfCars := IntOr(raw.numberOfCars, DEFAULT_NUMBER_OF_CARS))
  }

  /** The form filled in with the values of `p`, every field parsing to its value. */
  function Echo(p: Params): RawInput
  {
    RawInput(
      Some(p.levelsAbove), Some(p.levelsBelow), Some(p.aboveHeight1), p.enableCombos,
      Some(p.aboveHeight2), Some(p.aboveCount2), Some(p.aboveHeight3), Some(p.aboveCount3),
      Some(p.belowHeight), Some(p.liftingSpeed), Some(p.traversingSpeed), Some(p.turnTableSpeed),
      Some(p.traversingDistance1), Some(p.traversingDistance2), Some(p.doorTime),
      Some(p.additionalTime), Some(p.processingTime), Some(p.liftingAddTime),
      Some(p.traversingAddTime), p.towerType, Some(p.numberOfCars))
  }

  /** A parsed value that is present is not negative (None is always admissible). */
  predicate NonNegInt(x: Option<int>) { x.None? || x.value >= 0 }
  predicate NonNegReal(x: Option<real>) { x.None? || x.value >= 0.0 }

  /**
   * A form in which no height, speed, distance, duration or car count is
   * negative. The four level counts may be anything: the resolver ignores a
   * count that is not positive.
   */
  predicate NoNegativeMeasures(raw: RawInput)
  {
    && NonNegReal(raw.aboveHeight1) && NonNegReal(raw.aboveHeight2)
    && NonNegReal(raw.aboveHeight3) && NonNegReal(raw.belowHeight)
    && NonNegReal(raw.liftingSpeed) && NonNegReal(raw.traversingSpeed) && NonNegReal(raw.turnTableSpeed)
    && NonNegReal(raw.traversingDistance1) && NonNegReal(raw.traversingDistance2)
    && NonNegReal(raw.doorTime) && NonNegReal(raw.additionalTime) && NonNegReal(raw.processingTime)
    && NonNegReal(raw.liftingAddTime) && NonNegReal(raw.traversingAddTime)
    && NonNegInt(raw.numberOfCars)
  }

  /** A form in which no level count is negative. */
  predicate NoNegativeCounts(raw: RawInput)
  {
    NonNegInt(raw.levelsAbove) && NonNegInt(raw.levelsBelow) && NonNegInt(raw.aboveCount2) && NonNegInt(raw.aboveCount3)
  }

  /** The form with every numeric field that parsed to 0 emptied. */
  function ClearZeros(raw: RawInput): RawInput
  {
    RawInput(
      ClearInt(raw.levelsAbove), ClearInt(raw.levelsBelow), ClearReal(raw.aboveHeight1), raw.enableCombos,
      ClearReal(raw.aboveHeight2), ClearInt(raw.aboveCount2), ClearReal(raw.aboveHeight3), ClearInt(raw.aboveCount3),
      ClearReal(raw.belowHeight), ClearReal(raw.liftingSpeed), ClearReal(raw.traversingSpeed),
      ClearReal(raw.turnTableSpeed), ClearReal(raw.traversingDistance1), ClearReal(raw.traversingDistance2),
      ClearReal(raw.doorTime), ClearReal(raw.additionalTime), ClearReal(raw.processingTime),
      ClearReal(raw.liftingAddTime), ClearReal(raw.traversingAddTime), raw.towerType, ClearInt(raw.numberOfCars))
  }

  function ClearInt(x: Option<int>): Option<int> { if x == Some(0) then None else x }
  function ClearReal(x: Option<real>): Option<real> { if x == Some(0.0) then None else x }

  /**
   * The parameters the estimator needs to be well defined: positive speeds and
   * car count, and no negative duration or distance.
   */
  predicate Admissible(p: Params)
  {
    && p.liftingSpeed > 0.0 && p.traversingSpeed > 0.0 && p.turnTableSpeed > 0.0
    && p.traversingDistance1 >= 0.0 && p.traversingDistance2 >= 0.0
    && p.doorTime >= 0.0 && p.additionalTime >= 0.0 && p.processingTime >= 0.0
    && p.liftingAddTime >= 0.0 && p.traversingAddTime >= 0.0
    && p.numberOfCars > 0
  }

  /** No level height is negative. */
  predicate HeightsNonNegative(p: Params)
  {
    p.aboveHeight1 >= 0.0 && p.aboveHeight2 >= 0.0 && p.aboveHeight3 >= 0.0 && p.belowHeight >= 0.0
  }

  /**
   * Every field whose default is non-zero comes out non-zero, whatever was
   * typed: this is what keeps the divisions of the estimator away from 0.
   */
  lemma NormalizeNeverZero(raw: RawInput)
    ensures var p := Normalize(raw);
      && p.aboveHeight1 != 0.0 && p.aboveHeight2 != 0.0 && p.aboveHeight3 != 0.0 && p.belowHeight != 0.0
      && p.liftingSpeed != 0.0 && p.traversingSpeed != 0.0 && p.turnTableSpeed != 0.0
      && p.traversingDistance1 != 0.0 && p.traversingDistance2 != 0.0
      && p.doorTime != 0.0 && p.additionalTime != 0.0 && p.processingTime != 0.0
      && p.liftingAddTime != 0.0 && p.traversingAddTime != 0.0
      && p.towerType != [] && p.numberOfCars != 0
  {
  }

  /**
   * A form without negative measures normalizes to parameters the estimator
   * accepts, with no negative height.
   */
  lemma NormalizeAdmissible(raw: RawInput)
    requires NoNegativeMeasures(raw)
    ensures Admissible(Normalize(raw)) && HeightsNonNegative(Normalize(raw))
  {
  }

  /** A form without negative level counts normalizes to level counts of at least 0. */
  lemma NormalizeCounts(raw: RawInput)
    requires NoNegativeCounts(raw)
    ensures var p := Normalize(raw);
      p.levelsAbove >= 0 && p.levelsBelow >= 0 && p.aboveCount2 >= 0 && p.aboveCount3 >= 0
  {
  }

  /**
   * Normalizing is idempotent: filling the form with the normalized values and
   * reading it again gives the same record, because no field whose default is
   * non-zero is ever 0 after normalizing, and the fields whose default is 0 map
   * 0 to 0.
   */
  lemma NormalizeIdempotent(raw: RawInput)
    ensures Normalize(Echo(Normalize(raw))) == Normalize(raw)
  {
    NormalizeNeverZero(raw);
  }

  /**
   * A typed 0 cannot be told apart from an empty field, in any numeric field:
   * emptying every field that parsed to 0 gives the same parameters, and a 0
   * in a field gives that field's default.
   */
  lemma ZeroMeansMissing(raw: RawInput)
    ensures Normalize(ClearZeros(raw)) == Normalize(raw)
    ensures raw.liftingSpeed == Some(0.0) ==> Normalize(raw).liftingSpeed == DEFAULT_LIFTING_SPEED
    ensures raw.numberOfCars == Some(0) ==> Normalize(raw).numberOfCars == DEFAULT_NUMBER_OF_CARS
  {
  }

}
