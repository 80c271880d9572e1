/**
 * The per-tower-type weight vectors of the calculator's constructor
 * (js/calculator.js:4-14) and the complexity factor derived from them
 * (js/calculator.js:177-178).
 */
module TowerConfig {

  /** Seven weights per tower type "A+B". */
  const TOWER_CONFIGURATIONS: map<string, seq<real>> := map[
    "0+1" := [0.0, 0.0, 0.0, 0.0, 1.0, 0.0, 0.0],
    "0+2" := [0.0, 0.0, 0.0, 0.0, 1.0, 2.0, 0.0],
    "0+3" := [0.0, 0.0, 0.0, 0.0, 1.0, 2.0, 3.0],
    "1+1" := [0.0, 0.0, 1.0, 0.0, 1.0, 0.0, 0.0],
    "1+2" := [0.0, 0.0, 1.0, 0.0, 1.0, 2.0, 0.0],
    "1+3" := [0.0, 0.0, 1.0, 0.0, 1.0, 2.0, 3.0],
    "2+2" := [0.0, 2.0, 1.0, 0.0, 1.0, 2.0, 0.0],
    "2+3" := [0.0, 2.0, 1.0, 0.0, 1.0, 2.0, 3.0],
    "3+3" := [3.0, 2.0, 1.0, 0.0, 1.0, 2.0, 3.0]
  ]

  /** The vector used for a tower type that is not in the table. */
  const FALLBACK_FACTORS: seq<real> := [0.0, 0.0, 1.0, 0.0, 1.0, 0.0, 0.0]

  /** The sum of a factor vector, added up from the left starting at 0. */
  function Sum(s: seq<real>): real
  {
    if s == [] then 0.0 else Sum(s[..|s| - 1]) + s[|s| - 1]
  }

  /** A seven-slot vector sums slot by slot, left to right. */
  lemma SumOfSeven(s: seq<real>)
    requires |s| == 7
    ensures Sum(s) == s[0] + s[1] + s[2] + s[3] + s[4] + s[5] + s[6]
  {
    assert s[..1][..0] == [];
    assert Sum(s[..1]) == s[0];
    assert s[..2][..1] == s[..1];
    assert Sum(s[..2]) == s[0] + s[1];
    assert s[..3][..2] == s[..2];
    assert Sum(s[..3]) == s[0] + s[1] + s[2];
    assert s[..4][..3] == s[..3];
    assert Sum(s[..4]) == s[0] + s[1] + s[2] + s[3];
    assert s[..5][..4] == s[..4];
    assert Sum(s[..5]) == s[0] + s[1] + s[2] + s[3] + s[4];
    assert s[..6][..5] == s[..5];
    assert Sum(s[..6]) == s[0] + s[1] + s[2] + s[3] + s[4] + s[5];
    assert s[..7] == s;
  }

  /** The factor vector of a tower type: its table entry, or the fallback vector when it has none. */
  function ConfigFactors(towerType: string): (v: seq<real>)
    ensures |v| == 7
    ensures towerType in TOWER_CONFIGURATIONS ==> v == TOWER_CONFIGURATIONS[towerType]
    ensures towerType !in TOWER_CONFIGURATIONS ==> v == FALLBACK_FACTORS
  {
    if towerType in TOWER_CONFIGURATIONS then TOWER_CONFIGURATIONS[towerType] else FALLBACK_FACTORS
  }

  /**
   * One plus a tenth of the sum of the type's factor vector, over exact reals.
   * Every factor lies between that of "0+1" (1.1) and that of "3+3" (2.2), so
   * none is below 1.
   */
  function ComplexityFactor(towerType: string): (f: real)
    ensures 1.1 <= f <= 2.2
  {
    SumOfSeven(ConfigFactors(towerType));
    1.0 + Sum(ConfigFactors(towerType)) * 0.1
  }

  /** An unknown tower type weighs exactly like "1+1": 1 + 0.1 * (1 + 1). */
  lemma UnknownTypeIsOnePlusOne(towerType: string)
    requires towerType !in TOWER_CONFIGURATIONS
    ensures ComplexityFactor(towerType) == ComplexityFactor("1+1") == 1.2
  {
    SumOfSeven(FALLBACK_FACTORS);
    assert ConfigFactors("1+1") == FALLBACK_FACTORS;
  }

  /** The two extremes of the table, and one entry in between. */
  lemma ComplexityFactorExamples()
    ensures ComplexityFactor("3+3") == 2.2
    ensures ComplexityFactor("0+1") == 1.1
    ensures ComplexityFactor("2+3") == 1.9
  {
    SumOfSeven(TOWER_CONFIGURATIONS["3+3"]);
    SumOfSeven(TOWER_CONFIGURATIONS["0+1"]);
    SumOfSeven(TOWER_CONFIGURATIONS["2+3"]);
  }
}
