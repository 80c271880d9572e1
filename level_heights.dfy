/**
 * The level-height resolver, `calculateLevelHeights` (js/calculator.js:75-150).
 *
 * The above-ground levels are a budget handed out, in order, to the two combo
 * height bands, each taking at most what it asks for and what is left; the
 * default height takes the rest. Below-ground levels form one band. The
 * source's straight-line code is `CalculateLevelHeights`; `LevelHeights` states
 * the same result through a general greedy allocation, `Allocate`, about which
 * the budget lemmas are proved.
 */
module LevelHeights {
  import opened Params

  /** The `type` labels of the tier entries, in the order they are emitted. */
  datatype TierKind = Combo1 | Combo2 | Default | SingleAbove | BelowGround

  function Label(k: TierKind): string
  {
    match k
    case Combo1 => "Above Ground - Combo 1"
    case Combo2 => "Above Ground - Combo 2"
    case Default => "Above Ground - Default"
    case SingleAbove => "Above Ground"
    case BelowGround => "Below Ground"
  }

  /** The five kinds carry five different labels, so the page's `type` field identifies the kind. */
  lemma LabelsDistinct(k1: TierKind, k2: TierKind)
    ensures Label(k1) == Label(k2) <==> k1 == k2
  {
  }

  /** Position of a kind in the tier list; the single above-ground tier takes the default tier's place. */
  function Rank(k: TierKind): nat
  {
    match k
    case Combo1 => 0
    case Combo2 => 1
    case Default => 2
    case SingleAbove => 2
    case BelowGround => 3
  }

  /** One entry of `levelConfig`: `count` levels of `height` mm, `totalHeight` mm in all. */
  datatype Tier = Tier(kind: TierKind, height: real, count: int, totalHeight: real)

  /** The object `calculateLevelHeights` returns. */
  datatype LevelData = LevelData(
    levelConfig: seq<Tier>,
    totalAboveHeight: real,
    totalBelowHeight: real,
    totalHeight: real)

  /** A height band asking for `count` levels of the budget. */
  datatype Request = Request(kind: TierKind, height: real, count: int)

  function Min(a: int, b: int): int { if a <= b then a else b }

  /** `height * count`: the height of `count` levels of `height` mm each. */
  function Subtotal(height: real, count: int): real { height * count as real }

  /** A tier whose subtotal is its height times its count. */
  function MakeTier(kind: TierKind, height: real, count: int): (t: Tier)
    ensures t.kind == kind && t.height == height && t.count == count
    ensures t.totalHeight == Subtotal(height, count)
  {
    Tier(kind, height, count, Subtotal(height, count))
  }

  function SumCounts(ts: seq<Tier>): int
  {
    if ts == [] then 0 else SumCounts(ts[..|ts| - 1]) + ts[|ts| - 1].count
  }

  function SumTotals(ts: seq<Tier>): real
  {
    if ts == [] then 0.0 else SumTotals(ts[..|ts| - 1]) + ts[|ts| - 1].totalHeight
  }

  /** An entry with a positive count whose subtotal is its height times its count. */
  predicate TierOk(t: Tier)
  {
    t.count > 0 && t.totalHeight == Subtotal(t.height, t.count)
  }

  /** Every entry of the list is well formed. */
  predicate WellFormed(ts: seq<Tier>)
  {
    forall i :: 0 <= i < |ts| ==> TierOk(ts[i])
  }

  /** The entries appear in the order Combo 1, Combo 2, Default (or the single tier), Below Ground, each at most once. */
  predicate Ordered(ts: seq<Tier>)
  {
    forall i, j :: 0 <= i < j < |ts| ==> Rank(ts[i].kind) < Rank(ts[j].kind)
  }

  /**
   * Greedy allocation of `budget` levels: each request with a positive count,
   * met while levels remain, receives `min(count, remaining)` levels.
   */
  function Allocate(reqs: seq<Request>, budget: int): seq<Tier>
    decreases |reqs|
  {
    if reqs == [] then []
    else if reqs[0].count > 0 && budget > 0 then
      var c := Min(reqs[0].count, budget);
      [MakeTier(reqs[0].kind, reqs[0].height, c)] + Allocate(reqs[1..], budget - c)
    else Allocate(reqs[1..], budget)
  }

  /** The part of the budget no request took. */
  function Leftover(reqs: seq<Request>, budget: int): int
    decreases |reqs|
  {
    if reqs == [] then budget
    else if reqs[0].count > 0 && budget > 0 then Leftover(reqs[1..], budget - Min(reqs[0].count, budget))
    else Leftover(reqs[1..], budget)
  }

  /** Combo 1 asks for `aboveCount2` levels at `aboveHeight2`, then Combo 2 for `aboveCount3` at `aboveHeight3`. */
  function ComboRequests(p: Params): seq<Request>
  {
    [Request(Combo1, p.aboveHeight2, p.aboveCount2), Request(Combo2, p.aboveHeight3, p.aboveCount3)]
  }

  function AboveTiers(p: Params): seq<Tier>
  {
    if p.levelsAbove <= 0 then []
    else if !p.enableCombos then [MakeTier(SingleAbove, p.aboveHeight1, p.levelsAbove)]
    else
      var rest := Leftover(ComboRequests(p), p.levelsAbove);
      Allocate(ComboRequests(p), p.levelsAbove)
        + (if rest > 0 then [MakeTier(Default, p.aboveHeight1, rest)] else [])
  }

  function BelowTiers(p: Params): seq<Tier>
  {
    if p.levelsBelow > 0 then [MakeTier(BelowGround, p.belowHeight, p.levelsBelow)] else []
  }

  /** The resolved levels: the tier list and its subtotals summed above, below and overall. */
  function LevelHeights(p: Params): LevelData
  {
    var above := AboveTiers(p);
    var below := BelowTiers(p);
    LevelData(above + below, SumTotals(above), SumTotals(below), SumTotals(above) + SumTotals(below))
  }

  /** `calculateLevelHeights`, statement for statement; the above-ground part is `AboveGroundLevels`. */
  method CalculateLevelHeights(p: Params) returns (r: LevelData)
    ensures r == LevelHeights(p)
  {
    var levelConfig, totalAboveHeight := AboveGroundLevels(p);
    var totalBelowHeight := 0.0;

    // Calculate below ground levels
    if p.levelsBelow > 0 {
      var tier := Tier(BelowGround, p.belowHeight, p.levelsBelow, Subtotal(p.belowHeight, p.levelsBelow));
      levelConfig := levelConfig + [tier];
      totalBelowHeight := Subtotal(p.belowHeight, p.levelsBelow);
      assert [tier] == BelowTiers(p);
      SingletonSum(tier);
    } else {
      assert levelConfig == AboveTiers(p) + [];
    }

    r := LevelData(levelConfig, totalAboveHeight, totalBelowHeight, totalAboveHeight + totalBelowHeight);
  }

  /**
   * The above-ground half of `calculateLevelHeights` (js/calculator.js:76-131):
   * the budget `remainingLevels` goes to Combo 1, then Combo 2, then the
   * default height, while the tier list grows and the running sum follows it.
   */
  method AboveGroundLevels(p: Params) returns (levelConfig: seq<Tier>, totalAboveHeight: real)
    ensures levelConfig == AboveTiers(p)
    ensures totalAboveHeight == SumTotals(AboveTiers(p))
  {
    levelConfig := [];
    totalAboveHeight := 0.0;

    if p.levelsAbove > 0 {
      if p.enableCombos {
        ghost var c1, c2 := FirstComboCount(p), SecondComboCount(p);
        var remainingLevels := p.levelsAbove;
        levelConfig, totalAboveHeight, remainingLevels :=
          PushCombo(levelConfig, totalAboveHeight, remainingLevels, Combo1, p.aboveHeight2, p.aboveCount2);
        // the budget left, the tiers emitted and their running sum, after Combo 1
        assert remainingLevels == p.levelsAbove - c1;
        assert levelConfig == ComboTier(Combo1, p.aboveHeight2, c1);
        levelConfig, totalAboveHeight, remainingLevels :=
          PushCombo(levelConfig, totalAboveHeight, remainingLevels, Combo2, p.aboveHeight3, p.aboveCount3);
        // ... and after Combo 2
        assert remainingLevels == p.levelsAbove - c1 - c2;
        assert totalAboveHeight == Subtotal(p.aboveHeight2, c1) + Subtotal(p.aboveHeight3, c2);

        ghost var combos := levelConfig;
        if remainingLevels > 0 {
          var tier := Tier(Default, p.aboveHeight1, remainingLevels, Subtotal(p.aboveHeight1, remainingLevels));
          levelConfig := levelConfig + [tier];
          totalAboveHeight := totalAboveHeight + Subtotal(p.aboveHeight1, remainingLevels);
          assert tier == MakeTier(Default, p.aboveHeight1, remainingLevels);
        } else {
          assert levelConfig == combos + [];
        }
        assert levelConfig == AboveTiers(p) by { ComboAllocation(p); }
        assert totalAboveHeight == SumTotals(AboveTiers(p)) by { ComboAboveHeight(p); }
      } else {
        var tier := Tier(SingleAbove, p.aboveHeight1, p.levelsAbove, Subtotal(p.aboveHeight1, p.levelsAbove));
        levelConfig := levelConfig + [tier];
        totalAboveHeight := Subtotal(p.aboveHeight1, p.levelsAbove);
        assert tier == MakeTier(SingleAbove, p.aboveHeight1, p.levelsAbove);
        assert levelConfig == [tier];
        SingletonSum(tier);
      }
    }
  }

  /**
   * One combo band of `calculateLevelHeights` (js/calculator.js:86-96 and
   * 99-109): when the band asks for levels and some remain, it takes the
   * smaller of the two, its entry is pushed, its subtotal is added to the
   * running sum and the budget shrinks by the same count; otherwise nothing changes.
   */
  method PushCombo(levelConfig: seq<Tier>, totalAboveHeight: real, remainingLevels: int,
                   kind: TierKind, height: real, requested: int)
    returns (levelConfig': seq<Tier>, totalAboveHeight': real, remainingLevels': int)
    ensures var c := if requested > 0 && remainingLevels > 0 then Min(requested, remainingLevels) else 0;
      && levelConfig' == levelConfig + ComboTier(kind, height, c)
      && totalAboveHeight' == totalAboveHeight + Subtotal(height, c)
      && remainingLevels' == remainingLevels - c
  {
    levelConfig', totalAboveHeight', remainingLevels' := levelConfig, totalAboveHeight, remainingLevels;
    if requested > 0 && remainingLevels > 0 {
      var actualCount := Min(requested, remainingLevels);
      var tier := Tier(kind, height, actualCount, Subtotal(height, actualCount));
      levelConfig' := levelConfig' + [tier];
      totalAboveHeight' := totalAboveHeight' + Subtotal(height, actualCount);
      remainingLevels' := remainingLevels' - actualCount;
      assert [tier] == ComboTier(kind, height, actualCount);
    } else {
      assert levelConfig' == levelConfig + [];
    }
  }

  // ----- sums over tier lists -----

  lemma SumTotalsSnoc(ts: seq<Tier>, t: Tier)
    ensures SumTotals(ts + [t]) == SumTotals(ts) + t.totalHeight
    ensures SumCounts(ts + [t]) == SumCounts(ts) + t.count
  {
    assert (ts + [t])[..|ts|] == ts;
  }

  lemma {:induction false} SumsAppend(a: seq<Tier>, b: seq<Tier>)
    ensures SumTotals(a + b) == SumTotals(a) + SumTotals(b)
    ensures SumCounts(a + b) == SumCounts(a) + SumCounts(b)
    decreases |b|
  {
    if b == [] {
      assert a + b == a;
    } else {
      var b' := b[..|b| - 1];
      var t := b[|b| - 1];
      assert b == b' + [t];
      assert a + b == (a + b') + [t];
      SumsAppend(a, b');
      SumTotalsSnoc(a + b', t);
      SumTotalsSnoc(b', t);
    }
  }

  // ----- the greedy allocation -----

  /** One step of the allocation: the first request is served, then the rest from what is left. */
  lemma AllocateStep(reqs: seq<Request>, budget: int)
    requires reqs != []
    ensures var served := reqs[0].count > 0 && budget > 0;
            var c := if served then Min(reqs[0].count, budget) else 0;
            && Allocate(reqs, budget)
               == (if served then [MakeTier(reqs[0].kind, reqs[0].height, c)] else []) + Allocate(reqs[1..], budget - c)
            && Leftover(reqs, budget) == Leftover(reqs[1..], budget - c)
  {
    if !(reqs[0].count > 0 && budget > 0) {
      assert [] + Allocate(reqs[1..], budget) == Allocate(reqs[1..], budget);
    }
  }

  /**
   * Allocation conserves the budget: the levels handed out plus the levels left
   * over are exactly the budget, and nothing is left over that was not there.
   */
  lemma {:induction false} AllocateConserves(reqs: seq<Request>, budget: int)
    requires budget >= 0
    ensures SumCounts(Allocate(reqs, budget)) + Leftover(reqs, budget) == budget
    ensures 0 <= Leftover(reqs, budget) <= budget
    decreases |reqs|
  {
    if reqs != [] {
      AllocateStep(reqs, budget);
      var served := reqs[0].count > 0 && budget > 0;
      var c := if served then Min(reqs[0].count, budget) else 0;
      var head: seq<Tier> := if served then [MakeTier(reqs[0].kind, reqs[0].height, c)] else [];
      AllocateConserves(reqs[1..], budget - c);
      SumsAppend(head, Allocate(reqs[1..], budget - c));
      if served { SumTotalsSnoc([], head[0]); assert [] + [head[0]] == head; }
    }
  }

  /** Every allocated tier is well formed and takes no more than the budget. */
  lemma {:induction false} AllocateWellFormed(reqs: seq<Request>, budget: int)
    ensures WellFormed(Allocate(reqs, budget))
    ensures forall i :: 0 <= i < |Allocate(reqs, budget)| ==> Allocate(reqs, budget)[i].count <= budget
    decreases |reqs|
  {
    if reqs != [] {
      AllocateStep(reqs, budget);
      var served := reqs[0].count > 0 && budget > 0;
      var c := if served then Min(reqs[0].count, budget) else 0;
      AllocateWellFormed(reqs[1..], budget - c);
    }
  }

  // ----- the two combo tiers in closed form -----

  /** The levels Combo 1 receives: `min(aboveCount2, levelsAbove)` when it asks for any. */
  function FirstComboCount(p: Params): int
  {
    if p.aboveCount2 > 0 && p.levelsAbove > 0 then Min(p.aboveCount2, p.levelsAbove) else 0
  }

  /** The levels Combo 2 receives: `min(aboveCount3, remaining)` when it asks and levels remain. */
  function SecondComboCount(p: Params): int
  {
    var remaining := p.levelsAbove - FirstComboCount(p);
    if p.aboveCount3 > 0 && remaining > 0 then Min(p.aboveCount3, remaining) else 0
  }

  /** The entry for a combo tier, present only when it receives levels. */
  function ComboTier(kind: TierKind, height: real, count: int): seq<Tier>
  {
    if count > 0 then [MakeTier(kind, height, count)] else []
  }

  /**
   * The combo tiers as the source computes them: Combo 1 takes
   * `min(aboveCount2, levelsAbove)` when it asks for levels, Combo 2
   * `min(aboveCount3, remaining)` when it asks and levels remain, and the
   * default tier appears exactly when levels are left after both.
   */
  lemma ComboAllocation(p: Params)
    requires p.levelsAbove > 0 && p.enableCombos
    ensures var c1 := FirstComboCount(p);
            var c2 := SecondComboCount(p);
            var rest := p.levelsAbove - c1 - c2;
            && 0 <= c1 <= p.levelsAbove && 0 <= c2 <= p.levelsAbove - c1 && rest >= 0
            && (c1 > 0 <==> p.aboveCount2 > 0)
            && (c2 > 0 <==> p.aboveCount3 > 0 && p.levelsAbove - c1 > 0)
            && Leftover(ComboRequests(p), p.levelsAbove) == rest
            && AboveTiers(p)
               == ComboTier(Combo1, p.aboveHeight2, c1)
                + ComboTier(Combo2, p.aboveHeight3, c2)
                + (if rest > 0 then [MakeTier(Default, p.aboveHeight1, rest)] else [])
  {
    var reqs := ComboRequests(p);
    var c1 := FirstComboCount(p);
    var c2 := SecondComboCount(p);
    AllocateStep(reqs, p.levelsAbove);
    AllocateStep(reqs[1..], p.levelsAbove - c1);
    assert reqs[1..][1..] == [];
    assert Allocate(reqs, p.levelsAbove) == ComboTier(Combo1, p.aboveHeight2, c1) + ComboTier(Combo2, p.aboveHeight3, c2);
  }

  // ----- properties of the resolved levels -----

  lemma WellFormedAppend(a: seq<Tier>, b: seq<Tier>)
    requires WellFormed(a) && WellFormed(b)
    ensures WellFormed(a + b)
  {
    assert forall j :: |a| <= j < |a + b| ==> (a + b)[j] == b[j - |a|];
  }

  /** Two ordered lists stay ordered when the last of the first ranks below the first of the second. */
  lemma OrderedAppend(a: seq<Tier>, b: seq<Tier>)
    requires Ordered(a) && Ordered(b)
    requires |a| > 0 && |b| > 0 ==> Rank(a[|a| - 1].kind) < Rank(b[0].kind)
    ensures Ordered(a + b)
  {
    forall i, j | 0 <= i < j < |a + b| ensures Rank((a + b)[i].kind) < Rank((a + b)[j].kind) {
      if j < |a| {
        assert (a + b)[i] == a[i] && (a + b)[j] == a[j];
      } else if i >= |a| {
        assert (a + b)[i] == b[i - |a|] && (a + b)[j] == b[j - |a|];
      } else {
        assert (a + b)[i] == a[i] && (a + b)[j] == b[j - |a|];
        assert i < |a| - 1 ==> Rank(a[i].kind) < Rank(a[|a| - 1].kind);
        assert j - |a| > 0 ==> Rank(b[0].kind) < Rank(b[j - |a|].kind);
      }
    }
  }

  /** The above-ground tiers are well formed. */
  lemma AboveWellFormed(p: Params)
    ensures WellFormed(AboveTiers(p))
  {
    if p.levelsAbove > 0 && p.enableCombos {
      ComboAllocation(p);
      var c1 := FirstComboCount(p);
      var c2 := SecondComboCount(p);
      var rest := p.levelsAbove - c1 - c2;
      var first := ComboTier(Combo1, p.aboveHeight2, c1);
      var second := ComboTier(Combo2, p.aboveHeight3, c2);
      var last: seq<Tier> := if rest > 0 then [MakeTier(Default, p.aboveHeight1, rest)] else [];
      WellFormedAppend(first, second);
      WellFormedAppend(first + second, last);
    }
  }

  /** The above-ground tiers are ordered, and none ranks as low as Below Ground. */
  lemma AboveOrdered(p: Params)
    ensures Ordered(AboveTiers(p))
    ensures |AboveTiers(p)| > 0 ==> Rank(AboveTiers(p)[|AboveTiers(p)| - 1].kind) <= 2
  {
    if p.levelsAbove > 0 && p.enableCombos {
      ComboAllocation(p);
      var c1 := FirstComboCount(p);
      var c2 := SecondComboCount(p);
      ComboTiersOrdered(p.aboveHeight1, p.aboveHeight2, p.aboveHeight3, c1, c2, p.levelsAbove - c1 - c2);
    }
  }

  /** Combo 1, Combo 2 and Default, each present or not, come in rank order. */
  lemma ComboTiersOrdered(h1: real, h2: real, h3: real, c1: int, c2: int, rest: int)
    ensures var ts := ComboTier(Combo1, h2, c1) + ComboTier(Combo2, h3, c2)
                    + (if rest > 0 then [MakeTier(Default, h1, rest)] else []);
      Ordered(ts) && (|ts| > 0 ==> Rank(ts[|ts| - 1].kind) <= 2)
  {
    var first := ComboTier(Combo1, h2, c1);
    var second := ComboTier(Combo2, h3, c2);
    var last: seq<Tier> := if rest > 0 then [MakeTier(Default, h1, rest)] else [];
    OrderedAppend(first, second);
    var combos := first + second;
    assert |combos| > 0 ==> Rank(combos[|combos| - 1].kind) <= 1;
    OrderedAppend(combos, last);
  }

  /** The tier list is well formed and ordered, and the totals are the sums of its subtotals. */
  lemma ResolvedShape(p: Params)
    ensures WellFormed(LevelHeights(p).levelConfig)
    ensures Ordered(LevelHeights(p).levelConfig)
    ensures LevelHeights(p).totalHeight == SumTotals(LevelHeights(p).levelConfig)
    ensures LevelHeights(p).totalHeight == LevelHeights(p).totalAboveHeight + LevelHeights(p).totalBelowHeight
  {
    AboveWellFormed(p);
    AboveOrdered(p);
    JoinShape(AboveTiers(p), BelowTiers(p));
  }

  /** Joining the above-ground tiers and the optional below-ground tier keeps shape and sums. */
  lemma JoinShape(above: seq<Tier>, below: seq<Tier>)
    requires WellFormed(above) && Ordered(above)
    requires |above| > 0 ==> Rank(above[|above| - 1].kind) <= 2
    requires below == [] || (|below| == 1 && below[0].kind == BelowGround && TierOk(below[0]))
    ensures WellFormed(above + below) && Ordered(above + below)
    ensures SumTotals(above + below) == SumTotals(above) + SumTotals(below)
  {
    SumsAppend(above, below);
    WellFormedAppend(above, below);
    OrderedAppend(above, below);
  }


  /**
   * With combos on and a positive budget, the above-ground counts add up to
   * exactly `levelsAbove`; with combos off the single tier holds them all.
   */
  lemma AboveCountsConserved(p: Params)
    requires p.levelsAbove > 0
    ensures SumCounts(AboveTiers(p)) == p.levelsAbove
  {
    if p.enableCombos {
      var reqs := ComboRequests(p);
      var rest := Leftover(reqs, p.levelsAbove);
      AllocateConserves(reqs, p.levelsAbove);
      var tail: seq<Tier> := if rest > 0 then [MakeTier(Default, p.aboveHeight1, rest)] else [];
      SumsAppend(Allocate(reqs, p.levelsAbove), tail);
      if rest > 0 { SumTotalsSnoc([], tail[0]); assert [] + [tail[0]] == tail; }
    } else {
      SumTotalsSnoc([], MakeTier(SingleAbove, p.aboveHeight1, p.levelsAbove));
      assert [] + [MakeTier(SingleAbove, p.aboveHeight1, p.levelsAbove)] == AboveTiers(p);
    }
  }

  /** Every level asked for above and below ground appears in exactly one tier. */
  lemma LevelsCounted(p: Params)
    ensures SumCounts(LevelHeights(p).levelConfig)
         == (if p.levelsAbove > 0 then p.levelsAbove else 0) + (if p.levelsBelow > 0 then p.levelsBelow else 0)
  {
    SumsAppend(AboveTiers(p), BelowTiers(p));
    if p.levelsAbove > 0 {
      AboveCountsConserved(p);
    }
    if p.levelsBelow > 0 {
      SingletonSum(MakeTier(BelowGround, p.belowHeight, p.levelsBelow));
    }
  }

  /** With combos off, the combo counts and heights play no part. */
  lemma CombosDisabled(p: Params, count2: int, height2: real, count3: int, height3: real)
    requires !p.enableCombos
    ensures LevelHeights(p) == LevelHeights(p.(aboveCount2 := count2, aboveHeight2 := height2,
                                                aboveCount3 := count3, aboveHeight3 := height3))
    ensures p.levelsAbove > 0 ==>
      LevelHeights(p).levelConfig[0] == MakeTier(SingleAbove, p.aboveHeight1, p.levelsAbove)
      && LevelHeights(p).totalAboveHeight == Subtotal(p.aboveHeight1, p.levelsAbove)
  {
    if p.levelsAbove > 0 {
      SumTotalsSnoc([], MakeTier(SingleAbove, p.aboveHeight1, p.levelsAbove));
      assert [] + [MakeTier(SingleAbove, p.aboveHeight1, p.levelsAbove)] == AboveTiers(p);
    }
  }

  /** No levels above or below: no tiers and no height. */
  lemma NoLevels(p: Params)
    requires p.levelsAbove <= 0 && p.levelsBelow <= 0
    ensures LevelHeights(p).levelConfig == []
    ensures LevelHeights(p).totalHeight == 0.0
  {
  }

  /** The above-ground height with combos on: each band's height times the levels it received. */
  lemma ComboAboveHeight(p: Params)
    requires p.levelsAbove > 0 && p.enableCombos
    ensures SumTotals(AboveTiers(p))
         == Subtotal(p.aboveHeight2, FirstComboCount(p))
          + Subtotal(p.aboveHeight3, SecondComboCount(p))
          + Subtotal(p.aboveHeight1, p.levelsAbove - FirstComboCount(p) - SecondComboCount(p))
  {
    ComboAllocation(p);
    var c1 := FirstComboCount(p);
    var c2 := SecondComboCount(p);
    var rest := p.levelsAbove - c1 - c2;
    var first := ComboTier(Combo1, p.aboveHeight2, c1);
    var second := ComboTier(Combo2, p.aboveHeight3, c2);
    var last: seq<Tier> := if rest > 0 then [MakeTier(Default, p.aboveHeight1, rest)] else [];
    SingletonSum(MakeTier(Combo1, p.aboveHeight2, c1));
    SingletonSum(MakeTier(Combo2, p.aboveHeight3, c2));
    SingletonSum(MakeTier(Default, p.aboveHeight1, rest));
    SumsAppend(first, second);
    SumsAppend(first + second, last);
  }

  lemma SingletonSum(t: Tier)
    ensures SumTotals([t]) == t.totalHeight && SumCounts([t]) == t.count
  {
    SumTotalsSnoc([], t);
    assert [] + [t] == [t];
  }

  /** Heights that are not negative give an above-ground height that is not negative. */
  lemma AboveHeightNonNegative(p: Params)
    requires p.aboveHeight1 >= 0.0 && p.aboveHeight2 >= 0.0 && p.aboveHeight3 >= 0.0
    ensures SumTotals(AboveTiers(p)) >= 0.0
  {
    if p.levelsAbove > 0 {
      if p.enableCombos {
        ComboAllocation(p);
        ComboAboveHeight(p);
        var c1 := FirstComboCount(p);
        var c2 := SecondComboCount(p);
        var rest := p.levelsAbove - c1 - c2;
        NonNegProduct(p.aboveHeight2, c1);
        NonNegProduct(p.aboveHeight3, c2);
        NonNegProduct(p.aboveHeight1, rest);
      } else {
        SingletonSum(MakeTier(SingleAbove, p.aboveHeight1, p.levelsAbove));
        NonNegProduct(p.aboveHeight1, p.levelsAbove);
      }
    }
  }

  /** Heights that are not negative give a total height that is not negative. */
  lemma TotalHeightNonNegative(p: Params)
    requires p.aboveHeight1 >= 0.0 && p.aboveHeight2 >= 0.0 && p.aboveHeight3 >= 0.0 && p.belowHeight >= 0.0
    ensures LevelHeights(p).totalHeight >= 0.0
  {
    AboveHeightNonNegative(p);
    if p.levelsBelow > 0 {
      SingletonSum(MakeTier(BelowGround, p.belowHeight, p.levelsBelow));
      NonNegProduct(p.belowHeight, p.levelsBelow);
    }
  }

  lemma NonNegProduct(h: real, n: int)
    requires h >= 0.0 && n >= 0
    ensures Subtotal(h, n) >= 0.0
  {
  }

  /** 10 levels: 3 at 1900 mm, 4 at 2200 mm, the 3 left at 2100 mm, 20800 mm above ground. */
  lemma ThreeBandExample(p: Params)
    requires p.levelsAbove == 10 && p.enableCombos && p.levelsBelow == 0
    requires p.aboveHeight1 == 2100.0 && p.aboveHeight2 == 1900.0 && p.aboveCount2 == 3
    requires p.aboveHeight3 == 2200.0 && p.aboveCount3 == 4
    ensures LevelHeights(p).levelConfig
         == [MakeTier(Combo1, 1900.0, 3), MakeTier(Combo2, 2200.0, 4), MakeTier(Default, 2100.0, 3)]
    ensures LevelHeights(p).totalAboveHeight == 20800.0 == LevelHeights(p).totalHeight
  {
    ComboAllocation(p);
    var t1, t2, t3 := MakeTier(Combo1, 1900.0, 3), MakeTier(Combo2, 2200.0, 4), MakeTier(Default, 2100.0, 3);
    SumTotalsSnoc([], t1);
    assert [] + [t1] == [t1];
    SumTotalsSnoc([t1], t2);
    assert [t1] + [t2] == [t1, t2];
    SumTotalsSnoc([t1, t2], t3);
    assert [t1, t2] + [t3] == [t1, t2, t3];
    assert AboveTiers(p) == [t1, t2, t3];
  }

  /** A first combo asking for more than the budget is clamped to it and leaves nothing for the rest. */
  lemma ClampExample(p: Params)
    requires p.levelsAbove == 2 && p.enableCombos && p.aboveCount2 == 5 && p.levelsBelow == 0
    ensures LevelHeights(p).levelConfig == [MakeTier(Combo1, p.aboveHeight2, 2)]
  {
    ComboAllocation(p);
  }
}
