/**
 * Concrete rows: the examples that tell the page instances apart, and worked
 * scenarios of the rules engine.
 */
module Scenarios {
  import opened Text
  import opened Rows
  import opened Indicators
  import opened Alerts
  import opened OverallStatus
  import opened LocalStatus
  import opened Recommendation
  import opened Pages

  /** The sets of a row, from what each of its scores is. */
  lemma SetsOf(row: Row, sp: Spelling, p: IndicatorSets)
    requires forall f :: f in p.localLow <==> Below(Local(row, f), LowBound)
    requires forall f :: f in p.localHigh <==> Above(Local(row, f), HighBound)
    requires forall f :: f in p.globalLow <==> Below(Global(row, f, sp), LowBound)
    requires forall f :: f in p.globalHigh <==> Above(Global(row, f, sp), HighBound)
    ensures Partition(row, sp) == p
  {
    assert forall f :: f in Families by {
      forall f ensures f in Families {
        assert Families[Index(f)] == f;
      }
    }
  }

  // ------------------------------------------------------ drifts

  /** Revenue growth of 5% and nothing else. */
  function ModestGrowthRow(): Row
  {
    map[RevenueKey := 0.05]
  }

  /** `app.py` tags 5% growth `Rev ↑`; the pages with the ±0.1 bound report nothing. */
  lemma AppRevenueBound()
    ensures LocalSummary(ModestGrowthRow(), App.revenueBound) == "Rev ↑"
    ensures LocalSummary(ModestGrowthRow(), Simplified.revenueBound) == ""
    ensures LocalSummary(map[RevenueKey := 0.01], App.revenueBound) == ""
  {
    KeysDistinct(Misspelled);
    RevenueAlone(ModestGrowthRow(), App.revenueBound);
    LocalSummaryEmptyIff(ModestGrowthRow(), Simplified.revenueBound);
    LocalSummaryEmptyIff(map[RevenueKey := 0.01], App.revenueBound);
  }

  /** A row that holds only the column the data set spells `score_profitabilty_global`. */
  function MisspelledOnlyRow(): Row
  {
    map["score_profitabilty_global" := 0.9]
  }

  /**
   * `3_Financial_view.py` reads the correctly spelled column, so it finds no
   * profitability global score in that row and reports nothing.
   */
  lemma FinancialViewSpelling()
    ensures GlobalSummary(MisspelledOnlyRow(), FinancialView.spelling) == ""
  {
    KeysDistinct(Correct);
    SpellingsDiffer();
    GlobalSummaryEmptyIff(MisspelledOnlyRow(), Correct);
  }

  /** The pages that read the misspelled column tag the same row `High Profitability`. */
  lemma MisspelledPagesSeeProfitability()
    ensures High(Profitability) in GlobalAlerts(MisspelledOnlyRow(), Simplified.spelling)
    ensures GlobalSummary(MisspelledOnlyRow(), Simplified.spelling) != ""
  {
    var row := MisspelledOnlyRow();
    assert GlobalKey(Profitability, Misspelled) == "score_profitabilty_global";
    GlobalSummaryEmptyIff(row, Misspelled);
    GlobalAlertsMembership(row, Misspelled, Profitability);
  }

  /** Solvency low in both views, liquidity low in the global view only. */
  function SolvencyLiquidityRow(): Row
  {
    map[LocalKey(Solvency) := 0.1, GlobalKey(Solvency, Misspelled) := 0.1, GlobalKey(Liquidity, Misspelled) := 0.1]
  }

  lemma SolvencyLiquidityScores()
    ensures forall f :: Local(SolvencyLiquidityRow(), f) == if f == Solvency then Some(0.1) else None
    ensures forall f :: Global(SolvencyLiquidityRow(), f, Misspelled) == (if f in {Solvency, Liquidity} then Some(0.1) else None)
  {
    KeysDistinct(Misspelled);
  }

  lemma SolvencyLiquiditySets()
    ensures Partition(SolvencyLiquidityRow(), Misspelled) == IndicatorSets({Solvency}, {}, {Solvency, Liquidity}, {})
  {
    SolvencyLiquidityScores();
    SetsOf(SolvencyLiquidityRow(), Misspelled, IndicatorSets({Solvency}, {}, {Solvency, Liquidity}, {}));
  }

  /**
   * The flat Mixed Risk rule of `2_Simplified_view.py` lets that row reach
   * Global Risk; the nested rule of the other pages stops it at Neutral.
   */
  lemma MixedRiskShapesDisagree()
    ensures Classify(Partition(SolvencyLiquidityRow(), SimplifiedTwo.spelling), SimplifiedTwo.shape) == GlobalRisk
    ensures Classify(Partition(SolvencyLiquidityRow(), Simplified.spelling), Simplified.shape) == Neutral
    ensures Classify(Partition(SolvencyLiquidityRow(), App.spelling), App.shape) == Neutral
  {
    SolvencyLiquiditySets();
    var p := IndicatorSets({Solvency}, {}, {Solvency, Liquidity}, {});
    assert p.CommonLow() == {Solvency} && |p.CommonLow()| == 1;
    assert |p.localLow| == 1 && |p.globalLow| == 2 && p.CommonHigh() == {};
  }

  /**
   * The nested exit also hides Strong Performer: solvency low in both views
   * and two other families high in both.
   */
  lemma NestedExitHidesStrongPerformer()
    ensures Classify(IndicatorSets({Solvency}, {Profitability, Liquidity}, {Solvency}, {Profitability, Liquidity}), Nested) == Neutral
    ensures Classify(IndicatorSets({Solvency}, {Profitability, Liquidity}, {Solvency}, {Profitability, Liquidity}), Flat) == StrongPerformer
  {
    var p := IndicatorSets({Solvency}, {Profitability, Liquidity}, {Solvency}, {Profitability, Liquidity});
    assert p.CommonLow() == {Solvency} && |p.CommonLow()| == 1;
    assert p.CommonHigh() == {Profitability, Liquidity} && |p.CommonHigh()| == 2;
    assert |p.localLow| == 1;
  }

  // ------------------------------------------------------ worked scenarios

  /** A row with no score at all, and no revenue growth. */
  lemma AllMissingRow(page: Page, iterate: set<Family> -> seq<Family>)
    ensures Derive(page, map[], iterate) == Derived("", "", Stable, Neutral, Default)
  {
    var p := Partition(map[], page.spelling);
    LocalSummaryEmptyIff(map[], page.revenueBound);
    GlobalSummaryEmptyIff(map[], page.spelling);
    StableIff(map[]);
    EmptyRowNeutral(page.spelling, page.shape);
    assert p.localLow == {} && p.globalLow == {} && p.CommonHigh() == {};
    PhrasesShape(p);
    DefaultIff(p, iterate);
  }

  /** Solvency low in both views; liquidity low locally and high globally. */
  function SplitLiquidityRow(): Row
  {
    map[LocalKey(Solvency) := 0.1, GlobalKey(Solvency, Misspelled) := 0.1,
        LocalKey(Liquidity) := 0.15, GlobalKey(Liquidity, Misspelled) := 0.9]
  }

  lemma SplitLiquidityScores()
    ensures forall f :: Local(SplitLiquidityRow(), f) == (if f == Solvency then Some(0.1) else if f == Liquidity then Some(0.15) else None)
    ensures forall f :: Global(SplitLiquidityRow(), f, Misspelled) == (if f == Solvency then Some(0.1) else if f == Liquidity then Some(0.9) else None)
  {
    KeysDistinct(Misspelled);
  }

  lemma SplitLiquiditySets()
    ensures Partition(SplitLiquidityRow(), Misspelled) == IndicatorSets({Solvency, Liquidity}, {}, {Solvency}, {Liquidity})
  {
    SplitLiquidityScores();
    SetsOf(SplitLiquidityRow(), Misspelled, IndicatorSets({Solvency, Liquidity}, {}, {Solvency}, {Liquidity}));
  }

  /** Neither shape finds a rule for it: the result is Neutral. */
  lemma SolvencyCommonLowSplitLiquidity(shape: MixedRiskShape)
    ensures Classify(Partition(SplitLiquidityRow(), Misspelled), shape) == Neutral
  {
    SplitLiquiditySets();
    var p := IndicatorSets({Solvency, Liquidity}, {}, {Solvency}, {Liquidity});
    assert p.CommonLow() == {Solvency} && |p.CommonLow()| == 1;
    assert |p.localLow| == 2 && |p.globalLow| == 1 && |p.globalHigh| == 1 && p.CommonHigh() == {};
  }

  /** Every local and global score at 0.9. */
  function AllHighRow(): Row
  {
    map[LocalKey(Profitability) := 0.9, LocalKey(Liquidity) := 0.9,
        LocalKey(Solvency) := 0.9, LocalKey(LeverageAdjusted) := 0.9,
        GlobalKey(Profitability, Misspelled) := 0.9, GlobalKey(Liquidity, Misspelled) := 0.9,
        GlobalKey(Solvency, Misspelled) := 0.9, GlobalKey(LeverageAdjusted, Misspelled) := 0.9]
  }

  const AllFamilies: set<Family> := {Profitability, Liquidity, Solvency, LeverageAdjusted}

  lemma AllHighScores()
    ensures forall f :: Local(AllHighRow(), f) == Some(0.9) && Global(AllHighRow(), f, Misspelled) == Some(0.9)
  {
    KeysDistinct(Misspelled);
  }

  lemma AllHighSets()
    ensures Partition(AllHighRow(), Misspelled) == IndicatorSets({}, AllFamilies, {}, AllFamilies)
  {
    AllHighScores();
    SetsOf(AllHighRow(), Misspelled, IndicatorSets({}, AllFamilies, {}, AllFamilies));
  }

  /** Every score high in both views: Strong Performer, whichever Mixed Risk shape. */
  lemma AllScoresHigh(shape: MixedRiskShape)
    ensures Classify(Partition(AllHighRow(), Misspelled), shape) == StrongPerformer
  {
    AllHighSets();
    var p := IndicatorSets({}, AllFamilies, {}, AllFamilies);
    assert p.CommonHigh() == AllFamilies && |AllFamilies| == 4;
  }

  /**
   * A single strength phrase naming the four families, in whatever order the
   * set of them is iterated.
   */
  lemma AllScoresHighRecommendation(iterate: set<Family> -> seq<Family>)
    ensures RecommendationText(Partition(AllHighRow(), Misspelled), iterate) ==
      "Strong performance in: " + Join(Labels(iterate(AllFamilies)), ", ") + "."
  {
    AllHighSets();
    StrengthOfAll(IndicatorSets({}, AllFamilies, {}, AllFamilies), iterate);
  }

  lemma StrengthOfAll(p: IndicatorSets, iterate: set<Family> -> seq<Family>)
    requires p == IndicatorSets({}, AllFamilies, {}, AllFamilies)
    ensures RecommendationText(p, iterate) == "Strong performance in: " + Join(Labels(iterate(AllFamilies)), ", ") + "."
  {
    assert p.CommonHigh() == AllFamilies;
    StrengthOnly(p, iterate);
  }

  /** When the set is iterated in page order, the phrase lists the families in page order. */
  lemma AllScoresHighInPageOrder(iterate: set<Family> -> seq<Family>)
    requires iterate(AllFamilies) == Families
    ensures RecommendationText(Partition(AllHighRow(), Misspelled), iterate) ==
      "Strong performance in: " + Join(Labels(Families), ", ") + "."
  {
    AllScoresHighRecommendation(iterate);
  }

  /** The four families, listed in page order, as a recommendation displays them. */
  lemma DisplayedLabels()
    ensures Labels(Families) == ["Profitability", "Liquidity", "Solvency", "Leverage_Adjusted"]
  {
    FamilyLabels();
  }

  /** Local leverage at 0.1 and nothing else. */
  lemma LowLeverageAlone()
    ensures LocalStatusOf(map[LocalKey(LeverageAdjusted) := 0.1]) == LeveragedRisk
  {
    LeveragedRiskIff(map[LocalKey(LeverageAdjusted) := 0.1]);
  }

  /** Local solvency at 0.1, the other local scores mid-range. */
  function OneRedRow(): Row
  {
    map[LocalKey(Solvency) := 0.1, LocalKey(Profitability) := 0.5,
        LocalKey(Liquidity) := 0.5, LocalKey(LeverageAdjusted) := 0.5]
  }

  lemma OneRedScores()
    ensures forall f :: Local(OneRedRow(), f) == if f == Solvency then Some(0.1) else Some(0.5)
  {
    KeysDistinct(Misspelled);
  }

  /** One red and no green gives Caution, not Stable. */
  lemma OneRedRestMid()
    ensures LocalStatusOf(OneRedRow()) == Caution
  {
    OneRedScores();
    var row := OneRedRow();
    assert LocalLow(row) == {Solvency};
    assert LocalHigh(row) == {};
    assert |LocalLow(row)| == 1;
    CautionIff(row);
  }
}
