/**
 * `get_status`: the overall status of a row, decided from its four indicator
 * sets by a first-match `elif` chain over seven labels. The pages disagree on
 * the shape of the Mixed Risk rule, so the chain takes the shape as a
 * parameter.
 */
module OverallStatus {
  import opened Rows
  import opened Indicators

  datatype Status =
    | StructuralRisk
    | MixedRisk
    | LocalWeakness
    | StrongPerformer
    | GlobalImprovement
    | GlobalRisk
    | Neutral

  function StatusLabel(s: Status): string
  {
    match s
    case StructuralRisk => "Structural Risk"
    case MixedRisk => "Mixed Risk"
    case LocalWeakness => "Local Weakness"
    case StrongPerformer => "Strong Performer"
    case GlobalImprovement => "Global Improvement"
    case GlobalRisk => "Global Risk"
    case Neutral => "Neutral"
  }

  /**
   * Nested: `elif "solvency" in common_low:` guards an inner `if` with no
   * `else`, so when leverage is high in neither view control leaves the chain
   * and reaches the final `return "Neutral"`.
   * Flat: one conjunction, so evaluation goes on to the later rules.
   */
  datatype MixedRiskShape = Nested | Flat

  /** Leverage-adjusted is high in the local or in the global view. */
  predicate LeverageHigh(p: IndicatorSets)
  {
    LeverageAdjusted in p.globalHigh || LeverageAdjusted in p.localHigh
  }

  /** The `elif` chain of `get_status`. */
  function Classify(p: IndicatorSets, shape: MixedRiskShape): (r: Status)
    ensures r == StructuralRisk <==> |p.CommonLow()| >= 2
    ensures r == MixedRisk ==> Solvency in p.CommonLow() && LeverageHigh(p)
    ensures r == StrongPerformer ==> |p.CommonHigh()| >= 2
    ensures r == GlobalImprovement ==> |p.globalHigh| >= 2
    ensures r == GlobalRisk ==> |p.globalLow| >= 2
    ensures r == Neutral && shape == Flat ==> |p.globalLow| < 2 && |p.globalHigh| < 2 && |p.CommonHigh()| < 2
  {
    var commonLow, commonHigh := p.CommonLow(), p.CommonHigh();
    if |commonLow| >= 2 then StructuralRisk
    else if shape == Nested && Solvency in commonLow then
      (if LeverageHigh(p) then MixedRisk else Neutral)
    else if shape == Flat && Solvency in commonLow && LeverageHigh(p) then MixedRisk
    else if |p.localLow| >= 2 && |p.globalLow| == 0 then LocalWeakness
    else if |commonHigh| >= 2 then StrongPerformer
    else if |p.globalHigh| >= 2 then GlobalImprovement
    else if |p.globalLow| >= 2 then GlobalRisk
    else Neutral
  }

  /** `get_status`: build the sets with the status loop, then walk the chain. */
  method GetStatus(row: Row, sp: Spelling, shape: MixedRiskShape) returns (status: Status)
    ensures status == Classify(Partition(row, sp), shape)
  {
    var sets := BuildStatusSets(row, sp);
    status := Classify(sets, shape);
  }

  /** A family set of size below two that holds `f` is exactly `{f}`. */
  lemma SmallSetWith(s: set<Family>, f: Family)
    requires f in s && |s| < 2
    ensures s == {f}
  {
    assert |s - {f}| == |s| - 1 == 0;
    assert s - {f} == {};
  }

  /** Structural Risk exactly when at least two families are low in both views, under either shape. */
  lemma StructuralRiskIff(p: IndicatorSets, shape: MixedRiskShape)
    ensures Classify(p, shape) == StructuralRisk <==> |p.CommonLow()| >= 2
  {
  }

  /** Mixed Risk exactly when solvency is the only common-low family and leverage is high somewhere. */
  lemma MixedRiskIff(p: IndicatorSets, shape: MixedRiskShape)
    ensures Classify(p, shape) == MixedRisk <==> p.CommonLow() == {Solvency} && LeverageHigh(p)
  {
    if Classify(p, shape) == MixedRisk {
      SmallSetWith(p.CommonLow(), Solvency);
    }
  }

  /** Nested shape: solvency alone low in both views with leverage high nowhere gives Neutral. */
  lemma NestedSolvencyExit(p: IndicatorSets)
    requires p.CommonLow() == {Solvency} && !LeverageHigh(p)
    ensures Classify(p, Nested) == Neutral
  {
  }

  /**
   * The two shapes agree on every row except where solvency is in the
   * common-low set, fewer than two families are, and leverage is high in
   * neither view: there the nested chain stops at Neutral and the flat one
   * goes on to the later rules.
   */
  lemma ShapesDiffer(p: IndicatorSets)
    ensures Classify(p, Nested) != Classify(p, Flat) ==>
      Solvency in p.CommonLow() && |p.CommonLow()| < 2 && !LeverageHigh(p) && Classify(p, Nested) == Neutral
    ensures Solvency in p.CommonLow() && |p.CommonLow()| < 2 && !LeverageHigh(p) ==>
      Classify(p, Nested) == Neutral && Classify(p, Flat) != LocalWeakness && Classify(p, Flat) != MixedRisk
  {
  }

  /** Local Weakness exactly when two or more families are low locally and none globally, under either shape. */
  lemma LocalWeaknessIff(p: IndicatorSets, shape: MixedRiskShape)
    ensures Classify(p, shape) == LocalWeakness <==> |p.localLow| >= 2 && |p.globalLow| == 0
    ensures Classify(p, shape) == LocalWeakness ==> Solvency !in p.CommonLow()
  {
    if |p.globalLow| == 0 {
      assert p.globalLow == {};
      assert p.CommonLow() == {};
    }
  }

  /** What Strong Performer implies for the nested chain. */
  lemma NestedStrongPerformer(p: IndicatorSets)
    requires Classify(p, Nested) == StrongPerformer
    ensures |p.CommonLow()| <= 1 && Solvency !in p.CommonLow()
    ensures !(|p.localLow| >= 2 && p.globalLow == {})
    ensures |p.CommonHigh()| >= 2
  {
  }

  /** Global Improvement needs two globally high families but fewer than two high in both views. */
  lemma GlobalImprovementImplies(p: IndicatorSets, shape: MixedRiskShape)
    requires Classify(p, shape) == GlobalImprovement
    ensures |p.globalHigh| >= 2 && |p.CommonHigh()| < 2
  {
  }

  /** Nested Global Risk: solvency is not low in both views, and two families are low globally. */
  lemma NestedGlobalRisk(p: IndicatorSets)
    requires Classify(p, Nested) == GlobalRisk
    ensures Solvency !in p.CommonLow() && |p.globalLow| >= 2
  {
  }

  /** An empty row has empty sets and is Neutral under either shape. */
  lemma EmptyRowNeutral(sp: Spelling, shape: MixedRiskShape)
    ensures Classify(Partition(map[], sp), shape) == Neutral
  {
    var p := Partition(map[], sp);
    assert p.localLow == {} && p.globalLow == {} && p.localHigh == {} && p.globalHigh == {};
  }

  /** The seven labels are seven different strings. */
  lemma StatusLabelsDistinct(s: Status, t: Status)
    ensures StatusLabel(s) == StatusLabel(t) <==> s == t
  {
  }
}
