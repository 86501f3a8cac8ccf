/**
 * The pages that carry a copy of the engine, each an instance of three
 * drifts: the revenue alert bound, the spelling of the profitability global
 * column, and the shape of the Mixed Risk rule. Also the per-row derivation
 * the pages assign to their table columns, and the risk/strong counts of
 * `2_Simplified_view.py`.
 */
module Pages {
  import opened Rows
  import opened Indicators
  import opened Alerts
  import opened OverallStatus
  import opened LocalStatus
  import opened Recommendation

  datatype Page = Page(revenueBound: real, spelling: Spelling, shape: MixedRiskShape)

  /** `pages/simplified.py`, `pages/simplified_view.py` and `pages/financial_quarter_view.py`. */
  const Simplified: Page := Page(0.1, Misspelled, Nested)

  /** `pages/3_Financial_view.py`: alerts and local status only, so its shape is never used. */
  const FinancialView: Page := Page(0.1, Correct, Nested)

  /** `pages/2_Simplified_view.py`. */
  const SimplifiedTwo: Page := Page(0.1, Misspelled, Flat)

  /** `Health_scoring/app.py`. */
  const App: Page := Page(0.01, Misspelled, Nested)

  /** The five derived columns of one row. */
  datatype Derived = Derived(
    localAlerts: string,
    globalAlerts: string,
    localStatus: LocalStatus,
    status: Status,
    recommendation: string)

  ghost function Derive(page: Page, row: Row, iterate: set<Family> -> seq<Family>): Derived
  {
    Derived(
      LocalSummary(row, page.revenueBound),
      GlobalSummary(row, page.spelling),
      LocalStatusOf(row),
      Classify(Partition(row, page.spelling), page.shape),
      RecommendationText(Partition(row, page.spelling), iterate))
  }

  /** The `df[...] = df.apply(...)` assignments, for one row. */
  method DeriveRow(page: Page, row: Row, iterate: set<Family> -> seq<Family>) returns (d: Derived)
    ensures d == Derive(page, row, iterate)
  {
    var localAlerts := GetLocalAlerts(row, page.revenueBound);
    var globalAlerts := GetGlobalAlerts(row, page.spelling);
    var localStatus := GetLocalStatus(row);
    var status := GetStatus(row, page.spelling, page.shape);
    var recommendation := GetRecommendation(row, page.spelling, iterate);
    d := Derived(localAlerts, globalAlerts, localStatus, status, recommendation);
  }

  // ------------------------------------------------------ recomputation

  /** The columns the pages write back into the table. */
  const DerivedColumns: set<string> := {
    "Local Alert Summary", "Global Alert Summary", "Local Status", "Overall Status",
    "Rev Growth", "Recommendation", "Status Display"}

  /** Two rows that agree on every column the engine reads. */
  ghost predicate SameInputs(r1: Row, r2: Row, sp: Spelling)
  {
    forall k :: k in InputKeys(sp) ==> Get(r1, k) == Get(r2, k)
  }

  lemma SameScores(r1: Row, r2: Row, sp: Spelling)
    requires SameInputs(r1, r2, sp)
    ensures forall f :: Local(r1, f) == Local(r2, f) && Global(r1, f, sp) == Global(r2, f, sp)
    ensures Get(r1, RevenueKey) == Get(r2, RevenueKey)
  {
    forall f ensures Local(r1, f) == Local(r2, f) && Global(r1, f, sp) == Global(r2, f, sp) {
      assert Families[Index(f)] == f;
      assert LocalKey(f) in InputKeys(sp) && GlobalKey(f, sp) in InputKeys(sp);
    }
  }

  lemma {:induction false} SameLocalFamilyAlerts(r1: Row, r2: Row, fs: seq<Family>)
    requires forall f :: Local(r1, f) == Local(r2, f)
    ensures LocalFamilyAlerts(r1, fs) == LocalFamilyAlerts(r2, fs)
  {
    if fs != [] {
      SameLocalFamilyAlerts(r1, r2, fs[..|fs| - 1]);
    }
  }

  lemma {:induction false} SameGlobalFamilyAlerts(r1: Row, r2: Row, sp: Spelling, fs: seq<Family>)
    requires forall f :: Global(r1, f, sp) == Global(r2, f, sp)
    ensures GlobalFamilyAlerts(r1, fs, sp) == GlobalFamilyAlerts(r2, fs, sp)
  {
    if fs != [] {
      SameGlobalFamilyAlerts(r1, r2, sp, fs[..|fs| - 1]);
    }
  }

  lemma SameSets(r1: Row, r2: Row, sp: Spelling)
    requires forall f :: Local(r1, f) == Local(r2, f) && Global(r1, f, sp) == Global(r2, f, sp)
    ensures Partition(r1, sp) == Partition(r2, sp)
    ensures AllInBand(r1) == AllInBand(r2)
  {
    assert LocalLow(r1) == LocalLow(r2);
    assert LocalHigh(r1) == LocalHigh(r2);
    assert LowAmong(Families, GlobalScores(r1, sp)) == LowAmong(Families, GlobalScores(r2, sp));
    assert HighAmong(Families, GlobalScores(r1, sp)) == HighAmong(Families, GlobalScores(r2, sp));
  }

  /**
   * Every derived column is a function of the engine's input columns alone:
   * rows that agree on those derive the same values.
   */
  lemma DeriveDependsOnInputsOnly(page: Page, r1: Row, r2: Row, iterate: set<Family> -> seq<Family>)
    requires SameInputs(r1, r2, page.spelling)
    ensures Derive(page, r1, iterate) == Derive(page, r2, iterate)
  {
    SameScores(r1, r2, page.spelling);
    SameLocalFamilyAlerts(r1, r2, Families);
    SameGlobalFamilyAlerts(r1, r2, page.spelling, Families);
    SameSets(r1, r2, page.spelling);
    assert LocalSummary(r1, page.revenueBound) == LocalSummary(r2, page.revenueBound);
    assert GlobalSummary(r1, page.spelling) == GlobalSummary(r2, page.spelling);
    assert LocalStatusOf(r1) == LocalStatusOf(r2);
  }

  /**
   * The second pass of `financial_quarter_view.py` recomputes the same values:
   * the first pass only writes columns the engine never reads.
   */
  lemma SecondPassSameValues(page: Page, row: Row, written: Row, iterate: set<Family> -> seq<Family>)
    requires written.Keys <= DerivedColumns
    ensures Derive(page, row + written, iterate) == Derive(page, row, iterate)
  {
    DerivedColumnHeads();
    forall k | k in InputKeys(page.spelling) ensures Get(row + written, k) == Get(row, k) {
      InputKeyHead(k, page.spelling);
      assert k !in written.Keys;
    }
    DeriveDependsOnInputsOnly(page, row + written, row, iterate);
  }

  /** Every input column name starts with a lower-case letter. */
  lemma InputKeyHead(k: string, sp: Spelling)
    requires k in InputKeys(sp)
    ensures k != [] && (k[0] == 's' || k[0] == 'r')
  {
    var locals := set f | f in Families :: LocalKey(f);
    var globals := set f | f in Families :: GlobalKey(f, sp);
    assert InputKeys(sp) == locals + globals + {RevenueKey};
    if k in locals {
      var f :| f in Families && k == LocalKey(f);
      KeyHeads(f, sp);
    } else if k in globals {
      var f :| f in Families && k == GlobalKey(f, sp);
      KeyHeads(f, sp);
    } else {
      assert k == RevenueKey;
    }
  }

  lemma KeyHeads(f: Family, sp: Spelling)
    ensures LocalKey(f)[0] == 's' && GlobalKey(f, sp)[0] == 's'
  {
  }

  /** Every derived column name starts with a capital letter. */
  lemma DerivedColumnHeads()
    ensures forall d :: d in DerivedColumns ==> d != [] && 'A' <= d[0] <= 'Z'
  {
    assert "Local Alert Summary"[0] == 'L' && "Global Alert Summary"[0] == 'G';
    assert "Local Status"[0] == 'L' && "Overall Status"[0] == 'O';
    assert "Rev Growth"[0] == 'R' && "Recommendation"[0] == 'R' && "Status Display"[0] == 'S';
  }

  // ------------------------------------------------------ summary counts

  const RiskLabels: seq<string> := ["Global Risk", "Structural Risk", "Mixed Risk", "Local Weakness"]

  const StrongLabels: seq<string> := ["Strong Performer", "Global Improvement"]

  /** `column.isin(group).sum()`. */
  function CountIn(column: seq<string>, group: seq<string>): (n: nat)
    ensures n <= |column|
  {
    if column == [] then 0
    else CountIn(column[..|column| - 1], group) + (if column[|column| - 1] in group then 1 else 0)
  }

  /** The "Overall Status" column of a company's rows. */
  function StatusColumn(statuses: seq<Status>): (r: seq<string>)
    ensures |r| == |statuses|
  {
    seq(|statuses|, i requires 0 <= i < |statuses| => StatusLabel(statuses[i]))
  }

  /** Every overall status is a risk label, a strong label, or Neutral: exactly one of them. */
  lemma StatusBucket(s: Status)
    ensures StatusLabel(s) in RiskLabels <==> s in {GlobalRisk, StructuralRisk, Status.MixedRisk, LocalWeakness}
    ensures StatusLabel(s) in StrongLabels <==> s in {StrongPerformer, GlobalImprovement}
    ensures StatusLabel(s) !in RiskLabels && StatusLabel(s) !in StrongLabels <==> s == Neutral
  {
  }

  /**
   * The quarters at risk, the strong quarters and the Neutral quarters of a
   * company add up to its number of quarters, so `risk_count + strong_count`
   * never exceeds it.
   */
  lemma {:induction false} BucketCounts(statuses: seq<Status>)
    ensures CountIn(StatusColumn(statuses), RiskLabels) + CountIn(StatusColumn(statuses), StrongLabels)
      + CountIn(StatusColumn(statuses), ["Neutral"]) == |statuses|
  {
    if statuses != [] {
      var init := statuses[..|statuses| - 1];
      assert StatusColumn(statuses)[..|statuses| - 1] == StatusColumn(init);
      BucketCounts(init);
      StatusBucket(statuses[|statuses| - 1]);
    }
  }
}
