/**
 * `get_local_status`: counts red (below 0.2) and green (above 0.8) local
 * scores, then walks a ten-label `elif` chain with special cases for the
 * leverage score and revenue growth; and `get_friendly_status`, which groups
 * those labels for the simplified page.
 */
module LocalStatus {
  import opened Rows
  import opened Indicators

  datatype LocalStatus =
    | LeveragedRisk
    | ExcellentHealth
    | CriticalRisk
    | Danger
    | Strong
    | GoodSignal
    | MixedRisk
    | Caution
    | Stable
    | Watch

  function LocalLabel(s: LocalStatus): string
  {
    match s
    case LeveragedRisk => "Leveraged Risk"
    case ExcellentHealth => "Excellent Health"
    case CriticalRisk => "Critical Risk"
    case Danger => "Danger"
    case Strong => "Strong"
    case GoodSignal => "Good signal"
    case MixedRisk => "Mixed Risk"
    case Caution => "Caution"
    case Stable => "Stable"
    case Watch => "Watch"
  }

  /** `all(0.2 <= val <= 0.8 for val in indicators.values() if pd.notna(val))`; true for an empty row. */
  ghost predicate AllInBand(row: Row)
  {
    forall f :: Local(row, f).Some? ==> LowBound <= Local(row, f).value <= HighBound
  }

  /** The `elif` chain, given the counts and the two special-cased values. */
  function Grade(red: nat, green: nat, leverage: Option<real>, revenue: Option<real>, allInBand: bool): (r: LocalStatus)
    ensures r == LeveragedRisk <==> Below(leverage, LowBound)
    ensures r == ExcellentHealth ==> red == 0 && Above(leverage, HighBound) && Above(revenue, RevenueBoost)
    ensures r in {CriticalRisk, Danger} <==> red >= 2 && !Below(leverage, LowBound)
    ensures r in {Strong, GoodSignal} ==> red == 0 && green >= 1
    ensures r == Watch ==> !allInBand && red <= 1 && !(red == 1 && green == 0)
  {
    if Below(leverage, LowBound) then LeveragedRisk
    else if Above(leverage, HighBound) && red == 0 && Above(revenue, RevenueBoost) then ExcellentHealth
    else if red >= 3 then CriticalRisk
    else if red == 2 then Danger
    else if green >= 2 && red == 0 then Strong
    else if green > 0 && red == 0 then GoodSignal
    else if red == green && red > 0 then MixedRisk
    else if red == 1 && green == 0 then Caution
    else if allInBand then Stable
    else Watch
  }

  /** Red and green counts of a row: the sizes of its local-low and local-high sets. */
  function Red(row: Row): nat
  {
    |LocalLow(row)|
  }

  function Green(row: Row): nat
  {
    |LocalHigh(row)|
  }

  /** The label `get_local_status` returns for a row. */
  ghost function LocalStatusOf(row: Row): LocalStatus
  {
    Grade(Red(row), Green(row), Local(row, LeverageAdjusted), Get(row, RevenueKey), AllInBand(row))
  }

  /** The counting loop of `get_local_status`. */
  method CountSignals(row: Row) returns (red: nat, green: nat)
    ensures red == Red(row) && green == Green(row)
  {
    red, green := 0, 0;
    ghost var reds, greens := {}, {};
    for i := 0 to |Families|
      invariant reds == LowAmong(Families[..i], LocalScores(row)) && red == |reds|
      invariant greens == HighAmong(Families[..i], LocalScores(row)) && green == |greens|
    {
      var score := Families[i];
      var value := Local(row, score);
      FamiliesPrefix(i);
      AmongStep(Families[..i], score, LocalScores(row));
      assert LocalScores(row)(score) == value;
      if value.Some? {
        if value.value < LowBound {
          red := red + 1;
          reds := reds + {score};
        } else if value.value > HighBound {
          green := green + 1;
          greens := greens + {score};
        }
      }
    }
    assert Families[..|Families|] == Families;
  }

  /** The `all(...)` test of the Stable rule, as a loop over the four local scores. */
  method AllLocalInBand(row: Row) returns (b: bool)
    ensures b == AllInBand(row)
  {
    b := true;
    for i := 0 to |Families|
      invariant b <==> forall k :: 0 <= k < i && Local(row, Families[k]).Some? ==>
        LowBound <= Local(row, Families[k]).value <= HighBound
    {
      var value := Local(row, Families[i]);
      if value.Some? && !(LowBound <= value.value <= HighBound) {
        b := false;
      }
    }
    if !b {
      var k :| 0 <= k < |Families| && Local(row, Families[k]).Some? &&
        !(LowBound <= Local(row, Families[k]).value <= HighBound);
    } else {
      forall f | Local(row, f).Some? ensures LowBound <= Local(row, f).value <= HighBound {
        assert Families[Index(f)] == f;
      }
    }
  }

  /** `get_local_status`. */
  method GetLocalStatus(row: Row) returns (status: LocalStatus)
    ensures status == LocalStatusOf(row)
  {
    var red, green := CountSignals(row);
    var allInBand := AllLocalInBand(row);
    status := Grade(red, green, Local(row, LeverageAdjusted), Get(row, RevenueKey), allInBand);
  }

  /** Reads a local-status label back; `None` for any other string. */
  function LocalStatusOfLabel(text: string): Option<LocalStatus>
  {
    if text == "Leveraged Risk" then Some(LeveragedRisk)
    else if text == "Excellent Health" then Some(ExcellentHealth)
    else if text == "Critical Risk" then Some(CriticalRisk)
    else if text == "Danger" then Some(Danger)
    else if text == "Strong" then Some(Strong)
    else if text == "Good signal" then Some(GoodSignal)
    else if text == "Mixed Risk" then Some(MixedRisk)
    else if text == "Caution" then Some(Caution)
    else if text == "Stable" then Some(Stable)
    else if text == "Watch" then Some(Watch)
    else None
  }

  /** The ten labels are pairwise distinct: each reads back as the status that produced it. */
  lemma LocalLabelsDistinct(s: LocalStatus, t: LocalStatus)
    ensures LocalStatusOfLabel(LocalLabel(s)) == Some(s)
    ensures LocalLabel(s) == LocalLabel(t) <==> s == t
  {
    match s
    case LeveragedRisk =>
    case ExcellentHealth =>
    case CriticalRisk =>
    case Danger =>
    case Strong =>
    case GoodSignal =>
    case MixedRisk =>
    case Caution =>
    case Stable =>
    case Watch =>
  }

  /** No score present in [0.2, 0.8] exactly when nothing is red or green. */
  lemma InBandIffNoSignal(row: Row)
    ensures AllInBand(row) <==> Red(row) == 0 && Green(row) == 0
  {
    if !AllInBand(row) {
      var f :| Local(row, f).Some? && !(LowBound <= Local(row, f).value <= HighBound);
      assert Families[Index(f)] == f;
      assert f in LocalLow(row) || f in LocalHigh(row);
    }
    if Red(row) != 0 {
      var f :| f in LocalLow(row);
    }
    if Green(row) != 0 {
      var f :| f in LocalHigh(row);
    }
  }

  /** A red leverage score is counted in `red`. */
  lemma LeverageCounted(row: Row)
    ensures Below(Local(row, LeverageAdjusted), LowBound) <==> LeverageAdjusted in LocalLow(row)
    ensures Above(Local(row, LeverageAdjusted), HighBound) <==> LeverageAdjusted in LocalHigh(row)
  {
    assert Families[3] == LeverageAdjusted;
  }

  /** Leveraged Risk exactly when the local leverage score is present and below 0.2, whatever else the row holds. */
  lemma LeveragedRiskIff(row: Row)
    ensures LocalStatusOf(row) == LeveragedRisk <==> Below(Local(row, LeverageAdjusted), LowBound)
  {
  }

  /** Excellent Health: leverage above 0.8, nothing red and revenue growth above 0.1; so at least one green. */
  lemma ExcellentHealthIff(row: Row)
    ensures LocalStatusOf(row) == ExcellentHealth <==>
      Above(Local(row, LeverageAdjusted), HighBound) && Red(row) == 0 && Above(Get(row, RevenueKey), RevenueBoost)
    ensures LocalStatusOf(row) == ExcellentHealth ==> Green(row) >= 1
  {
    LeverageCounted(row);
  }

  /** Critical Risk means exactly three reds: leverage is not one of them. */
  lemma CriticalRiskImplies(row: Row)
    requires LocalStatusOf(row) == CriticalRisk
    ensures Red(row) == 3 && !Below(Local(row, LeverageAdjusted), LowBound)
  {
    LeverageCounted(row);
    var others := [Profitability, Liquidity, Solvency];
    forall f | f in LocalLow(row) ensures f in others {
    }
    AmongBound(others, LocalLow(row));
  }

  /** Danger exactly when two local scores are red and leverage is not. */
  lemma DangerIff(row: Row)
    ensures LocalStatusOf(row) == Danger <==> Red(row) == 2 && !Below(Local(row, LeverageAdjusted), LowBound)
  {
    LeverageCounted(row);
  }

  /** Good signal means no red and exactly one green. */
  lemma GoodSignalImplies(row: Row)
    requires LocalStatusOf(row) == GoodSignal
    ensures Red(row) == 0 && Green(row) == 1
  {
  }

  /** Local Mixed Risk means one red and one green. */
  lemma MixedRiskImplies(row: Row)
    requires LocalStatusOf(row) == MixedRisk
    ensures Red(row) == 1 && Green(row) == 1
  {
  }

  /** Caution exactly when one red, no green, and leverage is not the red one. */
  lemma CautionIff(row: Row)
    ensures LocalStatusOf(row) == Caution <==>
      Red(row) == 1 && Green(row) == 0 && !Below(Local(row, LeverageAdjusted), LowBound)
  {
    LeverageCounted(row);
  }

  /** Stable exactly when nothing is red or green; an all-missing row is Stable. */
  lemma StableIff(row: Row)
    ensures LocalStatusOf(row) == Stable <==> Red(row) == 0 && Green(row) == 0
  {
    InBandIffNoSignal(row);
    LeverageCounted(row);
  }

  /** Watch is reached only with one red and at least two greens. */
  lemma WatchImplies(row: Row)
    requires LocalStatusOf(row) == Watch
    ensures Red(row) == 1 && Green(row) >= 2
  {
    InBandIffNoSignal(row);
  }

  // ------------------------------------------------------ friendly status

  datatype Health = Healthy | Steady | AtRisk | Unknown

  /** The display strings of `get_friendly_status`. */
  function HealthLabel(h: Health): string
  {
    match h
    case Healthy => "🟢 Healthy"
    case Steady => " stable"
    case AtRisk => "🔴 At Risk"
    case Unknown => "Unknown"
  }

  /** `get_friendly_status`: groups local-status labels, anything else is Unknown. */
  function FriendlyStatus(text: string): (r: Health)
    ensures r != Unknown <==> LocalStatusOfLabel(text).Some?
    ensures r == Healthy <==> LocalStatusOfLabel(text) in {Some(ExcellentHealth), Some(Strong), Some(GoodSignal)}
    ensures r == AtRisk <==> LocalStatusOfLabel(text) in {Some(Danger), Some(CriticalRisk), Some(LeveragedRisk)}
  {
    if text in ["Excellent Health", "Strong", "Good signal"] then Healthy
    else if text in ["Caution", "Mixed Risk", "Stable", "Watch"] then Steady
    else if text in ["Danger", "Critical Risk", "Leveraged Risk"] then AtRisk
    else Unknown
  }

  /** Every label `get_local_status` can return falls into one of the three groups, never Unknown. */
  lemma FriendlyStatusTotal(s: LocalStatus)
    ensures FriendlyStatus(LocalLabel(s)) != Unknown
    ensures FriendlyStatus(LocalLabel(s)) == Healthy <==> s in {ExcellentHealth, Strong, GoodSignal}
    ensures FriendlyStatus(LocalLabel(s)) == AtRisk <==> s in {Danger, CriticalRisk, LeveragedRisk}
    ensures HealthLabel(FriendlyStatus(LocalLabel(s))) in {"🟢 Healthy", " stable", "🔴 At Risk"}
  {
  }
}
