/**
 * The four indicator sets (`local_low`, `local_high`, `global_low`,
 * `global_high`) that `get_status` and `get_recommendation` build from a row,
 * and the red/green counts `get_local_status` takes of the local scores.
 */
module Indicators {
  import opened Rows

  datatype IndicatorSets = IndicatorSets(
    localLow: set<Family>,
    localHigh: set<Family>,
    globalLow: set<Family>,
    globalHigh: set<Family>)
  {
    /** `common_low = local_low & global_low` */
    function CommonLow(): set<Family>
    {
      localLow * globalLow
    }

    /** `common_high = local_high & global_high` */
    function CommonHigh(): set<Family>
    {
      localHigh * globalHigh
    }
  }

  /** The families among `fs` whose value `score` gives is present and below 0.2. */
  function LowAmong(fs: seq<Family>, score: Family -> Option<real>): set<Family>
  {
    set f | f in fs && Below(score(f), LowBound)
  }

  /** The families among `fs` whose value is present and above 0.8. */
  function HighAmong(fs: seq<Family>, score: Family -> Option<real>): set<Family>
  {
    set f | f in fs && Above(score(f), HighBound)
  }

  function LocalScores(row: Row): Family -> Option<real>
  {
    f => Local(row, f)
  }

  function GlobalScores(row: Row, sp: Spelling): Family -> Option<real>
  {
    f => Global(row, f, sp)
  }

  /** The families whose local score is red (below 0.2). */
  function LocalLow(row: Row): set<Family>
  {
    LowAmong(Families, LocalScores(row))
  }

  /** The families whose local score is green (above 0.8). */
  function LocalHigh(row: Row): set<Family>
  {
    HighAmong(Families, LocalScores(row))
  }

  /** The families whose local score is present at all. */
  function LocalPresent(row: Row): set<Family>
  {
    set f | f in Families && Local(row, f).Some?
  }

  /** The four sets of a row. */
  function Partition(row: Row, sp: Spelling): (p: IndicatorSets)
    ensures p.localLow !! p.localHigh && p.globalLow !! p.globalHigh
    ensures forall f :: Local(row, f).None? ==> f !in p.localLow && f !in p.localHigh
    ensures forall f :: Global(row, f, sp).None? ==> f !in p.globalLow && f !in p.globalHigh
    ensures forall f :: Local(row, f).Some? && LowBound <= Local(row, f).value <= HighBound ==>
      f !in p.localLow && f !in p.localHigh
    ensures forall f :: Global(row, f, sp).Some? && LowBound <= Global(row, f, sp).value <= HighBound ==>
      f !in p.globalLow && f !in p.globalHigh
  {
    IndicatorSets(
      LocalLow(row),
      LocalHigh(row),
      LowAmong(Families, GlobalScores(row, sp)),
      HighAmong(Families, GlobalScores(row, sp)))
  }

  /** Extending the scanned families by one adds that family to a set exactly when it qualifies. */
  lemma AmongStep(fs: seq<Family>, f: Family, score: Family -> Option<real>)
    requires f !in fs
    ensures LowAmong(fs + [f], score) == LowAmong(fs, score) + (if Below(score(f), LowBound) then {f} else {})
    ensures HighAmong(fs + [f], score) == HighAmong(fs, score) + (if Above(score(f), HighBound) then {f} else {})
    ensures f !in LowAmong(fs, score) && f !in HighAmong(fs, score)
  {
  }

  lemma FamiliesPrefix(i: nat)
    requires i < |Families|
    ensures Families[..i + 1] == Families[..i] + [Families[i]]
    ensures Families[i] !in Families[..i]
  {
  }

  /**
   * The loop of `get_status`: one `elif` decides between low and high for
   * each present score, and the family is `add`ed to the chosen set.
   */
  method BuildStatusSets(row: Row, sp: Spelling) returns (sets: IndicatorSets)
    ensures sets == Partition(row, sp)
  {
    var localLow, globalLow, localHigh, globalHigh := {}, {}, {}, {};
    for i := 0 to |Families|
      invariant localLow == LowAmong(Families[..i], LocalScores(row))
      invariant localHigh == HighAmong(Families[..i], LocalScores(row))
      invariant globalLow == LowAmong(Families[..i], GlobalScores(row, sp))
      invariant globalHigh == HighAmong(Families[..i], GlobalScores(row, sp))
    {
      var score := Families[i];
      var local := Local(row, score);
      var global := Global(row, score, sp);
      FamiliesPrefix(i);
      AmongStep(Families[..i], score, LocalScores(row));
      AmongStep(Families[..i], score, GlobalScores(row, sp));
      if local.Some? {
        if local.value < LowBound {
          localLow := localLow + {score};
        } else if local.value > HighBound {
          localHigh := localHigh + {score};
        }
      }
      if global.Some? {
        if global.value < LowBound {
          globalLow := globalLow + {score};
        } else if global.value > HighBound {
          globalHigh := globalHigh + {score};
        }
      }
    }
    assert Families[..|Families|] == Families;
    sets := IndicatorSets(localLow, localHigh, globalLow, globalHigh);
  }

  /**
   * The loop of `get_recommendation`: four independent `if`s, one per set.
   * It builds the same sets as `get_status`, because no value is both below
   * 0.2 and above 0.8.
   */
  method BuildRecommendationSets(row: Row, sp: Spelling) returns (sets: IndicatorSets)
    ensures sets == Partition(row, sp)
  {
    var localLow, globalLow, localHigh, globalHigh := {}, {}, {}, {};
    for i := 0 to |Families|
      invariant localLow == LowAmong(Families[..i], LocalScores(row))
      invariant localHigh == HighAmong(Families[..i], LocalScores(row))
      invariant globalLow == LowAmong(Families[..i], GlobalScores(row, sp))
      invariant globalHigh == HighAmong(Families[..i], GlobalScores(row, sp))
    {
      var score := Families[i];
      var local := Local(row, score);
      var global := Global(row, score, sp);
      FamiliesPrefix(i);
      AmongStep(Families[..i], score, LocalScores(row));
      AmongStep(Families[..i], score, GlobalScores(row, sp));
      if local.Some? && local.value < LowBound {
        localLow := localLow + {score};
      }
      if global.Some? && global.value < LowBound {
        globalLow := globalLow + {score};
      }
      if local.Some? && local.value > HighBound {
        localHigh := localHigh + {score};
      }
      if global.Some? && global.value > HighBound {
        globalHigh := globalHigh + {score};
      }
    }
    assert Families[..|Families|] == Families;
    sets := IndicatorSets(localLow, localHigh, globalLow, globalHigh);
  }

  /** Cardinality of a set of families drawn from `fs` is at most the length of `fs`. */
  lemma {:induction false} AmongBound(fs: seq<Family>, s: set<Family>)
    requires forall f :: f in s ==> f in fs
    ensures |s| <= |fs|
  {
    if fs != [] {
      var last := fs[|fs| - 1];
      var rest := s - {last};
      forall f | f in rest ensures f in fs[..|fs| - 1] {
        var k :| 0 <= k < |fs| && fs[k] == f;
        assert k != |fs| - 1;
      }
      AmongBound(fs[..|fs| - 1], rest);
    } else {
      assert s == {};
    }
  }

  /** The `get_local_status` counts: `red + green` never exceeds the present local scores, at most four. */
  lemma RedGreenBound(row: Row)
    ensures LocalLow(row) !! LocalHigh(row)
    ensures |LocalLow(row)| + |LocalHigh(row)| <= |LocalPresent(row)| <= |Families|
  {
    var both := LocalLow(row) + LocalHigh(row);
    assert |both| == |LocalLow(row)| + |LocalHigh(row)|;
    assert both <= LocalPresent(row);
    SubsetCard(both, LocalPresent(row));
    AmongBound(Families, LocalPresent(row));
  }

  lemma {:induction false} SubsetCard(a: set<Family>, b: set<Family>)
    requires a <= b
    ensures |a| <= |b|
    decreases b
  {
    if a != {} {
      var x :| x in a;
      SubsetCard(a - {x}, b - {x});
    }
  }
}
