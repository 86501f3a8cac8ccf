/**
 * The local and global alert summaries (`get_local_alerts`,
 * `get_global_alerts`): one tag per family whose score is outside
 * [0.2, 0.8], in family order, then (local only) one revenue tag, joined
 * with ", ".
 */
module Alerts {
  import opened Text
  import opened Rows

  datatype LocalAlert = Up(family: Family) | Down(family: Family) | RevenueUp | RevenueDown

  datatype GlobalAlert = High(family: Family) | Low(family: Family)

  function LocalAlertText(a: LocalAlert): string
  {
    match a
    case Up(f) => "↑ " + Title(Name(f))
    case Down(f) => "↓ " + Title(Name(f))
    case RevenueUp => "Rev ↑"
    case RevenueDown => "Rev ↓"
  }

  function GlobalAlertText(a: GlobalAlert): string
  {
    match a
    case High(f) => "High " + Title(Name(f))
    case Low(f) => "Low " + Title(Name(f))
  }

  function LocalTexts(alerts: seq<LocalAlert>): (r: seq<string>)
    ensures |r| == |alerts|
  {
    seq(|alerts|, i requires 0 <= i < |alerts| => LocalAlertText(alerts[i]))
  }

  function GlobalTexts(alerts: seq<GlobalAlert>): (r: seq<string>)
    ensures |r| == |alerts|
  {
    seq(|alerts|, i requires 0 <= i < |alerts| => GlobalAlertText(alerts[i]))
  }

  /** Position of an alert in the summary's fixed order; revenue comes after the four families. */
  function LocalRank(a: LocalAlert): nat
  {
    match a
    case Up(f) => Index(f)
    case Down(f) => Index(f)
    case _ => |Families|
  }

  /** Strictly increasing ranks: fixed order and at most one tag per family (and one revenue tag). */
  ghost predicate LocalRanked(alerts: seq<LocalAlert>)
  {
    forall i, j :: 0 <= i < j < |alerts| ==> LocalRank(alerts[i]) < LocalRank(alerts[j])
  }

  function GlobalRank(a: GlobalAlert): nat
  {
    Index(a.family)
  }

  ghost predicate GlobalRanked(alerts: seq<GlobalAlert>)
  {
    forall i, j :: 0 <= i < j < |alerts| ==> GlobalRank(alerts[i]) < GlobalRank(alerts[j])
  }

  /** Families listed in strictly increasing `Index`, as `Families` and its prefixes are. */
  ghost predicate InFamilyOrder(fs: seq<Family>)
  {
    forall i, j :: 0 <= i < j < |fs| ==> Index(fs[i]) < Index(fs[j])
  }

  // ---------------------------------------------------------------- local

  /** The tag one family adds to the local summary: `↑` above 0.8, else `↓` below 0.2. */
  function LocalFamilyAlert(row: Row, f: Family): seq<LocalAlert>
  {
    var local := Local(row, f);
    if Above(local, HighBound) then [Up(f)]
    else if Below(local, LowBound) then [Down(f)]
    else []
  }

  /** The family tags for the families `fs`, in the order of `fs`. */
  function LocalFamilyAlerts(row: Row, fs: seq<Family>): (r: seq<LocalAlert>)
    ensures |r| <= |fs|
  {
    if fs == [] then []
    else LocalFamilyAlerts(row, fs[..|fs| - 1]) + LocalFamilyAlert(row, fs[|fs| - 1])
  }

  /** The revenue tag, against `bound` upwards and `-bound` downwards. */
  function RevenueAlert(row: Row, bound: real): seq<LocalAlert>
  {
    var growth := Get(row, RevenueKey);
    if Above(growth, bound) then [RevenueUp]
    else if Below(growth, -bound) then [RevenueDown]
    else []
  }

  /** Every local tag of a row, before rendering. */
  function LocalAlerts(row: Row, bound: real): seq<LocalAlert>
  {
    LocalFamilyAlerts(row, Families) + RevenueAlert(row, bound)
  }

  /** The string `get_local_alerts` returns. */
  function LocalSummary(row: Row, bound: real): string
  {
    Join(LocalTexts(LocalAlerts(row, bound)), ", ")
  }

  /**
   * `get_local_alerts`: the loop appends one tag per family, then the revenue
   * tag; the tags are rendered as they are joined.
   */
  method GetLocalAlerts(row: Row, bound: real) returns (summary: string)
    ensures summary == LocalSummary(row, bound)
  {
    var alerts: seq<LocalAlert> := [];
    for i := 0 to |Families|
      invariant alerts == LocalFamilyAlerts(row, Families[..i])
    {
      var score := Families[i];
      var local := Local(row, score);
      assert Families[..i + 1][..i] == Families[..i];
      if local.Some? {
        if local.value > HighBound {
          alerts := alerts + [Up(score)];
        } else if local.value < LowBound {
          alerts := alerts + [Down(score)];
        }
      }
    }
    assert Families[..|Families|] == Families;
    ghost var familyAlerts := alerts;
    var growth := Get(row, RevenueKey);
    if growth.Some? {
      if growth.value > bound {
        alerts := alerts + [RevenueUp];
      } else if growth.value < -bound {
        alerts := alerts + [RevenueDown];
      }
    }
    assert alerts == familyAlerts + RevenueAlert(row, bound);
    summary := Join(LocalTexts(alerts), ", ");
  }

  lemma {:induction false} LocalFamilyAlertsShape(row: Row, fs: seq<Family>)
    requires InFamilyOrder(fs)
    ensures LocalRanked(LocalFamilyAlerts(row, fs))
  {
    if fs != [] {
      var init, last := fs[..|fs| - 1], fs[|fs| - 1];
      LocalFamilyAlertsShape(row, init);
      LocalFamilyAlertsWithin(row, init);
      var prev := LocalFamilyAlerts(row, init);
      forall a | a in prev ensures LocalRank(a) < Index(last) {
        var k :| 0 <= k < |init| && init[k] == a.family;
        assert fs[k] == a.family;
      }
      LocalRankedSnoc(prev, LocalFamilyAlert(row, last), Index(last));
    }
  }

  /** Appending at most one alert ranked above everything before keeps the order. */
  lemma LocalRankedSnoc(prev: seq<LocalAlert>, next: seq<LocalAlert>, r: nat)
    requires LocalRanked(prev) && |next| <= 1
    requires forall a :: a in prev ==> LocalRank(a) < r
    requires forall a :: a in next ==> LocalRank(a) == r
    ensures LocalRanked(prev + next)
  {
    var all := prev + next;
    forall i, j | 0 <= i < j < |all| ensures LocalRank(all[i]) < LocalRank(all[j]) {
      if j >= |prev| {
        assert all[j] in next && all[i] in prev;
      }
    }
  }

  lemma {:induction false} LocalFamilyAlertsWithin(row: Row, fs: seq<Family>)
    ensures forall a :: a in LocalFamilyAlerts(row, fs) ==> (a.Up? || a.Down?) && a.family in fs
  {
    if fs != [] {
      LocalFamilyAlertsWithin(row, fs[..|fs| - 1]);
    }
  }

  lemma {:induction false} LocalFamilyAlertsTags(row: Row, fs: seq<Family>, f: Family)
    ensures Up(f) in LocalFamilyAlerts(row, fs) <==> f in fs && Above(Local(row, f), HighBound)
    ensures Down(f) in LocalFamilyAlerts(row, fs) <==> f in fs && Below(Local(row, f), LowBound)
  {
    if fs != [] {
      var init, last := fs[..|fs| - 1], fs[|fs| - 1];
      assert fs == init + [last];
      LocalFamilyAlertsTags(row, init, f);
    }
  }

  /** Local tags come in family order, at most one per family, with the revenue tag last. */
  lemma LocalAlertsRanked(row: Row, bound: real)
    ensures LocalRanked(LocalAlerts(row, bound))
    ensures forall i :: 0 <= i < |LocalAlerts(row, bound)| && LocalRank(LocalAlerts(row, bound)[i]) == |Families| ==>
      i == |LocalAlerts(row, bound)| - 1
  {
    LocalFamilyAlertsShape(row, Families);
    LocalFamilyAlertsWithin(row, Families);
    var fam, all := LocalFamilyAlerts(row, Families), LocalAlerts(row, bound);
    forall a | a in fam ensures LocalRank(a) < |Families| {
    }
  }

  /** Which tags a row gets: each exactly when its strict threshold is crossed by a present value. */
  lemma LocalAlertsMembership(row: Row, bound: real, f: Family)
    ensures Up(f) in LocalAlerts(row, bound) <==> Above(Local(row, f), HighBound)
    ensures Down(f) in LocalAlerts(row, bound) <==> Below(Local(row, f), LowBound)
    ensures RevenueUp in LocalAlerts(row, bound) <==> Above(Get(row, RevenueKey), bound)
    ensures RevenueDown in LocalAlerts(row, bound) <==>
      Below(Get(row, RevenueKey), -bound) && !Above(Get(row, RevenueKey), bound)
  {
    LocalFamilyAlertsTags(row, Families, f);
    LocalFamilyAlertsWithin(row, Families);
    assert f in Families by { assert Families[Index(f)] == f; }
  }

  /** With every present local score inside [0.2, 0.8], the local tags are the revenue tag alone. */
  lemma RevenueAlone(row: Row, bound: real)
    requires forall f :: !Above(Local(row, f), HighBound) && !Below(Local(row, f), LowBound)
    ensures LocalAlerts(row, bound) == RevenueAlert(row, bound)
  {
    var fam := LocalFamilyAlerts(row, Families);
    LocalFamilyAlertsWithin(row, Families);
    if fam != [] {
      LocalFamilyAlertsTags(row, Families, fam[0].family);
    }
  }

  /** Nothing to report: every present local score in [0.2, 0.8], revenue absent or within [-bound, bound]. */
  ghost predicate LocalQuiet(row: Row, bound: real)
  {
    && (forall f :: !Above(Local(row, f), HighBound) && !Below(Local(row, f), LowBound))
    && !Above(Get(row, RevenueKey), bound)
    && !Below(Get(row, RevenueKey), -bound)
  }

  /** The local summary is the empty string exactly when the row is quiet. */
  lemma LocalSummaryEmptyIff(row: Row, bound: real)
    ensures LocalSummary(row, bound) == "" <==> LocalQuiet(row, bound)
  {
    var alerts := LocalAlerts(row, bound);
    var texts := LocalTexts(alerts);
    forall i | 0 <= i < |texts| ensures texts[i] != "" {
      assert |texts[i]| > 0;
    }
    JoinEmptyIff(texts, ", ");
    if alerts != [] {
      match alerts[0]
      case Up(f) => LocalAlertsMembership(row, bound, f);
      case Down(f) => LocalAlertsMembership(row, bound, f);
      case RevenueUp => LocalAlertsMembership(row, bound, Profitability);
      case RevenueDown => LocalAlertsMembership(row, bound, Profitability);
    } else {
      forall f ensures !Above(Local(row, f), HighBound) && !Below(Local(row, f), LowBound) {
        LocalAlertsMembership(row, bound, f);
      }
      LocalAlertsMembership(row, bound, Profitability);
    }
  }

  // ---------------------------------------------------------------- global

  /** The tag one family adds to the global summary: `High` above 0.8, else `Low` below 0.2. */
  function GlobalFamilyAlert(row: Row, f: Family, sp: Spelling): seq<GlobalAlert>
  {
    var global := Global(row, f, sp);
    if Above(global, HighBound) then [High(f)]
    else if Below(global, LowBound) then [Low(f)]
    else []
  }

  function GlobalFamilyAlerts(row: Row, fs: seq<Family>, sp: Spelling): (r: seq<GlobalAlert>)
    ensures |r| <= |fs|
  {
    if fs == [] then []
    else GlobalFamilyAlerts(row, fs[..|fs| - 1], sp) + GlobalFamilyAlert(row, fs[|fs| - 1], sp)
  }

  /** Every global tag of a row, before rendering; there is no revenue tag. */
  function GlobalAlerts(row: Row, sp: Spelling): (r: seq<GlobalAlert>)
    ensures |r| <= |Families|
  {
    GlobalFamilyAlerts(row, Families, sp)
  }

  /** The string `get_global_alerts` returns. */
  function GlobalSummary(row: Row, sp: Spelling): string
  {
    Join(GlobalTexts(GlobalAlerts(row, sp)), ", ")
  }

  /** `get_global_alerts`: the loop appends one tag per family; the tags are rendered as they are joined. */
  method GetGlobalAlerts(row: Row, sp: Spelling) returns (summary: string)
    ensures summary == GlobalSummary(row, sp)
  {
    var alerts: seq<GlobalAlert> := [];
    for i := 0 to |Families|
      invariant alerts == GlobalFamilyAlerts(row, Families[..i], sp)
    {
      var score := Families[i];
      var global := Global(row, score, sp);
      assert Families[..i + 1][..i] == Families[..i];
      if global.Some? {
        if global.value > HighBound {
          alerts := alerts + [High(score)];
        } else if global.value < LowBound {
          alerts := alerts + [Low(score)];
        }
      }
    }
    assert Families[..|Families|] == Families;
    summary := Join(GlobalTexts(alerts), ", ");
  }

  lemma {:induction false} GlobalFamilyAlertsShape(row: Row, fs: seq<Family>, sp: Spelling)
    requires InFamilyOrder(fs)
    ensures GlobalRanked(GlobalFamilyAlerts(row, fs, sp))
  {
    if fs != [] {
      var init, last := fs[..|fs| - 1], fs[|fs| - 1];
      GlobalFamilyAlertsShape(row, init, sp);
      GlobalFamilyAlertsWithin(row, init, sp);
      var prev := GlobalFamilyAlerts(row, init, sp);
      forall a | a in prev ensures GlobalRank(a) < Index(last) {
        var k :| 0 <= k < |init| && init[k] == a.family;
        assert fs[k] == a.family;
      }
      GlobalRankedSnoc(prev, GlobalFamilyAlert(row, last, sp), Index(last));
    }
  }

  lemma GlobalRankedSnoc(prev: seq<GlobalAlert>, next: seq<GlobalAlert>, r: nat)
    requires GlobalRanked(prev) && |next| <= 1
    requires forall a :: a in prev ==> GlobalRank(a) < r
    requires forall a :: a in next ==> GlobalRank(a) == r
    ensures GlobalRanked(prev + next)
  {
    var all := prev + next;
    forall i, j | 0 <= i < j < |all| ensures GlobalRank(all[i]) < GlobalRank(all[j]) {
      if j >= |prev| {
        assert all[j] in next && all[i] in prev;
      }
    }
  }

  lemma {:induction false} GlobalFamilyAlertsWithin(row: Row, fs: seq<Family>, sp: Spelling)
    ensures forall a :: a in GlobalFamilyAlerts(row, fs, sp) ==> a.family in fs
  {
    if fs != [] {
      GlobalFamilyAlertsWithin(row, fs[..|fs| - 1], sp);
    }
  }

  lemma {:induction false} GlobalFamilyAlertsTags(row: Row, fs: seq<Family>, sp: Spelling, f: Family)
    ensures High(f) in GlobalFamilyAlerts(row, fs, sp) <==> f in fs && Above(Global(row, f, sp), HighBound)
    ensures Low(f) in GlobalFamilyAlerts(row, fs, sp) <==> f in fs && Below(Global(row, f, sp), LowBound)
  {
    if fs != [] {
      var init, last := fs[..|fs| - 1], fs[|fs| - 1];
      assert fs == init + [last];
      GlobalFamilyAlertsTags(row, init, sp, f);
    }
  }

  /** Global tags: family order, at most one per family, each exactly when its threshold is crossed. */
  lemma GlobalAlertsMembership(row: Row, sp: Spelling, f: Family)
    ensures GlobalRanked(GlobalAlerts(row, sp))
    ensures High(f) in GlobalAlerts(row, sp) <==> Above(Global(row, f, sp), HighBound)
    ensures Low(f) in GlobalAlerts(row, sp) <==> Below(Global(row, f, sp), LowBound)
  {
    GlobalFamilyAlertsShape(row, Families, sp);
    GlobalFamilyAlertsTags(row, Families, sp, f);
    assert f in Families by { assert Families[Index(f)] == f; }
  }

  /** The global summary is empty exactly when no present global score is outside [0.2, 0.8]. */
  lemma GlobalSummaryEmptyIff(row: Row, sp: Spelling)
    ensures GlobalSummary(row, sp) == "" <==>
      forall f :: !Above(Global(row, f, sp), HighBound) && !Below(Global(row, f, sp), LowBound)
  {
    var alerts := GlobalAlerts(row, sp);
    var texts := GlobalTexts(alerts);
    forall i | 0 <= i < |texts| ensures texts[i] != "" {
      assert |texts[i]| > 0;
    }
    JoinEmptyIff(texts, ", ");
    if alerts != [] {
      GlobalAlertsMembership(row, sp, alerts[0].family);
    } else {
      forall f ensures !Above(Global(row, f, sp), HighBound) && !Below(Global(row, f, sp), LowBound) {
        GlobalAlertsMembership(row, sp, f);
      }
    }
  }
}
