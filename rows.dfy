/**
 * One (company, quarter) row of the scores table, the four indicator
 * families, the column names the pages read, and the fixed thresholds.
 */
module Rows {
  import opened Text

  datatype Option<T> = None | Some(value: T)

  /** The four indicator families, in the order every page iterates them. */
  datatype Family = Profitability | Liquidity | Solvency | LeverageAdjusted

  const Families: seq<Family> := [Profitability, Liquidity, Solvency, LeverageAdjusted]

  /** Position of a family in `Families`. */
  function Index(f: Family): (k: nat)
    ensures k < |Families| && Families[k] == f
  {
    match f
    case Profitability => 0
    case Liquidity => 1
    case Solvency => 2
    case LeverageAdjusted => 3
  }

  /** The family's name as it appears inside column names. */
  function Name(f: Family): string
  {
    match f
    case Profitability => "profitability"
    case Liquidity => "liquidity"
    case Solvency => "solvency"
    case LeverageAdjusted => "leverage_adjusted"
  }

  /** The family as displayed in alerts and recommendations: `score.title()`. */
  function Label(f: Family): string
  {
    Title(Name(f))
  }

  /** Title-casing treats the underscore as a word break. */
  lemma LeverageLabel()
    ensures Label(LeverageAdjusted) == "Leverage_Adjusted"
  {
    var a, b := "leverage", "adjusted";
    assert Name(LeverageAdjusted) == a + "_" + b;
    SnakeTitle(a, b);
    assert Upper(a[0]) == 'L' && Upper(b[0]) == 'A';
    assert [Upper(a[0])] + a[1..] + "_" + [Upper(b[0])] + b[1..] == "Leverage_Adjusted";
  }

  /** `w.title()` capitalises the first letter of a lower-case word and keeps the rest. */
  lemma WordTitle(w: string)
    requires w != [] && forall i :: 0 <= i < |w| ==> 'a' <= w[i] <= 'z'
    ensures Title(w) == [Upper(w[0])] + w[1..]
  {
    LowerWordKept(w[1..]);
  }

  /** The four labels as the pages display them. */
  lemma FamilyLabels()
    ensures Label(Profitability) == "Profitability"
    ensures Label(Liquidity) == "Liquidity"
    ensures Label(Solvency) == "Solvency"
    ensures Label(LeverageAdjusted) == "Leverage_Adjusted"
  {
    WordTitle("profitability");
    WordTitle("liquidity");
    WordTitle("solvency");
    LeverageLabel();
  }

  /** `"a_b".title()` capitalises both words of a lower-case snake-case name. */
  lemma SnakeTitle(a: string, b: string)
    requires a != [] && forall i :: 0 <= i < |a| ==> 'a' <= a[i] <= 'z'
    requires b != [] && forall i :: 0 <= i < |b| ==> 'a' <= b[i] <= 'z'
    ensures Title(a + "_" + b) == [Upper(a[0])] + a[1..] + "_" + [Upper(b[0])] + b[1..]
  {
    LowerWordKept(a[1..]);
    LowerWordKept(b[1..]);
    assert a + "_" + b == a + ("_" + b);
    TitleFromConcat(a, "_" + b, false);
    assert ("_" + b)[1..] == b;
  }

  /** After a cased character, a lower-case word is left as it is. */
  lemma {:induction false} LowerWordKept(w: string)
    requires forall i :: 0 <= i < |w| ==> 'a' <= w[i] <= 'z'
    ensures TitleFrom(w, true) == w
  {
    if w != [] {
      LowerWordKept(w[1..]);
    }
  }

  /**
   * Which key a page reads for the profitability global score: the data set
   * spells it `score_profitabilty_global`, and all pages but one follow it.
   */
  datatype Spelling = Misspelled | Correct

  function LocalKey(f: Family): string
  {
    "score_" + Name(f) + "_local"
  }

  function GlobalKey(f: Family, sp: Spelling): string
  {
    if f == Profitability && sp == Misspelled then "score_profitabilty_global"
    else "score_" + Name(f) + "_global"
  }

  const RevenueKey: string := "revenue_growth"

  /**
   * A row maps column names to numbers. A key that is absent stands both for
   * a missing column and for a NaN cell: every read is guarded by
   * `pd.notna` (or by `is not None` followed by a comparison that NaN fails).
   */
  type Row = map<string, real>

  /** `row.get(key)`, with NaN folded into absence. */
  function Get(row: Row, key: string): Option<real>
  {
    if key in row then Some(row[key]) else None
  }

  function Local(row: Row, f: Family): Option<real>
  {
    Get(row, LocalKey(f))
  }

  function Global(row: Row, f: Family, sp: Spelling): Option<real>
  {
    Get(row, GlobalKey(f, sp))
  }

  /** The thresholds every page uses for the four score families. */
  const LowBound: real := 0.2
  const HighBound: real := 0.8

  /** `revenue_growth`'s "boost" threshold, used by the local status. */
  const RevenueBoost: real := 0.1

  /** Present and strictly below `t`. */
  predicate Below(v: Option<real>, t: real)
  {
    v.Some? && v.value < t
  }

  /** Present and strictly above `t`. */
  predicate Above(v: Option<real>, t: real)
  {
    v.Some? && v.value > t
  }

  /** Every key any page reads from a row. */
  function InputKeys(sp: Spelling): set<string>
  {
    (set f | f in Families :: LocalKey(f)) + (set f | f in Families :: GlobalKey(f, sp)) + {RevenueKey}
  }

  /** The engine reads nine different columns: no two families, views or the revenue share a key. */
  lemma KeysDistinct(sp: Spelling)
    ensures forall f, g :: LocalKey(f) == LocalKey(g) ==> f == g
    ensures forall f, g :: GlobalKey(f, sp) == GlobalKey(g, sp) ==> f == g
    ensures forall f, g :: LocalKey(f) != GlobalKey(g, sp)
    ensures forall f :: LocalKey(f) != RevenueKey && GlobalKey(f, sp) != RevenueKey
  {
    forall f, g ensures LocalKey(f) != GlobalKey(g, sp) {
      var l, k := LocalKey(f), GlobalKey(g, sp);
      assert l[|l| - 3] == 'c';
      assert k[|k| - 3] == 'b';
    }
  }

  /** The two spellings of the profitability global key are different columns. */
  lemma SpellingsDiffer()
    ensures GlobalKey(Profitability, Misspelled) != GlobalKey(Profitability, Correct)
  {
    assert GlobalKey(Profitability, Correct) == "score_profitability_global";
    assert GlobalKey(Profitability, Misspelled)[17] != GlobalKey(Profitability, Correct)[17];
  }
}
