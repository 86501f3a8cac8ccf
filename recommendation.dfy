/**
 * `get_recommendation`: up to four phrases built from intersections and
 * differences of the indicator sets, joined with ". " and closed with ".",
 * or a fixed sentence when there is nothing to say.
 *
 * Each phrase lists a Python `set` of family names, whose iteration order is
 * not fixed. Phrases are therefore kept as (kind, set) pairs, and rendering
 * takes the order in which a set is iterated as a parameter `iterate`.
 */
module Recommendation {
  import opened Text
  import opened Rows
  import opened Indicators

  datatype PhraseKind = BothWeak | LocalOnly | GlobalOnly | StrongIn

  datatype Phrase = Phrase(kind: PhraseKind, families: set<Family>)

  function Prefix(k: PhraseKind): string
  {
    match k
    case BothWeak => "Weak both locally and globally: "
    case LocalOnly => "Internal weakness (local only): "
    case GlobalOnly => "Global peer underperformance: "
    case StrongIn => "Strong performance in: "
  }

  /** Position of a phrase kind in the order the phrases are appended. */
  function KindRank(k: PhraseKind): nat
  {
    match k
    case BothWeak => 0
    case LocalOnly => 1
    case GlobalOnly => 2
    case StrongIn => 3
  }

  const Default: string := "No specific concern or strength detected."

  /** `if s: phrases.append(...)`: a phrase only for a non-empty set. */
  function PhraseIf(k: PhraseKind, s: set<Family>): seq<Phrase>
  {
    if s == {} then [] else [Phrase(k, s)]
  }

  /** The families a phrase of kind `k` lists: an intersection or a difference of the sets. */
  function KindSet(p: IndicatorSets, k: PhraseKind): set<Family>
  {
    match k
    case BothWeak => p.CommonLow()
    case LocalOnly => p.localLow - p.globalLow
    case GlobalOnly => p.globalLow - p.localLow
    case StrongIn => p.CommonHigh()
  }

  /** The phrases of a row's sets, in the order they are appended. */
  function Phrases(p: IndicatorSets): seq<Phrase>
  {
    PhraseIf(BothWeak, KindSet(p, BothWeak))
    + PhraseIf(LocalOnly, KindSet(p, LocalOnly))
    + PhraseIf(GlobalOnly, KindSet(p, GlobalOnly))
    + PhraseIf(StrongIn, KindSet(p, StrongIn))
  }

  /** `xs` lists every element of `s` exactly once: one iteration of a Python set. */
  predicate Enumerates(xs: seq<Family>, s: set<Family>)
  {
    multiset(xs) == multiset(s)
  }

  function Names(xs: seq<Family>): (r: seq<string>)
    ensures |r| == |xs|
  {
    seq(|xs|, i requires 0 <= i < |xs| => Name(xs[i]))
  }

  function Labels(xs: seq<Family>): (r: seq<string>)
    ensures |r| == |xs|
  {
    seq(|xs|, i requires 0 <= i < |xs| => Label(xs[i]))
  }

  /** `f"{prefix}{', '.join(s).title()}"`, with `s` iterated in the order `order`. */
  function PhraseText(ph: Phrase, order: seq<Family>): string
  {
    Prefix(ph.kind) + Title(Join(Names(order), ", "))
  }

  function PhraseTexts(phs: seq<Phrase>, iterate: set<Family> -> seq<Family>): (r: seq<string>)
    ensures |r| == |phs|
  {
    seq(|phs|, i requires 0 <= i < |phs| => PhraseText(phs[i], iterate(phs[i].families)))
  }

  /** The string `get_recommendation` returns for a row's sets. */
  function RecommendationText(p: IndicatorSets, iterate: set<Family> -> seq<Family>): string
  {
    var phs := Phrases(p);
    if phs == [] then Default else Join(PhraseTexts(phs, iterate), ". ") + "."
  }

  /** `get_recommendation`: build the sets with the four-`if` loop, then append the phrases. */
  method GetRecommendation(row: Row, sp: Spelling, iterate: set<Family> -> seq<Family>) returns (text: string)
    ensures text == RecommendationText(Partition(row, sp), iterate)
  {
    var sets := BuildRecommendationSets(row, sp);
    var phrases := AppendPhrases(sets, iterate);
    if phrases == [] {
      text := Default;
    } else {
      text := Join(phrases, ". ") + ".";
    }
  }

  /** The four `if ...: phrases.append(...)` steps of `get_recommendation`. */
  method AppendPhrases(sets: IndicatorSets, iterate: set<Family> -> seq<Family>) returns (phrases: seq<string>)
    ensures phrases == PhraseTexts(Phrases(sets), iterate)
  {
    phrases := AppendIf([], [], BothWeak, sets.CommonLow(), iterate);
    ghost var built := PhraseIf(BothWeak, KindSet(sets, BothWeak));
    phrases := AppendIf(phrases, built, LocalOnly, sets.localLow - sets.globalLow, iterate);
    built := built + PhraseIf(LocalOnly, KindSet(sets, LocalOnly));
    phrases := AppendIf(phrases, built, GlobalOnly, sets.globalLow - sets.localLow, iterate);
    built := built + PhraseIf(GlobalOnly, KindSet(sets, GlobalOnly));
    phrases := AppendIf(phrases, built, StrongIn, sets.CommonHigh(), iterate);
  }

  /** One `if s: phrases.append(f"{prefix}{', '.join(s).title()}")` step. */
  method AppendIf(phrases: seq<string>, ghost built: seq<Phrase>, k: PhraseKind, s: set<Family>,
                  iterate: set<Family> -> seq<Family>) returns (next: seq<string>)
    requires phrases == PhraseTexts(built, iterate)
    ensures next == PhraseTexts(built + PhraseIf(k, s), iterate)
  {
    next := phrases;
    if s != {} {
      var ph := Phrase(k, s);
      PhraseTextsAppend(built, [ph], iterate);
      next := next + [PhraseText(ph, iterate(ph.families))];
    }
  }

  lemma PhraseTextsAppend(a: seq<Phrase>, b: seq<Phrase>, iterate: set<Family> -> seq<Family>)
    ensures PhraseTexts(a + b, iterate) == PhraseTexts(a, iterate) + PhraseTexts(b, iterate)
  {
  }

  /** A non-empty kind set gives a phrase, and every phrase lists its kind's set. */
  lemma PhraseOfKind(p: IndicatorSets, k: PhraseKind)
    ensures Phrase(k, KindSet(p, k)) in Phrases(p) <==> KindSet(p, k) != {}
    ensures forall ph :: ph in Phrases(p) ==> ph.families == KindSet(p, ph.kind)
  {
  }

  /**
   * The phrases come in the fixed order both-weak, local-only, global-only,
   * strong, each at most once and never with an empty family set; there is
   * no phrase at all exactly when nothing is low and nothing is high in both
   * views.
   */
  lemma PhrasesShape(p: IndicatorSets)
    ensures |Phrases(p)| <= 4
    ensures forall i, j :: 0 <= i < j < |Phrases(p)| ==> KindRank(Phrases(p)[i].kind) < KindRank(Phrases(p)[j].kind)
    ensures forall ph :: ph in Phrases(p) ==> ph.families != {}
    ensures Phrases(p) == [] <==>
      p.CommonLow() == {} && p.localLow - p.globalLow == {} && p.globalLow - p.localLow == {} && p.CommonHigh() == {}
    ensures Phrases(p) == [] <==> p.localLow == {} && p.globalLow == {} && p.CommonHigh() == {}
  {
    assert p.localLow == (p.localLow - p.globalLow) + p.CommonLow();
    assert p.globalLow == (p.globalLow - p.localLow) + p.CommonLow();
  }

  /**
   * A family named by the local-only or global-only phrase is never named by
   * the both-weak phrase; a low family is named by exactly one of the three
   * low phrases.
   */
  lemma LowPhrasesPartition(p: IndicatorSets, f: Family)
    ensures forall ph, qh :: (ph in Phrases(p) && qh in Phrases(p) && ph.kind == BothWeak &&
      (qh.kind == LocalOnly || qh.kind == GlobalOnly)) ==> ph.families !! qh.families
    ensures f in p.localLow + p.globalLow ==>
      |set ph | ph in Phrases(p) && ph.kind != StrongIn && f in ph.families| == 1
  {
    PhraseOfKind(p, BothWeak);
    if f in p.localLow + p.globalLow {
      var k := if f in p.CommonLow() then BothWeak else if f in p.localLow then LocalOnly else GlobalOnly;
      PhraseOfKind(p, k);
      var named := set ph | ph in Phrases(p) && ph.kind != StrongIn && f in ph.families;
      forall ph | ph in named ensures ph == Phrase(k, KindSet(p, k)) {
        assert ph.families == KindSet(p, ph.kind);
      }
      assert f in KindSet(p, k);
      assert Phrase(k, KindSet(p, k)) in named;
      assert named == {Phrase(k, KindSet(p, k))};
    }
  }

  /**
   * A family is named by some phrase exactly when it is low in some view or
   * high in both; in particular a family high in one view only, and low in
   * neither, is named nowhere.
   */
  lemma PhraseCoverage(p: IndicatorSets, f: Family)
    ensures (exists ph :: ph in Phrases(p) && f in ph.families) <==> f in p.localLow + p.globalLow + p.CommonHigh()
  {
    if f in p.localLow + p.globalLow + p.CommonHigh() {
      var k := if f in p.CommonLow() then BothWeak
        else if f in p.localLow - p.globalLow then LocalOnly
        else if f in p.globalLow - p.localLow then GlobalOnly
        else StrongIn;
      PhraseOfKind(p, k);
    }
    PhraseOfKind(p, BothWeak);
  }

  /** Each phrase text starts with a capital other than the default sentence's 'N'. */
  lemma PhraseTextHead(ph: Phrase, order: seq<Family>)
    ensures |PhraseText(ph, order)| > 0 && PhraseText(ph, order)[0] in "WIGS"
  {
  }

  /** The default sentence is returned exactly when no phrase is built. */
  lemma DefaultIff(p: IndicatorSets, iterate: set<Family> -> seq<Family>)
    ensures RecommendationText(p, iterate) == Default <==> Phrases(p) == []
  {
    var phs := Phrases(p);
    if phs != [] {
      var texts := PhraseTexts(phs, iterate);
      PhraseTextHead(phs[0], iterate(phs[0].families));
      JoinStartsWithFirst(texts, ". ");
      var text := RecommendationText(p, iterate);
      assert text[0] == Join(texts, ". ")[..|texts[0]|][0] == texts[0][0];
      assert text[0] != Default[0];
    }
  }

  /** Every recommendation, default or not, is non-empty and ends with a full stop. */
  lemma EndsWithPeriod(p: IndicatorSets, iterate: set<Family> -> seq<Family>)
    ensures |RecommendationText(p, iterate)| > 0
    ensures RecommendationText(p, iterate)[|RecommendationText(p, iterate)| - 1] == '.'
  {
  }

  /** `', '.join(names).title()` capitalises each family name, so a phrase lists the families' labels. */
  lemma PhraseTextLabels(ph: Phrase, order: seq<Family>)
    ensures PhraseText(ph, order) == Prefix(ph.kind) + Join(Labels(order), ", ")
  {
    TitleOfCommaJoin(Names(order));
    assert TitleEach(Names(order)) == Labels(order);
  }

  /** With nothing low, the recommendation is the strength phrase alone, or the default sentence. */
  lemma StrengthOnly(p: IndicatorSets, iterate: set<Family> -> seq<Family>)
    requires p.localLow == {} && p.globalLow == {}
    ensures p.CommonHigh() == {} ==> RecommendationText(p, iterate) == Default
    ensures p.CommonHigh() != {} ==>
      RecommendationText(p, iterate) == Prefix(StrongIn) + Join(Labels(iterate(p.CommonHigh())), ", ") + "."
  {
    if p.CommonHigh() != {} {
      var ph := Phrase(StrongIn, p.CommonHigh());
      assert Phrases(p) == [ph];
      PhraseTextLabels(ph, iterate(p.CommonHigh()));
      assert PhraseTexts(Phrases(p), iterate) == [PhraseText(ph, iterate(p.CommonHigh()))];
    }
  }

  /** A one-family phrase reads the same whatever the set's iteration order. */
  lemma SingletonPhrase(ph: Phrase, f: Family, order: seq<Family>)
    requires ph.families == {f} && Enumerates(order, ph.families)
    ensures PhraseText(ph, order) == Prefix(ph.kind) + Label(f)
  {
    assert order != [] by {
      assert f in order;
    }
    assert |order| == |multiset(order)| == 1;
    assert order[0] in multiset(order);
    assert order == [f];
    PhraseTextLabels(ph, order);
  }
}
