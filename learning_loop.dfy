/**
 * The learning loop: turns the feedback statistics into error rates, flags the
 * categories with much feedback, suggests improvements and decides whether a
 * retraining is due. Rates are exact rationals; float rounding and the
 * one-decimal formatting of the suggestion texts are not modelled.
 */
module LearningLoop {
  import Seqs
  import FeedbackManager

  type MetaValue = FeedbackManager.MetaValue

  datatype Patterns = Patterns(
    falsePositiveRate: real, falseNegativeRate: real,
    categoriesNeedingImprovement: seq<MetaValue>, totalFeedback: int)

  /** A category with at least this many entries is flagged. */
  const CategoryThreshold: nat := 5

  /** `stats.get("total_feedback", 0)`: an error answer has no total. */
  function TotalOf(st: FeedbackManager.Stats): int {
    if st.Counts? then st.total else 0
  }

  /** `stats.get("by_type", {})` and `stats.get("by_category", {})`. */
  function ByType(st: FeedbackManager.Stats): Seqs.Tally<MetaValue> {
    if st.Counts? then st.byType else []
  }

  function ByCategory(st: FeedbackManager.Stats): Seqs.Tally<MetaValue> {
    if st.Counts? then st.byCategory else []
  }

  /** The flagged categories of a tally, in its order. */
  function Flagged(t: Seqs.Tally<MetaValue>): (r: seq<MetaValue>)
    ensures forall k :: k in r <==> exists i :: 0 <= i < |t| && t[i].0 == k && t[i].1 >= CategoryThreshold
  {
    if t == [] then []
    else (if t[0].1 >= CategoryThreshold then [t[0].0] else []) + Flagged(t[1..])
  }

  /**
   * `analyze_feedback_patterns`. With no feedback both rates are 0 and nothing
   * is flagged; otherwise each rate is the share of its type in percent and the
   * flagged categories are those with at least 5 entries, in the order they
   * were first counted.
   */
  method AnalyzeFeedbackPatterns(st: FeedbackManager.Stats) returns (p: Patterns)
    ensures p == PatternsOf(st)
    ensures p.totalFeedback == TotalOf(st)
    ensures TotalOf(st) == 0 ==> p == Patterns(0.0, 0.0, [], 0)
    ensures TotalOf(st) != 0 ==>
      && p.falsePositiveRate == Rate(Seqs.TallyGet(ByType(st), FeedbackManager.Str("false_positive")), TotalOf(st))
      && p.falseNegativeRate == Rate(Seqs.TallyGet(ByType(st), FeedbackManager.Str("false_negative")), TotalOf(st))
      && p.categoriesNeedingImprovement == Flagged(ByCategory(st))
  {
    var total := TotalOf(st);
    p := Patterns(0.0, 0.0, [], total);
    if total == 0 {
      return;
    }
    var fp := Seqs.TallyGet(ByType(st), FeedbackManager.Str("false_positive"));
    var fn := Seqs.TallyGet(ByType(st), FeedbackManager.Str("false_negative"));
    p := p.(falsePositiveRate := Rate(fp, total), falseNegativeRate := Rate(fn, total));
    var byCategory := ByCategory(st);
    var i := 0;
    while i < |byCategory|
      invariant 0 <= i <= |byCategory|
      invariant p.categoriesNeedingImprovement + Flagged(byCategory[i..]) == Flagged(byCategory)
      invariant p.totalFeedback == total && p.falsePositiveRate == Rate(fp, total) && p.falseNegativeRate == Rate(fn, total)
    {
      assert byCategory[i..][1..] == byCategory[i + 1..];
      if byCategory[i].1 >= CategoryThreshold {
        p := p.(categoriesNeedingImprovement := p.categoriesNeedingImprovement + [byCategory[i].0]);
      }
      i := i + 1;
    }
  }

  /** The patterns a statistics reading yields, as one value. */
  function PatternsOf(st: FeedbackManager.Stats): Patterns {
    var total := TotalOf(st);
    if total == 0 then Patterns(0.0, 0.0, [], 0)
    else Patterns(Rate(Seqs.TallyGet(ByType(st), FeedbackManager.Str("false_positive")), total),
                  Rate(Seqs.TallyGet(ByType(st), FeedbackManager.Str("false_negative")), total),
                  Flagged(ByCategory(st)), total)
  }

  /** `(count / total) * 100`. */
  function Rate(count: int, total: int): real
    requires total != 0
  {
    (count as real / total as real) * 100.0
  }

  /** A count between 0 and a positive total gives a rate in [0, 100]. */
  lemma {:induction false} RateBounds(count: int, total: int)
    requires 0 <= count <= total && total > 0
    ensures 0.0 <= Rate(count, total) <= 100.0
  {
    assert count as real / total as real <= 1.0 by {
      assert count as real <= total as real;
    }
  }

  /** On statistics read from a collection, both rates lie in [0, 100]. */
  lemma {:induction false} PatternRatesAreBounded(es: seq<FeedbackManager.Entry>)
    requires |es| > 0
    ensures var st := FeedbackManager.StatsOf(es);
      && 0.0 <= Rate(Seqs.TallyGet(ByType(st), FeedbackManager.Str("false_positive")), TotalOf(st)) <= 100.0
      && 0.0 <= Rate(Seqs.TallyGet(ByType(st), FeedbackManager.Str("false_negative")), TotalOf(st)) <= 100.0
  {
    var st := FeedbackManager.StatsOf(es);
    FeedbackManager.StatsFacts(es);
    var ks := FeedbackManager.Keys(es, "feedback_type");
    MultiplicityBound(ks, FeedbackManager.Str("false_positive"));
    MultiplicityBound(ks, FeedbackManager.Str("false_negative"));
    RateBounds(Seqs.TallyGet(ByType(st), FeedbackManager.Str("false_positive")), |es|);
    RateBounds(Seqs.TallyGet(ByType(st), FeedbackManager.Str("false_negative")), |es|);
  }

  lemma MultiplicityBound<T>(s: seq<T>, x: T)
    ensures multiset(s)[x] <= |s|
  {
    assert multiset(s)[x] <= |multiset(s)|;
  }

  /** The suggestions, in the order they are made. */
  datatype Suggestion =
    | HighFalsePositiveRate(rate: real)
    | HighFalseNegativeRate(rate: real)
    | CategoriesNeedingAttention(categories: seq<MetaValue>)

  /**
   * What `get_improvement_suggestions` answers for the patterns `p`: a
   * false-positive suggestion exactly when that rate is above 20, a
   * false-negative one exactly when that rate is above 20, a category one
   * exactly when some category is flagged, nothing else, and in that order.
   */
  predicate Suggests(p: Patterns, s: seq<Suggestion>) {
    && |s| <= 3
    && (HighFalsePositiveRate(p.falsePositiveRate) in s <==> p.falsePositiveRate > 20.0)
    && (HighFalseNegativeRate(p.falseNegativeRate) in s <==> p.falseNegativeRate > 20.0)
    && (CategoriesNeedingAttention(p.categoriesNeedingImprovement) in s <==> p.categoriesNeedingImprovement != [])
    && (forall x :: x in s ==>
          x == HighFalsePositiveRate(p.falsePositiveRate) || x == HighFalseNegativeRate(p.falseNegativeRate)
          || x == CategoriesNeedingAttention(p.categoriesNeedingImprovement))
    && (forall i :: 0 <= i < |s| ==>
          (s[i].HighFalsePositiveRate? ==> i == 0)
          && (s[i].HighFalseNegativeRate? ==> forall j :: 0 <= j < i ==> s[j].HighFalsePositiveRate?)
          && (s[i].CategoriesNeedingAttention? ==> i == |s| - 1))
  }

  /** `get_improvement_suggestions`, on patterns already computed. */
  method GetImprovementSuggestions(p: Patterns) returns (s: seq<Suggestion>)
    ensures Suggests(p, s)
  {
    s := [];
    if p.falsePositiveRate > 20.0 {
      s := s + [HighFalsePositiveRate(p.falsePositiveRate)];
    }
    if p.falseNegativeRate > 20.0 {
      s := s + [HighFalseNegativeRate(p.falseNegativeRate)];
    }
    if p.categoriesNeedingImprovement != [] {
      s := s + [CategoriesNeedingAttention(p.categoriesNeedingImprovement)];
    }
  }

  /** `Suggests` leaves exactly one list for each set of patterns. */
  lemma {:induction false} SuggestionsDetermined(p: Patterns, s: seq<Suggestion>, t: seq<Suggestion>)
    requires Suggests(p, s) && Suggests(p, t)
    ensures s == t
  {
    var fp := HighFalsePositiveRate(p.falsePositiveRate);
    var fn := HighFalseNegativeRate(p.falseNegativeRate);
    var cat := CategoriesNeedingAttention(p.categoriesNeedingImprovement);
    var want := (if p.falsePositiveRate > 20.0 then [fp] else [])
      + (if p.falseNegativeRate > 20.0 then [fn] else [])
      + (if p.categoriesNeedingImprovement != [] then [cat] else []);
    OnlySuggestionList(p, s, want);
    OnlySuggestionList(p, t, want);
  }

  lemma {:induction false} OnlySuggestionList(p: Patterns, s: seq<Suggestion>, want: seq<Suggestion>)
    requires Suggests(p, s)
    requires want == (if p.falsePositiveRate > 20.0 then [HighFalsePositiveRate(p.falsePositiveRate)] else [])
      + (if p.falseNegativeRate > 20.0 then [HighFalseNegativeRate(p.falseNegativeRate)] else [])
      + (if p.categoriesNeedingImprovement != [] then [CategoriesNeedingAttention(p.categoriesNeedingImprovement)] else [])
    ensures s == want
  {
    // Every element is one of the three kinds, and the ordering clauses fix
    // which kind stands at each of the (at most three) positions.
    var fp := HighFalsePositiveRate(p.falsePositiveRate);
    var fn := HighFalseNegativeRate(p.falseNegativeRate);
    var cat := CategoriesNeedingAttention(p.categoriesNeedingImprovement);
    if |s| == 0 {
      assert !(fp in s) && !(fn in s) && !(cat in s);
    } else if |s| == 1 {
      assert s[0] in s;
    } else if |s| == 2 {
      assert s[0] in s && s[1] in s;
    } else {
      assert s[0] in s && s[1] in s && s[2] in s;
      assert s[1] == fn;
    }
  }

  /**
   * `should_retrain`: 50 or more entries, or 20 or more approved fixes. A
   * failed statistics read never asks for a retraining, and below fifty
   * entries only the approved fixes can.
   */
  function ShouldRetrain(st: FeedbackManager.Stats): (retrain: bool)
    ensures st.StatsError? ==> !retrain
    ensures TotalOf(st) >= 50 ==> retrain
    ensures retrain && TotalOf(st) < 50 ==> Seqs.TallyGet(ByType(st), FeedbackManager.Str("fix_approved")) >= 20
  {
    TotalOf(st) >= 50 || Seqs.TallyGet(ByType(st), FeedbackManager.Str("fix_approved")) >= 20
  }

  /** A failed statistics read never triggers a retraining and flags nothing. */
  lemma ErrorStatsAreQuiet(msg: string)
    ensures !ShouldRetrain(FeedbackManager.StatsError(msg))
    ensures TotalOf(FeedbackManager.StatsError(msg)) == 0
  {
  }

  /**
   * On a readable collection a retraining is due exactly when it holds fifty
   * entries of any types, or twenty approved fixes.
   */
  lemma {:induction false} RetrainOnApprovedFixes(es: seq<FeedbackManager.Entry>)
    ensures ShouldRetrain(FeedbackManager.StatsOf(es)) <==>
      |es| >= 50 || multiset(FeedbackManager.Keys(es, "feedback_type"))[FeedbackManager.Str("fix_approved")] >= 20
  {
    FeedbackManager.StatsFacts(es);
  }
}
