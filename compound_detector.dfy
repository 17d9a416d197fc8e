/**
 * Compound-risk detection: combinations of risky clauses that are worse
 * together. Three fixed category pairs are looked for, several high risks in
 * one category are escalated, a language model may add its own findings, and
 * the union is de-duplicated. The language model is an input; its answer counts
 * only when every risk in it passes validation.
 */
module CompoundDetector {
  import opened Wrappers
  import Strings
  import Seqs
  import opened Models

  /** One entry of the table of dangerous category pairs. */
  datatype Pattern = Pattern(categories: seq<string>, riskType: string, description: string)

  const DangerousPatterns: seq<Pattern> := [
    Pattern(["Unilateral Termination", "Unlimited Liability"], "Termination + Unlimited " + "Liability",
            "Vendor can terminate at " + "will while maintaining " + "unlimited liability " + "claims"),
    Pattern(["Unilateral Termination", "Non-Compete"], "Termination + " + "Non-Compete Lock-in",
            "Vendor can terminate " + "while non-compete " + "prevents working " + "elsewhere"),
    Pattern(["Unlimited Liability", "Non-Compete"], "Unlimited Liability + " + "Restricted Exit",
            "Unlimited exposure with " + "no ability to work for " + "competitors")
  ]

  const PowerImbalance: string :=
    ". This creates a power " + "imbalance where one " + "party controls both " + "contract duration and " + "financial exposure."
  const PatternAdvice: string :=
    "Negotiate to make both " + "clauses mutual and " + "balanced. If one party " + "can terminate " + "unilaterally, ensure " + "liability is capped and " + "reasonable."

  /** `_score_to_severity`: 85 and up Critical, 70 High, 50 Medium, else Low. */
  function ScoreToSeverity(score: int): (l: Level)
    ensures l == Critical <==> score >= 85
    ensures l == High <==> 70 <= score < 85
    ensures l == Medium <==> 50 <= score < 70
    ensures l == Low <==> score < 50
  {
    if score >= 85 then Critical else if score >= 70 then High else if score >= 50 then Medium else Low
  }

  /** A higher score never gets a lower severity. */
  lemma SeverityMonotone(a: int, b: int)
    requires a <= b
    ensures Rank(ScoreToSeverity(a)) <= Rank(ScoreToSeverity(b))
  {
  }

  function ChunkIds(xs: seq<RiskAnalysis>): (ids: seq<string>)
    ensures |ids| == |xs|
    ensures forall i :: 0 <= i < |xs| ==> ids[i] == xs[i].chunkId
  {
    seq(|xs|, i requires 0 <= i < |xs| => xs[i].chunkId)
  }

  function Scores(xs: seq<RiskAnalysis>): (s: seq<int>)
    ensures |s| == |xs|
    ensures forall i :: 0 <= i < |xs| ==> s[i] == xs[i].finalRiskScore
  {
    seq(|xs|, i requires 0 <= i < |xs| => xs[i].finalRiskScore)
  }

  /** `int(sum(s) / len(s))` for non-negative scores (exact division, truncated). */
  function Mean(s: seq<int>): int
    requires s != []
  {
    Seqs.TruncDiv(Seqs.Sum(s), |s|)
  }

  /** The mean of scores in [lo, hi] (lo non-negative) lies in [lo, hi]. */
  lemma {:induction false} MeanBounds(s: seq<int>, lo: int, hi: int)
    requires s != [] && 0 <= lo
    requires forall i :: 0 <= i < |s| ==> lo <= s[i] <= hi
    ensures lo <= Mean(s) <= hi
  {
    Seqs.SumBounds(s, lo, hi);
    var n, t := |s|, Seqs.Sum(s);
    DivBounds(t, n, lo, hi);
  }

  lemma DivBounds(t: int, n: int, lo: int, hi: int)
    requires n > 0 && 0 <= lo && n * lo <= t <= n * hi
    ensures lo <= t / n <= hi
  {
    var q, m := t / n, t % n;
    assert t == n * q + m && 0 <= m < n;
    MulLess(n, lo, q + 1);
    MulLess(n, q, hi + 1);
  }

  /** Cancelling a positive factor from a strict inequality. */
  lemma MulLess(n: int, a: int, b: int)
    requires n > 0 && n * a < n * b
    ensures a < b
  {
    if a >= b {
      MulMono(n, b, a);
    }
  }

  lemma MulMono(n: int, a: int, b: int)
    requires n > 0 && a <= b
    ensures n * a <= n * b
  {
  }

  // ---------------------------------------------------------------- patterns

  /** `{a.category for a in analyses if a.is_relevant}`. */
  function CategoriesPresent(xs: seq<RiskAnalysis>): set<string> {
    set i | 0 <= i < |xs| && xs[i].isRelevant :: xs[i].category
  }

  /** A pattern fires when both its categories occur among the relevant analyses. */
  predicate Fires(p: Pattern, xs: seq<RiskAnalysis>) {
    forall c :: c in p.categories ==> c in CategoriesPresent(xs)
  }

  /** The relevant analyses in the pattern's categories, in input order. */
  function AffectedAnalyses(p: Pattern, xs: seq<RiskAnalysis>): seq<RiskAnalysis> {
    Seqs.Filter(xs, (a: RiskAnalysis) => a.category in p.categories && a.isRelevant)
  }

  /** Every analysis whose chunk id is among the affected ones. */
  function Involved(xs: seq<RiskAnalysis>, affected: seq<string>): seq<RiskAnalysis> {
    Seqs.Filter(xs, (a: RiskAnalysis) => a.chunkId in affected)
  }

  /** `min(100, mean + 15)`, with 50 standing in for the mean of nothing. */
  function PatternScore(involved: seq<int>): int {
    Seqs.Min(100, (if involved == [] then 50 else Mean(involved)) + 15)
  }

  /**
   * The risk of a firing pattern: the pattern's type, a score capped at 100,
   * and the severity band of that score.
   */
  function PatternRisk(p: Pattern, xs: seq<RiskAnalysis>): (r: CompoundRisk)
    ensures r.riskType == p.riskType
    ensures r.combinedRiskScore <= 100 && r.severity == ScoreToSeverity(r.combinedRiskScore)
  {
    var affected := ChunkIds(AffectedAnalyses(p, xs));
    var score := PatternScore(Scores(Involved(xs, affected)));
    CompoundRisk(p.riskType, ScoreToSeverity(score), p.description + PowerImbalance, affected, PatternAdvice, score)
  }

  /** The pattern risks for the first patterns of a table, in table order. */
  function PatternRisksOf(ps: seq<Pattern>, xs: seq<RiskAnalysis>): seq<CompoundRisk> {
    if ps == [] then []
    else PatternRisksOf(ps[..|ps| - 1], xs)
         + (if Fires(ps[|ps| - 1], xs) then [PatternRisk(ps[|ps| - 1], xs)] else [])
  }

  /** `_detect_pattern_risks`. */
  method DetectPatternRisks(xs: seq<RiskAnalysis>) returns (risks: seq<CompoundRisk>)
    ensures risks == PatternRisksOf(DangerousPatterns, xs)
  {
    risks := [];
    var i := 0;
    while i < |DangerousPatterns|
      invariant 0 <= i <= |DangerousPatterns|
      invariant risks == PatternRisksOf(DangerousPatterns[..i], xs)
    {
      var p := DangerousPatterns[i];
      assert DangerousPatterns[..i + 1][..i] == DangerousPatterns[..i];
      if Fires(p, xs) {
        risks := risks + [PatternRisk(p, xs)];
      }
      i := i + 1;
    }
    assert DangerousPatterns[..i] == DangerousPatterns;
  }

  /**
   * A firing pattern involves at least one chunk: some relevant analysis in its
   * categories exists, so its id list and the involved analyses are non-empty.
   */
  lemma PatternInvolvesSome(p: Pattern, xs: seq<RiskAnalysis>)
    requires Fires(p, xs) && p.categories != []
    ensures var ids := ChunkIds(AffectedAnalyses(p, xs));
      ids != [] && Involved(xs, ids) != []
  {
    var c := p.categories[0];
    assert c in CategoriesPresent(xs);
    var i :| 0 <= i < |xs| && xs[i].isRelevant && xs[i].category == c;
    var aff := AffectedAnalyses(p, xs);
    assert xs[i] in aff;
    var ids := ChunkIds(aff);
    var j :| 0 <= j < |aff| && aff[j] == xs[i];
    assert ids[j] == xs[i].chunkId;
    assert xs[i] in Involved(xs, ids);
  }

  /**
   * A firing pattern lists exactly the chunk ids of the relevant analyses in its
   * categories, in input order; that list is never empty, so the fallback mean
   * of 50 is never used, and the score is the truncated mean of the involved
   * scores plus 15, capped at 100.
   */
  lemma PatternRiskFacts(p: Pattern, xs: seq<RiskAnalysis>)
    requires Fires(p, xs) && p.categories != []
    ensures var r := PatternRisk(p, xs);
      && r.affectedClauseIds == ChunkIds(AffectedAnalyses(p, xs))
      && r.affectedClauseIds != []
      && Involved(xs, r.affectedClauseIds) != []
      && r.combinedRiskScore == Seqs.Min(100, Mean(Scores(Involved(xs, r.affectedClauseIds))) + 15)
      && r.combinedRiskScore <= 100
      && r.severity == ScoreToSeverity(r.combinedRiskScore)
  {
    PatternInvolvesSome(p, xs);
  }

  /** When every analysis has a score in [0, 100], a pattern risk's score lies in [15, 100]. */
  lemma PatternRiskBounded(p: Pattern, xs: seq<RiskAnalysis>)
    requires Fires(p, xs) && p.categories != []
    requires forall i :: 0 <= i < |xs| ==> ValidRiskAnalysis(xs[i])
    ensures 15 <= PatternRisk(p, xs).combinedRiskScore <= 100
  {
    PatternInvolvesSome(p, xs);
    var inv := Involved(xs, ChunkIds(AffectedAnalyses(p, xs)));
    var s := Scores(inv);
    forall k | 0 <= k < |s| ensures 0 <= s[k] <= 100 {
      assert inv[k] in xs;
    }
    MeanBounds(s, 0, 100);
  }

  /**
   * The pattern step yields one risk per firing pattern, in table order, and no
   * other: a risk is produced exactly when some pattern fires and gives it.
   */
  lemma {:induction false} PatternRisksExact(ps: seq<Pattern>, xs: seq<RiskAnalysis>)
    ensures |PatternRisksOf(ps, xs)| <= |ps|
    ensures forall r :: r in PatternRisksOf(ps, xs) <==>
      exists i :: 0 <= i < |ps| && Fires(ps[i], xs) && r == PatternRisk(ps[i], xs)
  {
    if ps != [] {
      var init := ps[..|ps| - 1];
      PatternRisksExact(init, xs);
      forall r | (exists i :: 0 <= i < |ps| && Fires(ps[i], xs) && r == PatternRisk(ps[i], xs))
        ensures r in PatternRisksOf(ps, xs)
      {
        var i :| 0 <= i < |ps| && Fires(ps[i], xs) && r == PatternRisk(ps[i], xs);
        if i < |ps| - 1 {
          assert init[i] == ps[i];
        }
      }
      forall r | r in PatternRisksOf(ps, xs)
        ensures exists i :: 0 <= i < |ps| && Fires(ps[i], xs) && r == PatternRisk(ps[i], xs)
      {
        if r in PatternRisksOf(init, xs) {
          var i :| 0 <= i < |init| && Fires(init[i], xs) && r == PatternRisk(init[i], xs);
          assert ps[i] == init[i];
        } else {
          assert Fires(ps[|ps| - 1], xs) && r == PatternRisk(ps[|ps| - 1], xs);
        }
      }
    }
  }

  // ---------------------------------------------------------- escalation

  /** The analyses the escalation step groups. */
  predicate HighRisk(a: RiskAnalysis) {
    a.isRelevant && a.finalRiskScore >= 70
  }

  /** The insertion-ordered dictionary from category to its high-risk analyses. */
  type Groups = seq<(string, seq<RiskAnalysis>)>

  function GroupKeys(g: Groups): (ks: seq<string>)
    ensures |ks| == |g| && forall i :: 0 <= i < |g| ==> ks[i] == g[i].0
  {
    seq(|g|, i requires 0 <= i < |g| => g[i].0)
  }

  function GroupOf(g: Groups, c: string): seq<RiskAnalysis> {
    if g == [] then [] else if g[0].0 == c then g[0].1 else GroupOf(g[1..], c)
  }

  /** `by_category.setdefault(a.category, []).append(a)`. */
  function AddToGroup(g: Groups, a: RiskAnalysis): (r: Groups)
    ensures |r| == if a.category in GroupKeys(g) then |g| else |g| + 1
  {
    if g == [] then [(a.category, [a])]
    else if g[0].0 == a.category then [(a.category, g[0].1 + [a])] + g[1..]
    else
      assert a.category in GroupKeys(g) <==> a.category in GroupKeys(g[1..]);
      [g[0]] + AddToGroup(g[1..], a)
  }

  function GroupByCategory(xs: seq<RiskAnalysis>): Groups {
    if xs == [] then []
    else
      var g := GroupByCategory(xs[..|xs| - 1]);
      if HighRisk(xs[|xs| - 1]) then AddToGroup(g, xs[|xs| - 1]) else g
  }

  /** The high-risk analyses of one category, in input order. */
  function HighIn(xs: seq<RiskAnalysis>, c: string): seq<RiskAnalysis> {
    Seqs.Filter(xs, (a: RiskAnalysis) => HighRisk(a) && a.category == c)
  }

  /** Adding an analysis appends it to its category's entry and leaves every other entry alone. */
  lemma {:induction false} AddToGroupOf(g: Groups, a: RiskAnalysis)
    ensures forall c :: GroupOf(AddToGroup(g, a), c) == if c == a.category then GroupOf(g, c) + [a] else GroupOf(g, c)
  {
    if g != [] && g[0].0 != a.category {
      AddToGroupOf(g[1..], a);
    }
  }

  /** The keys of a dictionary with a first entry: that entry's key, then the others'. */
  lemma KeysCons(h: (string, seq<RiskAnalysis>), t: Groups)
    ensures GroupKeys([h] + t) == [h.0] + GroupKeys(t)
  {
    var l, r := GroupKeys([h] + t), [h.0] + GroupKeys(t);
    forall i | 0 <= i < |l| ensures l[i] == r[i] {
      if i > 0 {
        assert ([h] + t)[i] == t[i - 1];
      }
    }
  }

  /** Adding an analysis of a new category appends the category to the keys; otherwise the keys stay. */
  lemma {:induction false} AddToGroupKeys(g: Groups, a: RiskAnalysis)
    ensures GroupKeys(AddToGroup(g, a)) == if a.category in GroupKeys(g) then GroupKeys(g) else GroupKeys(g) + [a.category]
  {
    if g == [] {
      assert GroupKeys(AddToGroup(g, a)) == [a.category];
    } else {
      assert g == [g[0]] + g[1..];
      KeysCons(g[0], g[1..]);
      if g[0].0 == a.category {
        KeysCons((a.category, g[0].1 + [a]), g[1..]);
      } else {
        AddToGroupKeys(g[1..], a);
        KeysCons(g[0], AddToGroup(g[1..], a));
      }
    }
  }

  /** With distinct keys, looking up an entry's key gives that entry's analyses. */
  lemma {:induction false} GroupOfIndex(g: Groups, i: int)
    requires Seqs.Distinct(GroupKeys(g)) && 0 <= i < |g|
    ensures GroupOf(g, g[i].0) == g[i].1
  {
    if i > 0 {
      assert GroupKeys(g)[0] != GroupKeys(g)[i];
      assert GroupKeys(g[1..]) == GroupKeys(g)[1..];
      GroupOfIndex(g[1..], i - 1);
    }
  }

  /** Splitting off the last analysis splits each category's high-risk list the same way. */
  lemma HighInSnoc(xs: seq<RiskAnalysis>)
    requires xs != []
    ensures forall c :: HighIn(xs, c) == HighIn(xs[..|xs| - 1], c) + HighIn([xs[|xs| - 1]], c)
  {
    var init, last := xs[..|xs| - 1], xs[|xs| - 1];
    assert xs == init + [last];
    forall c ensures HighIn(xs, c) == HighIn(init, c) + HighIn([last], c) {
      Seqs.FilterAppend(init, [last], (a: RiskAnalysis) => HighRisk(a) && a.category == c);
    }
  }

  /** Each entry of the grouping dictionary holds exactly the high-risk analyses of its category, in input order. */
  lemma {:induction false} GroupOfIsHighIn(xs: seq<RiskAnalysis>)
    ensures forall c :: GroupOf(GroupByCategory(xs), c) == HighIn(xs, c)
  {
    if xs != [] {
      var init, last := xs[..|xs| - 1], xs[|xs| - 1];
      GroupOfIsHighIn(init);
      HighInSnoc(xs);
      if HighRisk(last) {
        AddToGroupOf(GroupByCategory(init), last);
      }
    }
  }

  /**
   * The grouping dictionary has one entry per category that has a high-risk
   * analysis, each category once, in order of first appearance.
   */
  lemma {:induction false} GroupKeysAreCategories(xs: seq<RiskAnalysis>)
    ensures Seqs.Distinct(GroupKeys(GroupByCategory(xs)))
    ensures forall c :: c in GroupKeys(GroupByCategory(xs)) <==> HighIn(xs, c) != []
  {
    if xs != [] {
      var init, last := xs[..|xs| - 1], xs[|xs| - 1];
      GroupKeysAreCategories(init);
      HighInSnoc(xs);
      if HighRisk(last) {
        AddToGroupKeys(GroupByCategory(init), last);
      }
    }
  }

  const EscalationSuffix: string := " clauses, creating " + "systemic vulnerability."

  /**
   * The risk of a category group: one affected id per analysis of the group,
   * in group order, a score capped at 100, and the severity band of that score.
   */
  function EscalationRisk(category: string, group: seq<RiskAnalysis>): (r: CompoundRisk)
    requires group != []
    ensures r.riskType == EscalationType(category)
    ensures |r.affectedClauseIds| == |group| && forall k :: 0 <= k < |group| ==> r.affectedClauseIds[k] == group[k].chunkId
    ensures r.combinedRiskScore <= 100 && r.severity == ScoreToSeverity(r.combinedRiskScore)
  {
    var score := EscalationScore(group);
    CompoundRisk(EscalationType(category), ScoreToSeverity(score), EscalationDescription(category, |group|),
                 ChunkIds(group), EscalationAdvice(category), score)
  }

  /** The group's mean score plus 10, capped at 100. */
  function EscalationScore(group: seq<RiskAnalysis>): int
    requires group != []
  {
    Seqs.Min(100, Mean(Scores(group)) + 10)
  }

  function EscalationType(category: string): string {
    "Multiple " + category + " Risks"
  }

  function EscalationDescription(category: string, n: nat): string {
    "Contract contains " + Strings.NatToString(n) + " separate high-risk " + category + EscalationSuffix
  }

  function EscalationAdvice(category: string): string {
    "Address all " + category + " clauses holistically " + "to ensure consistent " + "protections throughout " + "the contract."
  }

  /** One risk per group of at least two, in dictionary order. */
  function EscalationsOf(g: Groups): seq<CompoundRisk> {
    if g == [] then []
    else
      var last := g[|g| - 1];
      EscalationsOf(g[..|g| - 1]) + (if |last.1| >= 2 then [EscalationRisk(last.0, last.1)] else [])
  }

  /** `_detect_severity_escalation`: a grouping loop, then a loop over the groups. */
  method DetectSeverityEscalation(xs: seq<RiskAnalysis>) returns (risks: seq<CompoundRisk>)
    ensures risks == EscalationsOf(GroupByCategory(xs))
  {
    var groups := GroupHighRisk(xs);
    risks := EscalateGroups(groups);
  }

  /** The grouping loop of `_detect_severity_escalation`. */
  method GroupHighRisk(xs: seq<RiskAnalysis>) returns (groups: Groups)
    ensures groups == GroupByCategory(xs)
  {
    groups := [];
    var i := 0;
    while i < |xs|
      invariant 0 <= i <= |xs|
      invariant groups == GroupByCategory(xs[..i])
    {
      assert xs[..i + 1][..i] == xs[..i];
      if HighRisk(xs[i]) {
        groups := AddToGroup(groups, xs[i]);
      }
      i := i + 1;
    }
    assert xs[..i] == xs;
  }

  /** One more dictionary entry adds that entry's escalation, if any, at the end. */
  lemma EscalationsStep(g: Groups, j: nat)
    requires j < |g|
    ensures EscalationsOf(g[..j + 1]) == EscalationsOf(g[..j]) + (if |g[j].1| >= 2 then [EscalationRisk(g[j].0, g[j].1)] else [])
  {
    assert g[..j + 1][..j] == g[..j];
  }

  /** The loop over the groups of `_detect_severity_escalation`. */
  method EscalateGroups(groups: Groups) returns (risks: seq<CompoundRisk>)
    ensures risks == EscalationsOf(groups)
  {
    risks := [];
    var j := 0;
    while j < |groups|
      invariant 0 <= j <= |groups|
      invariant risks == EscalationsOf(groups[..j])
    {
      EscalationsStep(groups, j);
      if |groups[j].1| >= 2 {
        risks := risks + [EscalationRisk(groups[j].0, groups[j].1)];
      }
      j := j + 1;
    }
    assert groups[..j] == groups;
  }

  /** Each escalation risk comes from a group of at least two. */
  lemma {:induction false} EscalationsFromGroups(g: Groups)
    ensures forall r :: r in EscalationsOf(g) ==>
      exists i :: 0 <= i < |g| && |g[i].1| >= 2 && r == EscalationRisk(g[i].0, g[i].1)
  {
    if g != [] {
      var n := |g| - 1;
      EscalationsFromGroups(g[..n]);
      EscalationsStep(g, n);
      assert g[..n + 1] == g;
      forall r | r in EscalationsOf(g)
        ensures exists i :: 0 <= i < |g| && |g[i].1| >= 2 && r == EscalationRisk(g[i].0, g[i].1)
      {
        if r in EscalationsOf(g[..n]) {
          var i :| 0 <= i < n && |g[..n][i].1| >= 2 && r == EscalationRisk(g[..n][i].0, g[..n][i].1);
          assert g[..n][i] == g[i];
        } else {
          assert |g[n].1| >= 2 && r == EscalationRisk(g[n].0, g[n].1);
        }
      }
    }
  }

  /** When every grouped score is in [70, 100], each escalation risk scores in [80, 100] and is High or Critical. */
  lemma {:induction false} EscalationsScoreHigh(g: Groups)
    requires forall i :: 0 <= i < |g| ==> forall k :: 0 <= k < |g[i].1| ==> 70 <= g[i].1[k].finalRiskScore <= 100
    ensures forall r :: r in EscalationsOf(g) ==>
      80 <= r.combinedRiskScore <= 100 && (r.severity == High || r.severity == Critical)
  {
    if g != [] {
      var init := g[..|g| - 1];
      EscalationsScoreHigh(init);
      var last := g[|g| - 1];
      if |last.1| >= 2 {
        MeanBounds(Scores(last.1), 70, 100);
      }
    }
  }

  // ---------------------------------------------------------- de-duplication

  /** `(risk_type, tuple(sorted(affected_clause_ids)))`: two sorted id lists are equal exactly when the id multisets are. */
  function DedupKey(r: CompoundRisk): (string, multiset<string>) {
    (r.riskType, multiset(r.affectedClauseIds))
  }

  /** `_deduplicate_risks`: the first risk of every key, in input order. */
  method DeduplicateRisks(rs: seq<CompoundRisk>) returns (unique: seq<CompoundRisk>)
    ensures unique == Seqs.Dedup(rs, DedupKey)
  {
    var seen: set<(string, multiset<string>)> := {};
    unique := [];
    var i := 0;
    while i < |rs|
      invariant 0 <= i <= |rs|
      invariant unique == Seqs.Dedup(rs[..i], DedupKey) && seen == Seqs.KeySet(unique, DedupKey)
    {
      assert rs[..i + 1][..i] == rs[..i];
      var key := DedupKey(rs[i]);
      if key !in seen {
        seen := seen + {key};
        assert (unique + [rs[i]])[..|unique|] == unique;
        unique := unique + [rs[i]];
      }
      i := i + 1;
    }
    assert rs[..i] == rs;
  }

  /**
   * No two de-duplicated risks share a type and a set of affected clauses (ids
   * compared regardless of order), every one of them was among the inputs, and
   * de-duplicating again changes nothing.
   */
  lemma {:induction false} DeduplicatedAreDistinct(rs: seq<CompoundRisk>)
    ensures var u := Seqs.Dedup(rs, DedupKey);
      && (forall k, l :: 0 <= k < l < |u| ==>
            u[k].riskType != u[l].riskType || multiset(u[k].affectedClauseIds) != multiset(u[l].affectedClauseIds))
      && (forall x :: x in u ==> x in rs)
      && Seqs.Dedup(u, DedupKey) == u
  {
    Seqs.DedupDistinct(rs, DedupKey);
    Seqs.DedupSubset(rs, DedupKey);
    Seqs.DedupIdempotent(rs, DedupKey);
  }

  // ---------------------------------------------------------- the detector

  /** The lines the language-model prompt would list: relevant analyses scoring 50 or more. */
  function Summarised(xs: seq<RiskAnalysis>): seq<RiskAnalysis> {
    Seqs.Filter(xs, (a: RiskAnalysis) => a.isRelevant && a.finalRiskScore >= 50)
  }

  /** A risk the `CompoundRisk` schema accepts. */
  predicate ValidCompound(r: CompoundRisk) {
    0 <= r.combinedRiskScore <= 100
  }

  /**
   * `_llm_compound_analysis`: with fewer than two summarised clauses the model is
   * not asked; an answer that raised (absent) or failed validation gives nothing.
   */
  function LlmRisks(xs: seq<RiskAnalysis>, answer: Option<seq<CompoundRisk>>): (r: seq<CompoundRisk>)
    ensures |Summarised(xs)| < 2 ==> r == []
    ensures forall x :: x in r ==> ValidCompound(x)
    ensures |Summarised(xs)| >= 2 && answer.Some? && (forall x :: x in answer.value ==> ValidCompound(x)) ==> r == answer.value
  {
    if |Summarised(xs)| < 2 then []
    else if answer.Some? && forall x :: x in answer.value ==> ValidCompound(x) then answer.value
    else []
  }

  /** The three sources of risks, in the order they are collected. */
  function AllRisks(xs: seq<RiskAnalysis>, answer: Option<seq<CompoundRisk>>): seq<CompoundRisk> {
    PatternRisksOf(DangerousPatterns, xs) + EscalationsOf(GroupByCategory(xs)) + LlmRisks(xs, answer)
  }

  /**
   * `detect_compound_risks`. Fewer than two analyses give nothing. Otherwise the
   * pattern risks, the escalation risks and the model's risks, in that order,
   * are de-duplicated. `asked` tells whether the model was consulted.
   */
  method DetectCompoundRisks(xs: seq<RiskAnalysis>, answer: Option<seq<CompoundRisk>>)
    returns (risks: seq<CompoundRisk>, asked: bool)
    ensures |xs| < 2 ==> risks == [] && !asked
    ensures |xs| >= 2 ==>
      && asked == (|Summarised(xs)| >= 2)
      && risks == Seqs.Dedup(AllRisks(xs, answer), DedupKey)
  {
    if |xs| < 2 {
      return [], false;
    }
    var all := DetectPatternRisks(xs);
    var severity := DetectSeverityEscalation(xs);
    all := all + severity;
    asked := |Summarised(xs)| >= 2;
    all := all + LlmRisks(xs, answer);
    risks := DeduplicateRisks(all);
  }

  /** On valid analyses every pattern risk of a table whose patterns name categories has a score in [0, 100]. */
  lemma PatternRisksAreValid(ps: seq<Pattern>, xs: seq<RiskAnalysis>)
    requires forall i :: 0 <= i < |ps| ==> ps[i].categories != []
    requires forall i :: 0 <= i < |xs| ==> ValidRiskAnalysis(xs[i])
    ensures forall r :: r in PatternRisksOf(ps, xs) ==> ValidCompound(r)
  {
    PatternRisksExact(ps, xs);
    forall r | r in PatternRisksOf(ps, xs) ensures ValidCompound(r) {
      var i :| 0 <= i < |ps| && Fires(ps[i], xs) && r == PatternRisk(ps[i], xs);
      PatternRiskBounded(ps[i], xs);
    }
  }

  /** On valid analyses every escalation risk has a score in [0, 100]. */
  lemma EscalationRisksAreValid(xs: seq<RiskAnalysis>)
    requires forall i :: 0 <= i < |xs| ==> ValidRiskAnalysis(xs[i])
    ensures forall r :: r in EscalationsOf(GroupByCategory(xs)) ==> ValidCompound(r)
  {
    var g := GroupByCategory(xs);
    GroupOfIsHighIn(xs);
    GroupKeysAreCategories(xs);
    forall i, k | 0 <= i < |g| && 0 <= k < |g[i].1| ensures 70 <= g[i].1[k].finalRiskScore <= 100 {
      GroupOfIndex(g, i);
      assert g[i].1 == HighIn(xs, g[i].0);
      assert g[i].1[k] in xs;
    }
    EscalationsScoreHigh(g);
  }

  /** On valid analyses every collected compound risk has a score in [0, 100]. */
  lemma AllRisksAreValid(xs: seq<RiskAnalysis>, answer: Option<seq<CompoundRisk>>)
    requires forall i :: 0 <= i < |xs| ==> ValidRiskAnalysis(xs[i])
    ensures forall r :: r in AllRisks(xs, answer) ==> ValidCompound(r)
  {
    assert forall i :: 0 <= i < |DangerousPatterns| ==> DangerousPatterns[i].categories != [];
    PatternRisksAreValid(DangerousPatterns, xs);
    EscalationRisksAreValid(xs);
  }

  /** On valid analyses every compound risk reported has a score in [0, 100]. */
  lemma DetectedRisksAreValid(xs: seq<RiskAnalysis>, answer: Option<seq<CompoundRisk>>)
    requires forall i :: 0 <= i < |xs| ==> ValidRiskAnalysis(xs[i])
    ensures forall r :: r in Seqs.Dedup(AllRisks(xs, answer), DedupKey) ==> ValidCompound(r)
  {
    AllRisksAreValid(xs, answer);
    Seqs.DedupSubset(AllRisks(xs, answer), DedupKey);
  }
}
