/**
 * The end-to-end analysis of one contract: every chunk is classified, the
 * chunks that need review are debated, the clauses that come out relevant and
 * scoring at least 50 are kept with a suggested fix, compound risks are looked
 * for among them, and a summary is computed. The classifier, the debate and the
 * fix generator are inputs (functions of the chunk); the compound step is the
 * modelled detector, with the language model's answer as an input.
 */
module ContractAnalyzer {
  import opened Wrappers
  import Seqs
  import opened Models
  import CompoundDetector

  /** The fields of a generated fix that the report uses. */
  datatype Fix = Fix(suggestedReplacement: string, editComment: string, keyChanges: seq<string>)

  /** One entry of `risky_clauses`. */
  datatype RiskyClause = RiskyClause(
    chunkId: string, category: string, originalText: string, riskScore: int, riskLevel: Level,
    pessimistAnalysis: string, optimistAnalysis: string, arbiterReasoning: string,
    suggestedFix: string, fixComment: string, keyChanges: seq<string>)

  /** The result dictionary. `average` is the unrounded mean. */
  datatype Report = Report(
    filename: string, totalChunks: nat, riskyClausesFound: nat,
    overallRisk: Level, average: real, compoundRisksFound: nat, categoriesFlagged: set<string>,
    riskyClauses: seq<RiskyClause>, compoundRisks: seq<CompoundRisk>)

  /** The classifier, the debate and the fix generator, as functions of their inputs. */
  datatype Stages = Stages(
    detect: SemanticChunk -> CategoryDetection,
    analyze: (SemanticChunk, CategoryDetection) -> RiskAnalysis,
    fix: (string, string, RiskAnalysis) -> Fix)

  function AnalysisOf(st: Stages, c: SemanticChunk): RiskAnalysis {
    st.analyze(c, st.detect(c))
  }

  /** A chunk is kept iff it needs review and its debate finds it relevant with a score of 50 or more. */
  predicate Kept(st: Stages, c: SemanticChunk) {
    st.detect(c).needsAgentReview && AnalysisOf(st, c).isRelevant && AnalysisOf(st, c).finalRiskScore >= 50
  }

  function KeptChunks(st: Stages, chunks: seq<SemanticChunk>): seq<SemanticChunk> {
    Seqs.Filter(chunks, (c: SemanticChunk) => Kept(st, c))
  }

  /** The report entry of a kept chunk; missing debate parts become empty strings. */
  function ClauseOf(st: Stages, c: SemanticChunk): RiskyClause {
    var d := st.detect(c);
    var a := AnalysisOf(st, c);
    var f := st.fix(c.text, d.category, a);
    RiskyClause(c.id, d.category, c.text, a.finalRiskScore, a.finalRiskLevel,
                if a.pessimist.Some? then a.pessimist.value.riskArgument else "",
                if a.optimist.Some? then a.optimist.value.defenseArgument else "",
                if a.verdict.Some? then a.verdict.value.reasoning else "",
                f.suggestedReplacement, f.editComment, f.keyChanges)
  }

  function Analyses(st: Stages, cs: seq<SemanticChunk>): (r: seq<RiskAnalysis>)
    ensures |r| == |cs| && forall k :: 0 <= k < |cs| ==> r[k] == AnalysisOf(st, cs[k])
  {
    seq(|cs|, k requires 0 <= k < |cs| => AnalysisOf(st, cs[k]))
  }

  function Clauses(st: Stages, cs: seq<SemanticChunk>): (r: seq<RiskyClause>)
    ensures |r| == |cs| && forall k :: 0 <= k < |cs| ==> r[k] == ClauseOf(st, cs[k])
  {
    seq(|cs|, k requires 0 <= k < |cs| => ClauseOf(st, cs[k]))
  }

  function ClauseScores(cs: seq<RiskyClause>): (s: seq<int>)
    ensures |s| == |cs| && forall k :: 0 <= k < |cs| ==> s[k] == cs[k].riskScore
  {
    seq(|cs|, k requires 0 <= k < |cs| => cs[k].riskScore)
  }

  /** `sum(scores) / len(scores)`, or 0 for no clauses. */
  function Average(s: seq<int>): real {
    if s == [] then 0.0 else (Seqs.Sum(s) as real) / (|s| as real)
  }

  /** 75 and up Critical, 60 High, 40 Medium, else Low. */
  function OverallRisk(avg: real): (l: Level)
    ensures l == Critical <==> avg >= 75.0
    ensures l == High <==> 60.0 <= avg < 75.0
    ensures l == Medium <==> 40.0 <= avg < 60.0
    ensures l == Low <==> avg < 40.0
  {
    if avg >= 75.0 then Critical else if avg >= 60.0 then High else if avg >= 40.0 then Medium else Low
  }

  function Categories(cs: seq<RiskyClause>): set<string> {
    set k | 0 <= k < |cs| :: cs[k].category
  }

  /**
   * `analyze_contract` on an already chunked document. The loop keeps, in
   * document order and aligned with each other, the analyses and the report
   * entries of the kept chunks.
   */
  method AnalyzeContract(filename: string, chunks: seq<SemanticChunk>, st: Stages,
                         llmAnswer: Option<seq<CompoundRisk>>)
    returns (r: Report)
    ensures r.filename == filename && r.totalChunks == |chunks|
    ensures r.riskyClauses == Clauses(st, KeptChunks(st, chunks))
    ensures r.riskyClausesFound == |r.riskyClauses|
    ensures var analyses := Analyses(st, KeptChunks(st, chunks));
      r.compoundRisks == (if |analyses| < 2 then [] else Seqs.Dedup(CompoundDetector.AllRisks(analyses, llmAnswer), CompoundDetector.DedupKey))
    ensures r.compoundRisksFound == |r.compoundRisks|
    ensures r.average == Average(ClauseScores(r.riskyClauses))
    ensures r.overallRisk == OverallRisk(r.average)
    ensures r.categoriesFlagged == Categories(r.riskyClauses)
  {
    var riskyClauses: seq<RiskyClause> := [];
    var riskAnalyses: seq<RiskAnalysis> := [];
    var i := 0;
    while i < |chunks|
      invariant 0 <= i <= |chunks|
      invariant riskyClauses == Clauses(st, KeptChunks(st, chunks[..i]))
      invariant riskAnalyses == Analyses(st, KeptChunks(st, chunks[..i]))
    {
      var chunk := chunks[i];
      KeptStep(st, chunks, i);
      var detection := st.detect(chunk);
      if !detection.needsAgentReview {
        i := i + 1;
        continue;
      }
      var analysis := st.analyze(chunk, detection);
      if !analysis.isRelevant || analysis.finalRiskScore < 50 {
        i := i + 1;
        continue;
      }
      riskAnalyses := riskAnalyses + [analysis];
      riskyClauses := riskyClauses + [ClauseOf(st, chunk)];
      i := i + 1;
    }
    assert chunks[..i] == chunks;
    var compound, _ := CompoundDetector.DetectCompoundRisks(riskAnalyses, llmAnswer);
    var avg := Average(ClauseScores(riskyClauses));
    r := Report(filename, |chunks|, |riskyClauses|, OverallRisk(avg), avg, |compound|,
                Categories(riskyClauses), riskyClauses, compound);
  }

  /**
   * One more chunk extends the kept chunks, their report entries and their
   * analyses by that chunk when it is kept, and leaves them alone otherwise.
   */
  lemma KeptStep(st: Stages, chunks: seq<SemanticChunk>, i: nat)
    requires i < |chunks|
    ensures var c, before, after := chunks[i], KeptChunks(st, chunks[..i]), KeptChunks(st, chunks[..i + 1]);
      && after == before + (if Kept(st, c) then [c] else [])
      && Clauses(st, after) == Clauses(st, before) + (if Kept(st, c) then [ClauseOf(st, c)] else [])
      && Analyses(st, after) == Analyses(st, before) + (if Kept(st, c) then [AnalysisOf(st, c)] else [])
  {
    var c := chunks[i];
    assert chunks[..i + 1] == chunks[..i] + [c];
    Seqs.FilterAppend(chunks[..i], [c], (x: SemanticChunk) => Kept(st, x));
    assert [c][1..] == [];
  }

  /** A chunk is reported iff the classifier sends it to review and the debate keeps it. */
  lemma KeptChunksExact(st: Stages, chunks: seq<SemanticChunk>)
    ensures forall c :: c in KeptChunks(st, chunks) <==> c in chunks && Kept(st, c)
    ensures Seqs.IsSubsequence(KeptChunks(st, chunks), chunks)
  {
    Seqs.FilterIsSubsequence(chunks, (c: SemanticChunk) => Kept(st, c));
    forall c | c in chunks && Kept(st, c) ensures c in KeptChunks(st, chunks) {
      var i :| 0 <= i < |chunks| && chunks[i] == c;
    }
  }

  /**
   * Report entries and analyses are aligned: entry k and analysis k come from
   * the same chunk, with the same category, score and level, and every kept
   * score is at least 50.
   */
  lemma {:induction false} ClausesAligned(st: Stages, chunks: seq<SemanticChunk>)
    ensures var ks := KeptChunks(st, chunks);
      var cl, an := Clauses(st, ks), Analyses(st, ks);
      && |cl| == |an| == |ks|
      && forall k :: 0 <= k < |cl| ==>
        && cl[k].chunkId == ks[k].id && cl[k].category == st.detect(ks[k]).category
        && cl[k].riskScore == an[k].finalRiskScore && cl[k].riskLevel == an[k].finalRiskLevel
        && an[k].isRelevant && cl[k].riskScore >= 50
  {
    var ks := KeptChunks(st, chunks);
    forall k | 0 <= k < |ks| ensures Kept(st, ks[k]) {
      assert ks[k] in ks;
    }
  }

  /** No clauses gives an average of 0 and an overall Low. */
  lemma NoClausesIsLow()
    ensures Average(ClauseScores([])) == 0.0 && OverallRisk(Average(ClauseScores([]))) == Low
  {
    assert ClauseScores([]) == [];
  }

  /** An average of scores that are all at least 50 is at least 50. */
  lemma {:induction false} AverageAtLeast50(s: seq<int>)
    requires s != [] && forall i :: 0 <= i < |s| ==> s[i] >= 50
    ensures Average(s) >= 50.0
  {
    Seqs.SumAtLeast(s, 50);
    var n, t := |s| as real, Seqs.Sum(s) as real;
    assert t >= 50.0 * n;
    assert Average(s) == t / n;
    QuotientAtLeast(t, n, 50.0);
  }

  /** Dividing `t >= m * n` by a positive `n` gives at least `m`. */
  lemma QuotientAtLeast(t: real, n: real, m: real)
    requires n > 0.0 && t >= m * n
    ensures t / n >= m
  {
    assert (t / n) * n == t;
    assert (t / n - m) * n == t - m * n;
  }

  /** Since every kept score is at least 50, a report with any clause is never overall Low. */
  lemma {:induction false} AnyClauseIsNotLow(st: Stages, chunks: seq<SemanticChunk>)
    requires KeptChunks(st, chunks) != []
    ensures OverallRisk(Average(ClauseScores(Clauses(st, KeptChunks(st, chunks))))) != Low
  {
    ClausesAligned(st, chunks);
    var s := ClauseScores(Clauses(st, KeptChunks(st, chunks)));
    AverageAtLeast50(s);
  }
}
