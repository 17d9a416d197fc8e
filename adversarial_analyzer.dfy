/**
 * The three-agent debate that scores one clause. The pessimist decides whether
 * the clause belongs to the detected category at all and argues the risk; the
 * optimist argues the defence; the arbiter gives the score, whose level is
 * always recomputed from the score. The agents are language-model calls and
 * appear here as their replies; an absent reply is a call that raised (or whose
 * answer failed validation) and is replaced by the fixed fallback.
 */
module AdversarialAnalyzer {
  import opened Wrappers
  import Strings
  import Seqs
  import opened Models

  /** `_score_to_level`: 76 and up Critical, 51 High, 26 Medium, else Low. */
  function ScoreToLevel(score: int): (l: Level)
    ensures l == Critical <==> score >= 76
    ensures l == High <==> 51 <= score < 76
    ensures l == Medium <==> 26 <= score < 51
    ensures l == Low <==> score < 26
  {
    if score >= 76 then Critical else if score >= 51 then High else if score >= 26 then Medium else Low
  }

  /** A higher score never gets a lower level. */
  lemma LevelMonotone(a: int, b: int)
    requires a <= b
    ensures Rank(ScoreToLevel(a)) <= Rank(ScoreToLevel(b))
  {
  }

  /** The kinds of line the parameter summary can hold. */
  datatype Line = Notice(days: int) | Amounts(amounts: seq<string>) | Mutual | Unilateral
                | WrittenNotice | RequiresCause | HasCap

  /** The text of each line. */
  function LineText(l: Line): string {
    match l
    case Notice(d) => "- Notice period: " + Strings.IntToString(d) + " days"
    case Amounts(a) => "- Amounts: " + Strings.Join(a, ", ")
    case Mutual => "- Mutual (either party)"
    case Unilateral => "- Unilateral (one party only)"
    case WrittenNotice => "- Written notice required"
    case RequiresCause => "- Requires cause"
    case HasCap => "- Has liability cap"
  }

  /** Different kinds of line have different texts: the third character tells them apart. */
  lemma LineTextTag(l: Line)
    ensures |LineText(l)| > 2
    ensures LineText(l)[2] == match l
      case Notice(_) => 'N' case Amounts(_) => 'A' case Mutual => 'M' case Unilateral => 'U'
      case WrittenNotice => 'W' case RequiresCause => 'R' case HasCap => 'H'
  {
  }

  function Texts(ls: seq<Line>): (ts: seq<string>)
    ensures |ts| == |ls| && forall i :: 0 <= i < |ls| ==> ts[i] == LineText(ls[i])
  {
    seq(|ls|, i requires 0 <= i < |ls| => LineText(ls[i]))
  }

  const NoParameters: string := "No specific parameters " + "extracted"

  function NoticePart(p: ExtractedParameters): seq<Line> {
    if p.daysMentioned.Some? && p.daysMentioned.value != 0 then [Notice(p.daysMentioned.value)] else []
  }

  function AmountsPart(p: ExtractedParameters): seq<Line> {
    if p.amountsMentioned != [] then [Amounts(p.amountsMentioned)] else []
  }

  function MutualityPart(p: ExtractedParameters): seq<Line> {
    [if p.isMutual then Mutual else Unilateral]
  }

  /** A line that is present only when its flag is set. */
  function When(flag: bool, l: Line): seq<Line> {
    if flag then [l] else []
  }

  /** The lines present once the mutuality line has been appended. */
  function UpToMutuality(p: ExtractedParameters): seq<Line> {
    NoticePart(p) + AmountsPart(p) + MutualityPart(p)
  }

  function UpToWrittenNotice(p: ExtractedParameters): seq<Line> {
    UpToMutuality(p) + When(p.hasWrittenNotice, WrittenNotice)
  }

  function UpToCause(p: ExtractedParameters): seq<Line> {
    UpToWrittenNotice(p) + When(p.requiresCause, RequiresCause)
  }

  /** The lines of the parameter summary, in the order they are appended. */
  function ParameterLines(p: ExtractedParameters): seq<Line> {
    UpToCause(p) + When(p.hasCap, HasCap)
  }

  /**
   * `_format_parameters`: the lines, each rendered by `LineText`, joined by
   * newlines. There is always a line saying whether the clause is mutual, so the
   * "nothing extracted" fallback is never produced.
   */
  method FormatParameters(p: ExtractedParameters) returns (summary: string)
    ensures summary == Strings.Join(Texts(ParameterLines(p)), "\n")
  {
    var lines: seq<Line> := [];
    if p.daysMentioned.Some? && p.daysMentioned.value != 0 {
      lines := lines + [Notice(p.daysMentioned.value)];
    }
    if p.amountsMentioned != [] {
      lines := lines + [Amounts(p.amountsMentioned)];
    }
    if p.isMutual {
      lines := lines + [Mutual];
    } else {
      lines := lines + [Unilateral];
    }
    assert lines == UpToMutuality(p);
    if p.hasWrittenNotice {
      lines := lines + [WrittenNotice];
    }
    assert lines == UpToWrittenNotice(p);
    if p.requiresCause {
      lines := lines + [RequiresCause];
    }
    assert lines == UpToCause(p);
    if p.hasCap {
      lines := lines + [HasCap];
    }
    assert lines == ParameterLines(p);
    summary := if lines != [] then Strings.Join(Texts(lines), "\n") else NoParameters;
  }

  /** The flag lines: never about mutuality, notice or amounts. */
  predicate FlagLine(l: Line) {
    l == WrittenNotice || l == RequiresCause || l == HasCap
  }

  /** The summary is the first three parts followed by at most three flag lines. */
  lemma ParameterLinesShape(p: ExtractedParameters)
    ensures var ls, m := ParameterLines(p), UpToMutuality(p);
      && |m| <= |ls| <= |m| + 3 && ls[..|m|] == m
      && forall i :: |m| <= i < |ls| ==> FlagLine(ls[i])
  {
  }

  /** The summary has between one and six lines. */
  lemma ParameterLinesCount(p: ExtractedParameters)
    ensures 1 <= |ParameterLines(p)| <= 6
  {
    ParameterLinesShape(p);
  }

  /**
   * Exactly one line says whether the clause is mutual — the one after the
   * notice and amounts lines — and it agrees with `is_mutual`.
   */
  lemma {:induction false} MutualityLineFacts(p: ExtractedParameters)
    ensures var ls, k := ParameterLines(p), |NoticePart(p)| + |AmountsPart(p)|;
      && k < |ls|
      && ls[k] == (if p.isMutual then Mutual else Unilateral)
      && forall j :: 0 <= j < |ls| && j != k ==> ls[j] != Mutual && ls[j] != Unilateral
    ensures Mutual in ParameterLines(p) <==> p.isMutual
  {
    ParameterLinesShape(p);
    var ls, m := ParameterLines(p), UpToMutuality(p);
    var k := |NoticePart(p)| + |AmountsPart(p)|;
    assert |m| == k + 1;
    forall j | 0 <= j < |ls| && j != k ensures ls[j] != Mutual && ls[j] != Unilateral {
      if j < k {
        assert ls[j] == m[j] == (NoticePart(p) + AmountsPart(p))[j];
      }
    }
    assert ls[k] == m[k];
  }

  /** A notice line appears iff a non-zero number of days was found: 0 days is left out. */
  lemma {:induction false} NoticeLineFacts(p: ExtractedParameters)
    ensures (exists d :: Notice(d) in ParameterLines(p)) <==> p.daysMentioned.Some? && p.daysMentioned.value != 0
  {
    ParameterLinesShape(p);
    var ls, m := ParameterLines(p), UpToMutuality(p);
    forall d | Notice(d) in ls ensures Notice(d) in NoticePart(p) {
      var i :| 0 <= i < |ls| && ls[i] == Notice(d);
      assert i < |m| && m[i] == Notice(d);
    }
    if p.daysMentioned.Some? && p.daysMentioned.value != 0 {
      assert Notice(p.daysMentioned.value) in ParameterLines(p);
    }
  }

  /** An amounts line appears iff some amount was found, and carries exactly those amounts. */
  lemma {:induction false} AmountsLineFacts(p: ExtractedParameters)
    ensures forall a :: Amounts(a) in ParameterLines(p) <==> a == p.amountsMentioned && a != []
  {
    forall a | Amounts(a) in ParameterLines(p) ensures Amounts(a) in AmountsPart(p) {
      AmountsLineFrom(p, a);
    }
    if p.amountsMentioned != [] {
      AmountsLinePresent(p);
    }
  }

  /** An amounts line of the summary is the one of the amounts part. */
  lemma AmountsLineFrom(p: ExtractedParameters, a: seq<string>)
    requires Amounts(a) in ParameterLines(p)
    ensures Amounts(a) in AmountsPart(p)
  {
    ParameterLinesShape(p);
    var ls, m := ParameterLines(p), UpToMutuality(p);
    var i :| 0 <= i < |ls| && ls[i] == Amounts(a);
    assert i < |m| && m[i] == Amounts(a);
  }

  /** Found amounts give an amounts line. */
  lemma AmountsLinePresent(p: ExtractedParameters)
    requires p.amountsMentioned != []
    ensures Amounts(p.amountsMentioned) in ParameterLines(p)
  {
    ParameterLinesShape(p);
    var ls, m := ParameterLines(p), UpToMutuality(p);
    assert ls[..|m|] == m;
    assert Amounts(p.amountsMentioned) in m;
  }

  /** The summary is never the "nothing extracted" fallback text. */
  lemma {:induction false} FallbackUnreachable(p: ExtractedParameters)
    ensures Strings.Join(Texts(ParameterLines(p)), "\n") != NoParameters
  {
    ParameterLinesCount(p);
    var ts := Texts(ParameterLines(p));
    Strings.JoinStartsWithFirst(ts, "\n");
    LineTextTag(ParameterLines(p)[0]);
    var j := Strings.Join(ts, "\n");
    assert j[2] == ts[0][2];
    assert NoParameters[2] == ' ';
  }

  /** Lines of different kinds, or with different contents, never render to the same text. */
  lemma {:induction false} LineTextInjective(a: Line, b: Line)
    requires LineText(a) == LineText(b)
    ensures a.Notice? <==> b.Notice?
    ensures a.Amounts? <==> b.Amounts?
    ensures !a.Notice? && !a.Amounts? ==> a == b
  {
    LineTextTag(a);
    LineTextTag(b);
  }

  /** The three agents, named in the trace of calls. */
  datatype Agent = Pessimist | Optimist | Arbiter

  /** The pessimist's fallback: relevant, with a request for manual review. */
  const PessimistFallback: PessimistAnalysis :=
    PessimistAnalysis(true, "Error in analysis", "Manual review required", [])

  const OptimistFallback: OptimistAnalysis :=
    OptimistAnalysis("Standard practice in industry", "Common in similar agreements", [])

  /** The arbiter's fallback, whose "Medium" level is not recomputed. */
  const ArbiterFallback: ArbiterVerdict :=
    ArbiterVerdict(50, Medium, "Manual review required " + "due to analysis error", [])

  /** The fallback level is the level its score would get. */
  lemma ArbiterFallbackConsistent()
    ensures ArbiterFallback.riskLevel == ScoreToLevel(ArbiterFallback.riskScore)
  {
  }

  /**
   * `_run_arbiter`: a reply whose score the schema admits has its level replaced
   * by the level of its score; a failed or invalid reply gives the fallback.
   */
  function ArbiterOutcome(reply: Option<ArbiterVerdict>): (v: ArbiterVerdict)
    ensures 0 <= v.riskScore <= 100
    ensures v.riskLevel == ScoreToLevel(v.riskScore)
    ensures reply.Some? && 0 <= reply.value.riskScore <= 100 ==>
      v == reply.value.(riskLevel := ScoreToLevel(reply.value.riskScore))
    ensures !(reply.Some? && 0 <= reply.value.riskScore <= 100) ==> v == ArbiterFallback
  {
    if reply.Some? && 0 <= reply.value.riskScore <= 100 then
      reply.value.(riskLevel := ScoreToLevel(reply.value.riskScore))
    else ArbiterFallback
  }

  /**
   * `analyze_risk`. The pessimist always runs; a clause it finds not relevant
   * gets the default analysis (score 0, Low) and no other agent runs. Otherwise
   * the optimist and the arbiter run, in that order, the final score is the
   * arbiter's, the final level the level of that score, and the first three
   * precedents of each kind are kept. `params` is the result of
   * ParameterExtractor.Extract on the chunk's text. `calls` lists the agents
   * asked.
   */
  method AnalyzeRisk(chunk: SemanticChunk, detection: CategoryDetection, params: ExtractedParameters,
                     pessimistReply: Option<PessimistAnalysis>, optimistReply: Option<OptimistAnalysis>,
                     arbiterReply: Option<ArbiterVerdict>)
    returns (a: RiskAnalysis, calls: seq<Agent>)
    ensures a.chunkId == chunk.id && a.category == detection.category
    ensures ValidRiskAnalysis(a)
    ensures a.finalRiskLevel == ScoreToLevel(a.finalRiskScore)
    ensures var pess := pessimistReply.GetOr(PessimistFallback);
      !pess.isRelevant ==> a == DefaultRiskAnalysis(chunk.id, detection.category, false) && calls == [Pessimist]
    ensures var pess := pessimistReply.GetOr(PessimistFallback);
      pess.isRelevant ==>
        && calls == [Pessimist, Optimist, Arbiter]
        && a.isRelevant
        && a.pessimist == Some(pess)
        && a.optimist == Some(optimistReply.GetOr(OptimistFallback))
        && a.verdict == Some(ArbiterOutcome(arbiterReply))
        && a.parameters == Some(params)
        && a.finalRiskScore == ArbiterOutcome(arbiterReply).riskScore
        && a.safePrecedentsUsed == Seqs.PyPrefix(detection.retrievedSafeExamples, 3)
        && a.riskyPrecedentsUsed == Seqs.PyPrefix(detection.retrievedRiskyExamples, 3)
  {
    calls := [Pessimist];
    var pessimist := pessimistReply.GetOr(PessimistFallback);
    if !pessimist.isRelevant {
      a := DefaultRiskAnalysis(chunk.id, detection.category, false);
      return;
    }
    calls := calls + [Optimist];
    var optimist := optimistReply.GetOr(OptimistFallback);
    calls := calls + [Arbiter];
    var verdict := ArbiterOutcome(arbiterReply);
    var level := ScoreToLevel(verdict.riskScore);
    a := RiskAnalysis(chunk.id, detection.category, true, Some(pessimist), Some(optimist), Some(verdict),
                      Some(params), Seqs.PyPrefix(detection.retrievedSafeExamples, 3),
                      Seqs.PyPrefix(detection.retrievedRiskyExamples, 3), verdict.riskScore, level);
  }
}
