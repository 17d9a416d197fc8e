/**
 * The record types the analyser passes between its stages. Where the source
 * declares a class twice, the later declaration is the one in force, and that
 * is the one modelled. Pydantic range constraints become `Make…` functions that
 * either build the record or report a validation error.
 */
module Models {
  import opened Wrappers
  import Strings

  /** The four risk levels of the `Literal["Low", "Medium", "High", "Critical"]` fields. */
  datatype Level = Low | Medium | High | Critical

  /** The level as the source spells it. */
  function LevelName(l: Level): string
  {
    match l
    case Low => "Low"
    case Medium => "Medium"
    case High => "High"
    case Critical => "Critical"
  }

  /** The order of the levels, Low lowest. */
  function Rank(l: Level): nat
  {
    match l
    case Low => 0
    case Medium => 1
    case High => 2
    case Critical => 3
  }

  /** The retrieval zones of a category detection. */
  datatype Zone = Noise | Courtroom | Safe

  /**
   * `DocumentMetadata`: the file facts known at upload, and the fields the
   * metadata extractor fills in place (each absent until something is found).
   */
  class DocumentMetadata {
    var filename: string
    var fileSize: int
    var pageCount: int
    var contractType: Option<string>
    var parties: Option<seq<string>>
    var effectiveDate: Option<string>
    var mentionedAmounts: Option<seq<string>>

    constructor (filename: string, fileSize: int, pageCount: int)
      ensures this.filename == filename && this.fileSize == fileSize && this.pageCount == pageCount
      ensures contractType == None && parties == None && effectiveDate == None && mentionedAmounts == None
    {
      this.filename := filename;
      this.fileSize := fileSize;
      this.pageCount := pageCount;
      contractType := None;
      parties := None;
      effectiveDate := None;
      mentionedAmounts := None;
    }
  }

  datatype Definition = Definition(term: string, definition: string, section: Option<string>)

  datatype PessimistAnalysis = PessimistAnalysis(
    isRelevant: bool, relevanceReasoning: string, riskArgument: string, keyConcerns: seq<string>)

  datatype OptimistAnalysis = OptimistAnalysis(
    defenseArgument: string, industryContext: string, mitigatingFactors: seq<string>)

  datatype ArbiterVerdict = ArbiterVerdict(
    riskScore: int, riskLevel: Level, reasoning: string, keyFactors: seq<string>)

  datatype ExtractedParameters = ExtractedParameters(
    daysMentioned: Option<int>, monthsMentioned: Option<int>, yearsMentioned: Option<int>,
    amountsMentioned: seq<string>,
    hasWrittenNotice: bool, isMutual: bool, requiresCause: bool, hasCap: bool, hasCurePeriod: bool,
    rawTextMarkers: seq<(string, bool)>)

  datatype RiskAnalysis = RiskAnalysis(
    chunkId: string, category: string, isRelevant: bool,
    pessimist: Option<PessimistAnalysis>, optimist: Option<OptimistAnalysis>,
    verdict: Option<ArbiterVerdict>, parameters: Option<ExtractedParameters>,
    safePrecedentsUsed: seq<string>, riskyPrecedentsUsed: seq<string>,
    finalRiskScore: int, finalRiskLevel: Level)

  datatype CompoundRisk = CompoundRisk(
    riskType: string, severity: Level, description: string,
    affectedClauseIds: seq<string>, mitigationAdvice: string, combinedRiskScore: int)

  datatype CategoryDetection = CategoryDetection(
    category: string, confidence: real, similarityToPrototype: real, zone: Zone,
    needsAgentReview: bool, retrievedPrototypes: Option<seq<string>>,
    retrievedSafeExamples: seq<string>, retrievedRiskyExamples: seq<string>,
    decisionReasoning: string)

  datatype SemanticChunk = SemanticChunk(
    id: string, text: string, startChar: int, endChar: int, wordCount: int,
    precedingText: Option<string>, followingText: Option<string>)

  /** `ArbiterVerdict(...)`: the score must lie in [0, 100]. */
  function MakeVerdict(score: int, level: Level, reasoning: string, factors: seq<string>)
    : (r: Result<ArbiterVerdict, string>)
    ensures r.Ok? <==> 0 <= score <= 100
    ensures r.Ok? ==> r.value.riskScore == score && r.value.riskLevel == level
                      && r.value.reasoning == reasoning && r.value.keyFactors == factors
  {
    if 0 <= score <= 100 then Ok(ArbiterVerdict(score, level, reasoning, factors))
    else Err("risk_score must be " + "between 0 and 100")
  }

  /** `CompoundRisk(...)`: the combined score must lie in [0, 100]. */
  function MakeCompoundRisk(riskType: string, severity: Level, description: string,
                            ids: seq<string>, advice: string, score: int)
    : (r: Result<CompoundRisk, string>)
    ensures r.Ok? <==> 0 <= score <= 100
    ensures r.Ok? ==> r.value == CompoundRisk(riskType, severity, description, ids, advice, score)
  {
    if 0 <= score <= 100 then Ok(CompoundRisk(riskType, severity, description, ids, advice, score))
    else Err("combined_risk_score " + "must be between 0 and " + "100")
  }

  /** `CategoryDetection(...)`: the confidence must lie in [0.0, 1.0]. */
  function MakeCategoryDetection(category: string, confidence: real, similarity: real, zone: Zone,
                                 review: bool, prototypes: Option<seq<string>>,
                                 safe: seq<string>, risky: seq<string>, reasoning: string)
    : (r: Result<CategoryDetection, string>)
    ensures r.Ok? <==> 0.0 <= confidence <= 1.0
    ensures r.Ok? ==> r.value == CategoryDetection(category, confidence, similarity, zone, review,
                                                   prototypes, safe, risky, reasoning)
  {
    if 0.0 <= confidence <= 1.0 then
      Ok(CategoryDetection(category, confidence, similarity, zone, review, prototypes, safe, risky, reasoning))
    else Err("confidence must be " + "between 0 and 1")
  }

  /**
   * `RiskAnalysis(chunk_id=…, category=…, is_relevant=…)` with every other field
   * at its default: no agent outputs, no precedents, score 0 and level Low.
   */
  function DefaultRiskAnalysis(chunkId: string, category: string, isRelevant: bool): (a: RiskAnalysis)
    ensures a.chunkId == chunkId && a.category == category && a.isRelevant == isRelevant
    ensures a.pessimist == None && a.optimist == None && a.verdict == None && a.parameters == None
    ensures a.safePrecedentsUsed == [] && a.riskyPrecedentsUsed == []
    ensures a.finalRiskScore == 0 && a.finalRiskLevel == Low
  {
    RiskAnalysis(chunkId, category, isRelevant, None, None, None, None, [], [], 0, Low)
  }

  /** `RiskAnalysis.final_risk_score` is constrained to [0, 100]. */
  predicate ValidRiskAnalysis(a: RiskAnalysis) {
    0 <= a.finalRiskScore <= 100
  }

  /**
   * The `SemanticChunk.text` validator: blank text is refused, anything else is
   * stored stripped, so a stored text is never blank and has no outer whitespace.
   */
  function ValidateChunkText(v: string): (r: Result<string, string>)
    ensures r.Err? <==> Strings.IsBlank(v)
    ensures r.Ok? ==> r.value == Strings.Strip(v) && r.value != []
    ensures r.Ok? ==> !Strings.IsSpace(r.value[0]) && !Strings.IsSpace(r.value[|r.value| - 1])
  {
    Strings.StripEmptyIffBlank(v);
    Strings.StripEnds(v);
    if Strings.Strip(v) == [] then Err("Chunk text cannot be empty") else Ok(Strings.Strip(v))
  }

  /** Validating an already validated text accepts it unchanged. */
  lemma {:induction false} ValidateChunkTextIdempotent(v: string)
    requires ValidateChunkText(v).Ok?
    ensures ValidateChunkText(ValidateChunkText(v).value) == ValidateChunkText(v)
  {
    Strings.StripIdempotent(v);
  }

  /** `SemanticChunk(...)`, which runs the text validator. */
  function MakeSemanticChunk(id: string, text: string, start: int, end: int, words: int,
                             preceding: Option<string>, following: Option<string>)
    : (r: Result<SemanticChunk, string>)
    ensures r.Err? <==> Strings.IsBlank(text)
    ensures r.Ok? ==> r.value.id == id && r.value.text == Strings.Strip(text)
                      && r.value.startChar == start && r.value.endChar == end && r.value.wordCount == words
                      && r.value.precedingText == preceding && r.value.followingText == following
  {
    match ValidateChunkText(text)
    case Err(e) => Err(e)
    case Ok(t) => Ok(SemanticChunk(id, t, start, end, words, preceding, following))
  }
}
