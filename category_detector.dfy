/**
 * Category detection by retrieval. The nearest category prototype gives a
 * category and a similarity; three zones follow from the similarity: noise
 * (too far from every category), safe (close to the category and to one of its
 * safe standards) and courtroom (everything else, sent to the agents). Only a
 * chunk sent to the agents gets retrieved examples. The vector store is an
 * input: its answers are the parameters, and so is the percentage formatter
 * used in the reasoning text.
 */
module CategoryDetector {
  import opened Wrappers
  import opened Models

  const NoiseThreshold: real := 0.44
  const SafeThreshold: real := 0.85
  /** The similarity a safe standard must exceed for the safe zone. */
  const SafeMatchThreshold: real := 0.90

  /** The top prototype hit: its category and `1 - distance`. */
  datatype PrototypeMatch = PrototypeMatch(category: string, similarity: real)

  /** The vector store's answers for one chunk, and how it prints a percentage. */
  datatype Retrieval = Retrieval(
    prototypes: seq<PrototypeMatch>,
    topSafeSimilarity: Option<real>,
    safeExamples: seq<string>,
    riskyExamples: seq<string>,
    percent: real -> string)

  datatype ZoneDecision = ZoneDecision(zone: Zone, needsReview: bool, reasoning: string)

  /**
   * `_apply_zone_logic`. Below the noise threshold: noise, no review. At or
   * above the safe threshold: safe without review iff the best safe standard is
   * more than 0.90 similar, courtroom with review otherwise. In between:
   * courtroom with review. Review is needed exactly in the courtroom.
   */
  function ApplyZoneLogic(similarity: real, category: string, topSafe: Option<real>, percent: real -> string)
    : (d: ZoneDecision)
    ensures similarity < NoiseThreshold ==> d.zone == Noise && !d.needsReview
    ensures similarity >= SafeThreshold ==>
      (d.zone == Safe && !d.needsReview <==> topSafe.Some? && topSafe.value > SafeMatchThreshold)
    ensures similarity >= SafeThreshold && !(topSafe.Some? && topSafe.value > SafeMatchThreshold) ==>
      d.zone == Courtroom && d.needsReview
    ensures NoiseThreshold <= similarity < SafeThreshold ==> d.zone == Courtroom && d.needsReview
    ensures d.needsReview <==> d.zone == Courtroom
  {
    if similarity < NoiseThreshold then
      ZoneDecision(Noise, false, "Similarity " + percent(similarity) + " below noise threshold. " + "Not related to target " + "categories.")
    else if similarity >= SafeThreshold then
      if topSafe.Some? && topSafe.value > SafeMatchThreshold then
        ZoneDecision(Safe, false, "High similarity to " + category + " prototype (" + percent(similarity)
                                  + ") and matches safe standard (" + percent(topSafe.value) + ").")
      else
        ZoneDecision(Courtroom, true, "High category similarity (" + percent(similarity)
                                      + ") but deviates from " + "safe standards. " + "Requires agent review.")
    else
      ZoneDecision(Courtroom, true, "Moderate similarity to " + category + " (" + percent(similarity)
                                    + "). Falls in grey zone - " + "requires agent analysis.")
  }

  /** A higher similarity never moves a chunk back from the courtroom to noise. */
  lemma ZonesAreOrdered(a: real, b: real, category: string, topSafe: Option<real>, percent: real -> string)
    requires a <= b
    requires ApplyZoneLogic(a, category, topSafe, percent).zone != Noise
    ensures ApplyZoneLogic(b, category, topSafe, percent).zone != Noise
  {
  }

  /** The answer for a chunk with no prototype match. */
  const NoMatch: CategoryDetection :=
    CategoryDetection("Unknown", 0.0, 0.0, Noise, false, None, [], [], "No category match")

  /**
   * `detect_category` as written. The similarity is stored as the confidence,
   * which the record constrains to [0, 1], so a similarity outside that range
   * is a validation error.
   */
  function DetectCategory(r: Retrieval): (res: Result<CategoryDetection, string>)
    ensures r.prototypes == [] ==> res == Ok(NoMatch)
    ensures r.prototypes != [] ==> (res.Err? <==> !(0.0 <= r.prototypes[0].similarity <= 1.0))
    ensures res.Ok? && r.prototypes != [] ==>
      var top := r.prototypes[0];
      var z := ApplyZoneLogic(top.similarity, top.category, r.topSafeSimilarity, r.percent);
      && res.value.category == top.category
      && res.value.confidence == res.value.similarityToPrototype == top.similarity
      && res.value.zone == z.zone && res.value.needsAgentReview == z.needsReview
      && res.value.retrievedSafeExamples == (if z.needsReview then r.safeExamples else [])
      && res.value.retrievedRiskyExamples == (if z.needsReview then r.riskyExamples else [])
  {
    if r.prototypes == [] then Ok(NoMatch)
    else
      var top := r.prototypes[0];
      var z := ApplyZoneLogic(top.similarity, top.category, r.topSafeSimilarity, r.percent);
      MakeCategoryDetection(top.category, top.similarity, top.similarity, z.zone, z.needsReview, None,
                            if z.needsReview then r.safeExamples else [],
                            if z.needsReview then r.riskyExamples else [],
                            z.reasoning)
  }

  /**
   * Every successful detection needs review iff its zone is the courtroom, and
   * carries retrieved examples only when it needs review.
   */
  lemma {:induction false} DetectionConsistent(r: Retrieval)
    requires DetectCategory(r).Ok?
    ensures var d := DetectCategory(r).value;
      && (d.needsAgentReview <==> d.zone == Courtroom)
      && (!d.needsAgentReview ==> d.retrievedSafeExamples == [] && d.retrievedRiskyExamples == [])
      && 0.0 <= d.confidence <= 1.0
  {
  }

  /**
   * The similarity is `1 - distance`, and the store's default distance is not
   * bounded by 1: a prototype at distance 1.2 gives similarity -0.2, and the
   * chunk, instead of being noise, makes detection fail.
   */
  lemma DistantPrototypeFails(percent: real -> string)
    ensures DetectCategory(Retrieval([PrototypeMatch("Non-Compete", -0.2)], None, [], [], percent)).Err?
  {
  }

  function Clamp(x: real): (y: real)
    ensures 0.0 <= y <= 1.0
    ensures 0.0 <= x <= 1.0 ==> y == x
  {
    if x < 0.0 then 0.0 else if x > 1.0 then 1.0 else x
  }

  /**
   * Detection with the confidence clamped to [0, 1]: it always answers, a
   * distant prototype gives the noise zone without review, and whenever the
   * detection as written succeeds the two agree.
   */
  function DetectCategoryClamped(r: Retrieval): (d: CategoryDetection)
    ensures 0.0 <= d.confidence <= 1.0
    ensures d.needsAgentReview <==> d.zone == Courtroom
    ensures r.prototypes != [] && r.prototypes[0].similarity < NoiseThreshold ==>
      d.zone == Noise && !d.needsAgentReview && d.retrievedSafeExamples == [] && d.retrievedRiskyExamples == []
    ensures DetectCategory(r).Ok? ==> d == DetectCategory(r).value
  {
    if r.prototypes == [] then NoMatch
    else
      var top := r.prototypes[0];
      var z := ApplyZoneLogic(top.similarity, top.category, r.topSafeSimilarity, r.percent);
      CategoryDetection(top.category, Clamp(top.similarity), top.similarity, z.zone, z.needsReview, None,
                        if z.needsReview then r.safeExamples else [],
                        if z.needsReview then r.riskyExamples else [],
                        z.reasoning)
  }
}
