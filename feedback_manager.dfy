/**
 * The store of user feedback and the statistics drawn from it. Each piece of
 * feedback is one entry of the feedback collection: an id, a document and a
 * metadata dictionary. The vector database is modelled as the sequence of
 * entries it holds, in insertion order; clocks are inputs.
 */
module FeedbackManager {
  import opened Wrappers
  import Strings
  import Seqs

  /** A metadata value: the collection stores strings and integers. */
  datatype MetaValue = Str(s: string) | Num(n: int)

  type Metadata = map<string, MetaValue>

  datatype Entry = Entry(id: string, document: string, metadata: Metadata)

  /** `f"{prefix}{chunk_id}_{stamp}"`, `stamp` being the UTC clock reading as text. */
  function FeedbackId(prefix: string, chunkId: string, stamp: string): (id: string)
    ensures Strings.StartsWith(id, prefix + chunkId + "_")
    ensures id[|prefix|..|prefix| + |chunkId|] == chunkId
  {
    prefix + chunkId + "_" + stamp
  }

  /** The risk level a user's score sets: risky from 70 up, safe up to 40, moderate between. */
  function RiskLevelFor(userScore: int): (level: string)
    ensures level == "risky" <==> userScore >= 70
    ensures level == "safe" <==> userScore <= 40
    ensures level == "moderate" <==> 40 < userScore < 70
  {
    if userScore >= 70 then "risky" else if userScore <= 40 then "safe" else "moderate"
  }

  /** The metadata fields every kind of feedback shares. */
  function Common(feedbackType: string, chunkId: string, category: string, riskLevel: string,
                  comment: string, userId: Option<string>, iso: string, source: string): Metadata
  {
    map["feedback_type" := Str(feedbackType), "chunk_id" := Str(chunkId), "category" := Str(category),
        "risk_level" := Str(riskLevel), "user_comment" := Str(comment),
        "user_id" := Str(Strings.OrDefault(userId, "anonymous")), "timestamp" := Str(iso),
        "source" := Str(source)]
  }

  function FalsePositiveMetadata(chunkId: string, category: string, systemScore: int,
                                 comment: string, userId: Option<string>, iso: string): Metadata
  {
    Common("false_positive", chunkId, category, "safe", comment, userId, iso, "user_correction")
      ["system_score" := Num(systemScore)]
  }

  function FalseNegativeMetadata(chunkId: string, category: string, userScore: int,
                                 comment: string, userId: Option<string>, iso: string): Metadata
  {
    Common("false_negative", chunkId, category, "risky", comment, userId, iso, "user_correction")
      ["user_score" := Num(userScore)]
  }

  function FixApprovalMetadata(chunkId: string, category: string, originalRisky: string,
                               comment: string, userId: Option<string>, iso: string): Metadata
  {
    Common("fix_approved", chunkId, category, "safe", comment, userId, iso, "approved_fix")
      ["original_risky" := Str(Seqs.PyPrefix(originalRisky, 200))]
  }

  function ScoreAdjustmentMetadata(chunkId: string, category: string, systemScore: int, userScore: int,
                                   comment: string, userId: Option<string>, iso: string): Metadata
  {
    Common("score_adjustment", chunkId, category, RiskLevelFor(userScore), comment, userId, iso, "user_adjustment")
      ["system_score" := Num(systemScore)]["user_score" := Num(userScore)]
      ["score_delta" := Num(userScore - systemScore)]
  }

  /**
   * What each kind of record stores: false positives are marked safe, false
   * negatives risky, approved fixes safe with at most 200 characters of the
   * original clause, score adjustments by the user's score with the difference
   * of the two scores; a missing user is recorded as "anonymous".
   */
  lemma RecordedMetadata(chunkId: string, category: string, s: int, u: int, text: string,
                         comment: string, userId: Option<string>, iso: string)
    ensures FalsePositiveMetadata(chunkId, category, s, comment, userId, iso)["risk_level"] == Str("safe")
    ensures FalseNegativeMetadata(chunkId, category, u, comment, userId, iso)["risk_level"] == Str("risky")
    ensures FalseNegativeMetadata(chunkId, category, u, comment, userId, iso)["user_score"] == Num(u)
    ensures var m := FixApprovalMetadata(chunkId, category, text, comment, userId, iso);
      m["risk_level"] == Str("safe") && m["original_risky"].Str? && |m["original_risky"].s| <= 200
      && m["original_risky"].s == text[..|m["original_risky"].s|]
      && (|text| >= 200 ==> |m["original_risky"].s| == 200)
    ensures var m := ScoreAdjustmentMetadata(chunkId, category, s, u, comment, userId, iso);
      m["risk_level"] == Str(RiskLevelFor(u)) && m["score_delta"] == Num(u - s)
    ensures userId.None? ==>
      FalsePositiveMetadata(chunkId, category, s, comment, userId, iso)["user_id"] == Str("anonymous")
  {
  }

  /** The feedback collection. */
  class FeedbackStore {
    var entries: seq<Entry>

    constructor()
      ensures entries == []
    {
      entries := [];
    }

    /** `add_false_positive_correction`: stores the clause as safe. */
    method AddFalsePositive(chunkId: string, text: string, category: string, systemScore: int,
                            comment: string, userId: Option<string>, stamp: string, iso: string)
      returns (id: string)
      modifies this
      ensures id == FeedbackId("fp_", chunkId, stamp)
      ensures entries == old(entries) + [Entry(id, text, FalsePositiveMetadata(chunkId, category, systemScore, comment, userId, iso))]
    {
      id := FeedbackId("fp_", chunkId, stamp);
      entries := entries + [Entry(id, text, FalsePositiveMetadata(chunkId, category, systemScore, comment, userId, iso))];
    }

    /** `add_false_negative_correction`: stores the clause as risky. */
    method AddFalseNegative(chunkId: string, text: string, category: string, userScore: int,
                            comment: string, userId: Option<string>, stamp: string, iso: string)
      returns (id: string)
      modifies this
      ensures id == FeedbackId("fn_", chunkId, stamp)
      ensures entries == old(entries) + [Entry(id, text, FalseNegativeMetadata(chunkId, category, userScore, comment, userId, iso))]
    {
      id := FeedbackId("fn_", chunkId, stamp);
      entries := entries + [Entry(id, text, FalseNegativeMetadata(chunkId, category, userScore, comment, userId, iso))];
    }

    /**
     * `add_fix_approval`: only an approved fix is stored (the fix text is the
     * document), but an id is returned either way.
     */
    method AddFixApproval(chunkId: string, originalRisky: string, fix: string, category: string,
                          approved: bool, comment: string, userId: Option<string>, stamp: string, iso: string)
      returns (id: string)
      modifies this
      ensures id == FeedbackId("fix_", chunkId, stamp)
      ensures approved ==>
        entries == old(entries) + [Entry(id, fix, FixApprovalMetadata(chunkId, category, originalRisky, comment, userId, iso))]
      ensures !approved ==> entries == old(entries)
    {
      id := FeedbackId("fix_", chunkId, stamp);
      if approved {
        entries := entries + [Entry(id, fix, FixApprovalMetadata(chunkId, category, originalRisky, comment, userId, iso))];
      }
    }

    /** `add_risk_score_adjustment`. */
    method AddScoreAdjustment(chunkId: string, text: string, category: string, systemScore: int,
                              userScore: int, comment: string, userId: Option<string>, stamp: string, iso: string)
      returns (id: string)
      modifies this
      ensures id == FeedbackId("score_", chunkId, stamp)
      ensures entries == old(entries) +
        [Entry(id, text, ScoreAdjustmentMetadata(chunkId, category, systemScore, userScore, comment, userId, iso))]
    {
      id := FeedbackId("score_", chunkId, stamp);
      entries := entries + [Entry(id, text, ScoreAdjustmentMetadata(chunkId, category, systemScore, userScore, comment, userId, iso))];
    }

    /**
     * `get_feedback_stats`. `failure` is the exception reading the collection
     * raised, if any. Otherwise the entries' types and categories are counted in
     * the order they are met, a missing key counting as "unknown".
     */
    method GetFeedbackStats(failure: Option<string>) returns (r: Stats)
      ensures failure.Some? ==> r == StatsError(failure.value)
      ensures failure.None? ==> r == StatsOf(entries)
    {
      if failure.Some? {
        return StatsError(failure.value);
      }
      if |entries| == 0 {
        return Counts(0, [], []);
      }
      var byType: Seqs.Tally<MetaValue> := [];
      var byCategory: Seqs.Tally<MetaValue> := [];
      var i := 0;
      while i < |entries|
        invariant 0 <= i <= |entries|
        invariant byType == Seqs.TallyOf(Keys(entries[..i], "feedback_type"))
        invariant byCategory == Seqs.TallyOf(Keys(entries[..i], "category"))
      {
        assert Keys(entries[..i + 1], "feedback_type")[..i] == Keys(entries[..i], "feedback_type");
        assert Keys(entries[..i + 1], "category")[..i] == Keys(entries[..i], "category");
        byType := Seqs.TallyBump(byType, KeyOf(entries[i], "feedback_type"));
        byCategory := Seqs.TallyBump(byCategory, KeyOf(entries[i], "category"));
        i := i + 1;
      }
      assert entries[..i] == entries;
      r := Counts(|entries|, byType, byCategory);
    }
  }

  /** The answer of `get_feedback_stats`: the counts, or the error text. */
  datatype Stats =
    | Counts(total: int, byType: Seqs.Tally<MetaValue>, byCategory: Seqs.Tally<MetaValue>)
    | StatsError(message: string)

  /** `metadata.get(key, 'unknown')`. */
  function KeyOf(e: Entry, key: string): MetaValue {
    if key in e.metadata then e.metadata[key] else Str("unknown")
  }

  function Keys(es: seq<Entry>, key: string): (ks: seq<MetaValue>)
    ensures |ks| == |es|
  {
    seq(|es|, i requires 0 <= i < |es| => KeyOf(es[i], key))
  }

  /** The statistics of a readable collection. */
  function StatsOf(es: seq<Entry>): Stats {
    Counts(|es|, Seqs.TallyOf(Keys(es, "feedback_type")), Seqs.TallyOf(Keys(es, "category")))
  }

  /**
   * An empty collection has a total of 0 and no counts. Otherwise each type and
   * each category counts the entries that carry it (missing keys under
   * "unknown"), each key appears once, and each family of counts adds up to the
   * number of entries, which is the total.
   */
  lemma {:induction false} StatsFacts(es: seq<Entry>)
    ensures es == [] ==> StatsOf(es) == Counts(0, [], [])
    ensures var st := StatsOf(es);
      && st.total == |es|
      && Seqs.TallySum(st.byType) == |es| && Seqs.TallySum(st.byCategory) == |es|
      && Seqs.Distinct(Seqs.TallyKeys(st.byType)) && Seqs.Distinct(Seqs.TallyKeys(st.byCategory))
      && (forall k :: Seqs.TallyGet(st.byType, k) == multiset(Keys(es, "feedback_type"))[k])
      && (forall k :: Seqs.TallyGet(st.byCategory, k) == multiset(Keys(es, "category"))[k])
    ensures forall i :: 0 <= i < |es| && "feedback_type" !in es[i].metadata ==>
      Str("unknown") in Seqs.TallyKeys(StatsOf(es).byType)
  {
    Seqs.TallyOfFacts(Keys(es, "feedback_type"));
    Seqs.TallyOfFacts(Keys(es, "category"));
    forall i | 0 <= i < |es| && "feedback_type" !in es[i].metadata
      ensures Str("unknown") in Seqs.TallyKeys(StatsOf(es).byType)
    {
      assert Keys(es, "feedback_type")[i] == Str("unknown");
    }
  }

  /** Recording one more entry adds one to the count of its type and one to the total. */
  lemma {:induction false} AddingCountsOnce(es: seq<Entry>, e: Entry)
    requires "feedback_type" in e.metadata
    ensures Seqs.TallyGet(StatsOf(es + [e]).byType, e.metadata["feedback_type"])
         == Seqs.TallyGet(StatsOf(es).byType, e.metadata["feedback_type"]) + 1
    ensures StatsOf(es + [e]).total == StatsOf(es).total + 1
  {
    var k := e.metadata["feedback_type"];
    assert Keys(es + [e], "feedback_type") == Keys(es, "feedback_type") + [k];
    Seqs.TallyOfFacts(Keys(es, "feedback_type"));
    Seqs.TallyOfFacts(Keys(es + [e], "feedback_type"));
  }
}
