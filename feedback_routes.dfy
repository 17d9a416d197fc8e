/**
 * The three public feedback endpoints. Each maps the request body onto a call
 * of the feedback store, filling in absent fields, and answers with the new
 * feedback id and a fixed message. A failure inside the store is not
 * modelled, so every answer is a success.
 */
module FeedbackRoutes {
  import opened Wrappers
  import Strings
  import FeedbackManager

  /** The request body; `userId` is "anonymous" unless the client sends something else. */
  datatype FeedbackRequest = FeedbackRequest(
    chunkId: string, clauseText: string, category: string, systemRiskScore: int,
    userRiskScore: Option<int>, userComment: Option<string>, userId: Option<string>,
    suggestedFix: Option<string>, approved: Option<bool>)

  datatype FeedbackResponse = FeedbackResponse(feedbackId: string, status: string, message: string)

  /** `x or d` on an optional integer: absent and 0 both fall back. */
  function IntOr(x: Option<int>, d: int): (r: int)
    ensures x.Some? && x.value != 0 ==> r == x.value
    ensures x.None? || x.value == 0 ==> r == d
  {
    if x.Some? && x.value != 0 then x.value else d
  }

  /** `x or False` on an optional flag. */
  function FlagOrFalse(x: Option<bool>): (r: bool)
    ensures r <==> x == Some(true)
  {
    x.Some? && x.value
  }

  /** The score recorded for a false negative: 70 unless the user gave a non-zero score. */
  function FalseNegativeScore(req: FeedbackRequest): (s: int)
    ensures req.userRiskScore.None? || req.userRiskScore == Some(0) ==> s == 70
    ensures req.userRiskScore.Some? && req.userRiskScore.value != 0 ==> s == req.userRiskScore.value
  {
    IntOr(req.userRiskScore, 70)
  }

  /** The message of the approve-fix endpoint. */
  function ApproveFixMessage(req: FeedbackRequest): (m: string)
    ensures m == "Fix approved!" <==> req.approved == Some(true)
    ensures m != "Fix approved!" ==> m == "Thanks for feedback!"
  {
    if FlagOrFalse(req.approved) then "Fix approved!" else "Thanks for feedback!"
  }

  /** `POST /false-positive`. */
  method ReportFalsePositive(store: FeedbackManager.FeedbackStore, req: FeedbackRequest, stamp: string, iso: string)
    returns (r: FeedbackResponse)
    modifies store
    ensures r == FeedbackResponse(FeedbackManager.FeedbackId("fp_", req.chunkId, stamp), "recorded", "Thank you! Correction " + "recorded.")
    ensures store.entries == old(store.entries) + [FeedbackManager.Entry(r.feedbackId, req.clauseText,
      FeedbackManager.FalsePositiveMetadata(req.chunkId, req.category, req.systemRiskScore,
        Strings.OrDefault(req.userComment, ""), req.userId, iso))]
  {
    var id := store.AddFalsePositive(req.chunkId, req.clauseText, req.category, req.systemRiskScore,
                                     Strings.OrDefault(req.userComment, ""), req.userId, stamp, iso);
    r := FeedbackResponse(id, "recorded", "Thank you! Correction " + "recorded.");
  }

  /** `POST /false-negative`. */
  method ReportFalseNegative(store: FeedbackManager.FeedbackStore, req: FeedbackRequest, stamp: string, iso: string)
    returns (r: FeedbackResponse)
    modifies store
    ensures r == FeedbackResponse(FeedbackManager.FeedbackId("fn_", req.chunkId, stamp), "recorded", "Thank you! We'll " + "improve detection.")
    ensures store.entries == old(store.entries) + [FeedbackManager.Entry(r.feedbackId, req.clauseText,
      FeedbackManager.FalseNegativeMetadata(req.chunkId, req.category, FalseNegativeScore(req),
        Strings.OrDefault(req.userComment, ""), req.userId, iso))]
  {
    var id := store.AddFalseNegative(req.chunkId, req.clauseText, req.category, FalseNegativeScore(req),
                                     Strings.OrDefault(req.userComment, ""), req.userId, stamp, iso);
    r := FeedbackResponse(id, "recorded", "Thank you! We'll " + "improve detection.");
  }

  /**
   * `POST /approve-fix`: an absent fix becomes the empty text and an absent
   * flag means not approved, in which case nothing is stored.
   */
  method ApproveFix(store: FeedbackManager.FeedbackStore, req: FeedbackRequest, stamp: string, iso: string)
    returns (r: FeedbackResponse)
    modifies store
    ensures r == FeedbackResponse(FeedbackManager.FeedbackId("fix_", req.chunkId, stamp), "recorded", ApproveFixMessage(req))
    ensures req.approved == Some(true) ==>
      store.entries == old(store.entries) + [FeedbackManager.Entry(r.feedbackId, Strings.OrDefault(req.suggestedFix, ""),
        FeedbackManager.FixApprovalMetadata(req.chunkId, req.category, req.clauseText,
          Strings.OrDefault(req.userComment, ""), req.userId, iso))]
    ensures req.approved != Some(true) ==> store.entries == old(store.entries)
  {
    var id := store.AddFixApproval(req.chunkId, req.clauseText, Strings.OrDefault(req.suggestedFix, ""),
                                   req.category, FlagOrFalse(req.approved),
                                   Strings.OrDefault(req.userComment, ""), req.userId, stamp, iso);
    r := FeedbackResponse(id, "recorded", ApproveFixMessage(req));
  }
}
