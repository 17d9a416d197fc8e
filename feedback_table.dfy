/**
 * The admin feedback table of the browser UI. It holds the feedback records
 * fetched from the backend, sorts them into three review buckets, offers
 * per-card status actions, and runs a key-guarded batch sync.
 */
module FeedbackTable {
  import opened Wrappers
  import Strings
  import Seqs
  import AdminApi

  /** 30 days in milliseconds: fix reviews older than this are hidden. */
  const ThirtyDaysMs: int := 30 * 24 * 60 * 60 * 1000

  /**
   * One feedback record as the table receives it. `status` is absent for records
   * that never had one; `timeMs` is `new Date(timestamp).getTime()`, absent when
   * the timestamp does not parse (a `NaN` time). `rest` stands for every other
   * field, which the table only displays.
   */
  datatype FeedbackRecord = FeedbackRecord(
    id: int, feedbackType: string, status: Option<string>, timeMs: Option<int>,
    category: string, rest: string)

  /** `f.status === 'pending' || !f.status`. */
  predicate IsPending(f: FeedbackRecord) {
    f.status == Some("pending") || f.status.None? || f.status == Some("")
  }

  predicate InPendingReview(f: FeedbackRecord) {
    IsPending(f) && f.feedbackType == "false-positive"
  }

  /** A `NaN` time makes the age comparison false, so such a record is hidden. */
  predicate InFixReviews(f: FeedbackRecord, now: int) {
    IsPending(f) && f.feedbackType == "approve-fix" && f.timeMs.Some? && now - f.timeMs.value < ThirtyDaysMs
  }

  predicate IsApproved(f: FeedbackRecord) {
    f.status == Some("approved")
  }

  /** The "Not Risky" bucket: the pending false positives, in their original order. */
  function PendingReview(fs: seq<FeedbackRecord>): (r: seq<FeedbackRecord>)
    ensures forall f :: f in r <==> f in fs && InPendingReview(f)
    ensures Seqs.IsSubsequence(r, fs)
  {
    Seqs.FilterIsSubsequence(fs, InPendingReview);
    FilterMembership(fs, InPendingReview);
    Seqs.Filter(fs, InPendingReview)
  }

  /**
   * The fix-quality bucket, relative to the clock reading `now`: the pending
   * approve-fix records younger than 30 days (strictly), in their original
   * order.
   */
  function FixReviews(fs: seq<FeedbackRecord>, now: int): (r: seq<FeedbackRecord>)
    ensures forall f :: f in r <==>
      f in fs && IsPending(f) && f.feedbackType == "approve-fix" && f.timeMs.Some? && now - f.timeMs.value < ThirtyDaysMs
    ensures Seqs.IsSubsequence(r, fs)
  {
    Seqs.FilterIsSubsequence(fs, f => InFixReviews(f, now));
    FilterMembership(fs, f => InFixReviews(f, now));
    Seqs.Filter(fs, f => InFixReviews(f, now))
  }

  /** The acknowledged/approved bucket: the approved records of any type, in their original order. */
  function ApprovedSuggestions(fs: seq<FeedbackRecord>): (r: seq<FeedbackRecord>)
    ensures forall f :: f in r <==> f in fs && f.status == Some("approved")
    ensures Seqs.IsSubsequence(r, fs)
  {
    Seqs.FilterIsSubsequence(fs, IsApproved);
    FilterMembership(fs, IsApproved);
    Seqs.Filter(fs, IsApproved)
  }

  lemma FilterMembership(fs: seq<FeedbackRecord>, p: FeedbackRecord -> bool)
    ensures forall f :: f in Seqs.Filter(fs, p) <==> f in fs && p(f)
  {
    var r := Seqs.Filter(fs, p);
    forall f | f in r ensures f in fs && p(f) {
      var i :| 0 <= i < |r| && r[i] == f;
    }
    forall f | f in fs && p(f) ensures f in r {
      var i :| 0 <= i < |fs| && fs[i] == f;
    }
  }

  /** No record is in two buckets at once. */
  lemma BucketsAreDisjoint(fs: seq<FeedbackRecord>, now: int)
    ensures forall f :: f in ApprovedSuggestions(fs) ==> f !in PendingReview(fs) && f !in FixReviews(fs, now)
    ensures forall f :: f in PendingReview(fs) ==> f !in FixReviews(fs, now)
  {
  }

  /**
   * `prev.map(f => f.id === id ? { ...f, status } : f)`: a status update
   * touches only the records with the given id, and in those only the status;
   * length and order are kept.
   */
  function ReplaceStatus(fs: seq<FeedbackRecord>, id: int, status: string): (r: seq<FeedbackRecord>)
    ensures |r| == |fs|
    ensures forall i :: 0 <= i < |fs| && fs[i].id != id ==> r[i] == fs[i]
    ensures forall i :: 0 <= i < |fs| && fs[i].id == id ==>
      r[i].status == Some(status) && r[i].id == fs[i].id && r[i].feedbackType == fs[i].feedbackType
      && r[i].timeMs == fs[i].timeMs && r[i].category == fs[i].category && r[i].rest == fs[i].rest
  {
    seq(|fs|, i requires 0 <= i < |fs| => if fs[i].id == id then fs[i].(status := Some(status)) else fs[i])
  }

  /** Setting the same status twice is the same as setting it once. */
  lemma ReplaceStatusIdempotent(fs: seq<FeedbackRecord>, id: int, status: string)
    ensures ReplaceStatus(ReplaceStatus(fs, id, status), id, status) == ReplaceStatus(fs, id, status)
  {
  }

  /**
   * Acknowledging a pending false positive moves it to the approved bucket, and
   * resetting it brings it back to the pending bucket, everything but its status
   * intact.
   */
  lemma {:induction false} AcknowledgeThenReset(fs: seq<FeedbackRecord>, i: int)
    requires 0 <= i < |fs| && InPendingReview(fs[i])
    ensures var a := ReplaceStatus(fs, fs[i].id, "approved");
      && IsApproved(a[i]) && !InPendingReview(a[i])
      && var b := ReplaceStatus(a, fs[i].id, "pending");
      && InPendingReview(b[i]) && b[i] == fs[i].(status := Some("pending"))
  {
    var a := ReplaceStatus(fs, fs[i].id, "approved");
    assert a[i] == fs[i].(status := Some("approved"));
  }

  /** The action buttons of a feedback card. */
  datatype Action = Acknowledge | Ignore | Reset

  /** The status each button asks for. */
  function TargetStatus(a: Action): string {
    match a
    case Acknowledge => "approved"
    case Ignore => "rejected"
    case Reset => "pending"
  }

  /**
   * The buttons shown on a card: Acknowledge and Ignore unless the record is an
   * approve-fix record or the card sits in the approved bucket, and Reset only
   * in the approved bucket.
   */
  function CardActions(f: FeedbackRecord, isApproved: bool): (acts: seq<Action>)
    ensures Acknowledge in acts <==> f.feedbackType != "approve-fix" && !isApproved
    ensures Ignore in acts <==> f.feedbackType != "approve-fix" && !isApproved
    ensures Reset in acts <==> isApproved
  {
    (if f.feedbackType != "approve-fix" && !isApproved then [Acknowledge, Ignore] else [])
    + (if isApproved then [Reset] else [])
  }

  /**
   * What the page lets an admin do. The cards of the two pending buckets are
   * drawn with `isApproved` false and those of the approved bucket with true, so:
   * a pending false positive can be acknowledged or ignored; a fix-review card
   * offers nothing, so a pending approve-fix record is never updated here; and
   * an approved record of any type can only be reset to pending.
   */
  lemma {:induction false} OfferedUpdates(fs: seq<FeedbackRecord>, now: int, f: FeedbackRecord)
    ensures f in PendingReview(fs) ==>
      f in fs && InPendingReview(f) && CardActions(f, false) == [Acknowledge, Ignore]
    ensures f in FixReviews(fs, now) ==>
      f in fs && f.feedbackType == "approve-fix" && CardActions(f, false) == []
    ensures f in ApprovedSuggestions(fs) ==>
      f in fs && IsApproved(f) && CardActions(f, true) == [Reset]
  {
  }

  /**
   * The batch-sync button is shown only when the approved bucket is
   * non-empty, that is, when some record is approved.
   */
  function BatchSyncVisible(fs: seq<FeedbackRecord>): (visible: bool)
    ensures visible <==> exists f :: f in fs && IsApproved(f)
  {
    var approved := ApprovedSuggestions(fs);
    if |approved| > 0 then
      assert approved[0] in approved;
      true
    else
      false
  }

  const UpdateFailedAlert: string := "Failed to update " + "status. Please ensure " + "the backend is running."

  /** The table component's state. */
  class Table {
    var feedback: seq<FeedbackRecord>
    var loading: bool

    /** The component mounts with no records and the spinner on. */
    constructor()
      ensures feedback == [] && loading
    {
      feedback := [];
      loading := true;
    }

    /**
     * `loadData()`: asks for up to 100 records; on success they replace the
     * collection, on failure it is kept. Either way loading ends.
     */
    method LoadData(stored: Option<string>, reply: Result<seq<FeedbackRecord>, AdminApi.ApiError>)
      returns (req: AdminApi.Request)
      modifies this
      ensures req == AdminApi.Build(AdminApi.GetFeedback([("limit", "100")]), stored)
      ensures reply.Ok? ==> feedback == reply.value
      ensures reply.Err? ==> feedback == old(feedback)
      ensures !loading
    {
      req := AdminApi.Build(AdminApi.GetFeedback([("limit", "100")]), stored);
      if reply.Ok? {
        feedback := reply.value;
      }
      loading := false;
    }

    /**
     * `handleUpdateStatus(id, status)`: the local records change only after the
     * server accepted the update; a failure leaves them untouched and alerts.
     */
    method HandleUpdateStatus(id: int, status: string, stored: Option<string>,
                              reply: Result<(), AdminApi.ApiError>)
      returns (req: AdminApi.Request, alert: Option<string>)
      modifies this
      ensures req == AdminApi.Build(AdminApi.UpdateFeedbackStatus(id, status), stored)
      ensures reply.Ok? ==> feedback == ReplaceStatus(old(feedback), id, status) && alert == None
      ensures reply.Err? ==> feedback == old(feedback) && alert == Some(UpdateFailedAlert)
      ensures loading == old(loading)
    {
      req := AdminApi.Build(AdminApi.UpdateFeedbackStatus(id, status), stored);
      if reply.Ok? {
        feedback := ReplaceStatus(feedback, id, status);
        alert := None;
      } else {
        alert := Some(UpdateFailedAlert);
      }
    }

    /**
     * `handleBatchSync()`: `answer` is what the prompt returned (absent when
     * cancelled). A cancelled or empty answer sends nothing. Otherwise the key
     * goes to the batch-sync call; on success the count is reported and the
     * records are reloaded once (`reload` is the reply to that reload), on
     * failure the server's `detail` or "Invalid Key" is shown.
     */
    method HandleBatchSync(answer: Option<string>, stored: Option<string>,
                           reply: Result<int, AdminApi.ApiError>,
                           reload: Result<seq<FeedbackRecord>, AdminApi.ApiError>)
      returns (reqs: seq<AdminApi.Request>, alert: Option<string>)
      modifies this
      ensures answer.None? || answer.value == "" ==>
        reqs == [] && alert == None && feedback == old(feedback) && loading == old(loading)
      ensures answer.Some? && answer.value != "" ==>
        |reqs| >= 1 && reqs[0] == AdminApi.Build(AdminApi.BatchSync(answer.value), stored)
      ensures answer.Some? && answer.value != "" && reply.Ok? ==>
        && reqs == [reqs[0], AdminApi.Build(AdminApi.GetFeedback([("limit", "100")]), stored)]
        && alert == Some("Batch sync completed " + "successfully! Synced " + Strings.IntToString(reply.value) + " items.")
        && (reload.Ok? ==> feedback == reload.value)
        && (reload.Err? ==> feedback == old(feedback))
        && !loading
      ensures answer.Some? && answer.value != "" && reply.Err? ==>
        && |reqs| == 1
        && alert == Some("Sync failed: " + Strings.OrDefault(reply.error.detail, "Invalid Key"))
        && feedback == old(feedback) && loading == old(loading)
    {
      if answer.None? || answer.value == "" {
        return [], None;
      }
      var sync := AdminApi.Build(AdminApi.BatchSync(answer.value), stored);
      if reply.Ok? {
        alert := Some("Batch sync completed " + "successfully! Synced " + Strings.IntToString(reply.value) + " items.");
        var again := LoadData(stored, reload);
        reqs := [sync, again];
      } else {
        alert := Some("Sync failed: " + Strings.OrDefault(reply.error.detail, "Invalid Key"));
        reqs := [sync];
      }
    }
  }
}
