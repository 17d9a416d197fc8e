/**
 * The admin endpoints of the backend. Every endpoint first checks the
 * `x-api-key` header against the admin key; then it lists, approves, rejects
 * or clears feedback, or reports learning status and system health.
 */
module AdminRoutes {
  import opened Wrappers
  import Seqs
  import AdminApi
  import FeedbackManager
  import LearningLoop

  /** The key the admin endpoints accept: the module-level literal assigned last. */
  const AdminApiKey: string := "your-secret-admin-key-here"

  /**
   * The key in force after the module has loaded: the environment value read
   * first (with its "change-me" default) is overwritten by the literal, so the
   * environment has no effect.
   */
  function EffectiveAdminKey(env: Option<string>): (k: string)
    ensures k == AdminApiKey
  {
    AdminApiKey
  }

  /** `verify_admin`: the header must be present and equal the key exactly. */
  function VerifyAdmin(header: Option<string>): (r: Result<bool, HttpError>)
    ensures r.Ok? <==> header == Some(AdminApiKey)
    ensures r.Err? ==> r.error == HttpError(403, "Invalid admin credentials")
  {
    if header != Some(AdminApiKey) then Err(HttpError(403, "Invalid admin credentials")) else Ok(true)
  }

  /**
   * The key a browser admin call presents passes `verify_admin` exactly when
   * the admin key is stored; the frontend's default key, used when nothing is
   * stored, never does. Routing is not modelled: this says nothing about
   * whether the call's path reaches an admin endpoint.
   */
  lemma {:induction false} BrowserDefaultKeyRefused(c: AdminApi.Call, stored: Option<string>)
    ensures VerifyAdmin(AdminApi.PresentedKey(AdminApi.Build(c, stored))).Ok? <==> stored == Some(AdminApiKey)
    ensures stored.None? ==> VerifyAdmin(AdminApi.PresentedKey(AdminApi.Build(c, stored))).Err?
  {
    assert AdminApi.Build(c, stored).headers == AdminApi.GetAdminHeaders(stored);
    assert AdminApi.DefaultAdminKey != AdminApiKey;
  }

  datatype PendingItem = PendingItem(
    id: string, text: string, metadata: FeedbackManager.Metadata,
    feedbackType: Option<FeedbackManager.MetaValue>, category: Option<FeedbackManager.MetaValue>,
    timestamp: Option<FeedbackManager.MetaValue>)

  /** The listing; `showing` is missing from the answer for an empty collection. */
  datatype PendingListing = PendingListing(feedback: seq<PendingItem>, total: int, showing: Option<int>)

  /** `metadata.get(key)`. */
  function Get(m: FeedbackManager.Metadata, key: string): Option<FeedbackManager.MetaValue> {
    if key in m then Some(m[key]) else None
  }

  function ItemOf(e: FeedbackManager.Entry): PendingItem {
    PendingItem(e.id, e.document, e.metadata, Get(e.metadata, "feedback_type"),
                Get(e.metadata, "category"), Get(e.metadata, "timestamp"))
  }

  /**
   * `GET /feedback/pending?limit=…` (default 50). `readFailure` is the
   * exception reading the collection raised, if any. An empty collection gives
   * no items and a total of 0; otherwise the first `limit` entries (Python
   * slice semantics, so a negative limit drops entries from the end) are listed
   * in order, with the size of the collection as total.
   */
  method GetPendingFeedback(store: FeedbackManager.FeedbackStore, limit: int, header: Option<string>,
                            readFailure: Option<string>)
    returns (r: Result<PendingListing, HttpError>)
    ensures VerifyAdmin(header).Err? ==> r == Err(VerifyAdmin(header).error)
    ensures VerifyAdmin(header).Ok? && readFailure.Some? ==> r == Err(HttpError(500, readFailure.value))
    ensures VerifyAdmin(header).Ok? && readFailure.None? && store.entries == [] ==> r == Ok(PendingListing([], 0, None))
    ensures VerifyAdmin(header).Ok? && readFailure.None? && store.entries != [] ==>
      && r.Ok? && r.value.total == |store.entries|
      && var shown := Seqs.PyPrefix(store.entries, limit);
      && |r.value.feedback| == |shown| && r.value.showing == Some(|shown|)
      && (forall i :: 0 <= i < |shown| ==> r.value.feedback[i] == ItemOf(store.entries[i]))
  {
    var auth := VerifyAdmin(header);
    if auth.Err? {
      return Err(auth.error);
    }
    if readFailure.Some? {
      return Err(HttpError(500, readFailure.value));
    }
    var all := store.entries;
    if |all| == 0 {
      return Ok(PendingListing([], 0, None));
    }
    var shown := Seqs.PyPrefix(all, limit);
    var items: seq<PendingItem> := [];
    var i := 0;
    while i < |shown|
      invariant 0 <= i <= |shown|
      invariant |items| == i
      invariant forall k :: 0 <= k < i ==> items[k] == ItemOf(all[k])
    {
      items := items + [ItemOf(all[i])];
      i := i + 1;
    }
    r := Ok(PendingListing(items, |all|, Some(|items|)));
  }

  /**
   * `POST /feedback/{id}/approve`: 404 for an unknown id; the store is only
   * read. `readFailure` is the exception the lookup raised, if any: a 500.
   */
  method ApproveFeedback(store: FeedbackManager.FeedbackStore, id: string, header: Option<string>,
                         readFailure: Option<string>)
    returns (r: Result<string, HttpError>)
    ensures VerifyAdmin(header).Err? ==> r == Err(VerifyAdmin(header).error)
    ensures VerifyAdmin(header).Ok? && readFailure.Some? ==> r == Err(HttpError(500, readFailure.value))
    ensures VerifyAdmin(header).Ok? && readFailure.None? ==>
      (r == Err(HttpError(404, "Feedback not found")) <==> forall e :: e in store.entries ==> e.id != id)
    ensures VerifyAdmin(header).Ok? && readFailure.None? ==> r.Ok? || r == Err(HttpError(404, "Feedback not found"))
    ensures r.Ok? ==> r.value == id
  {
    var auth := VerifyAdmin(header);
    if auth.Err? {
      return Err(auth.error);
    }
    if readFailure.Some? {
      return Err(HttpError(500, readFailure.value));
    }
    var found := exists e :: e in store.entries && e.id == id;
    if !found {
      return Err(HttpError(404, "Feedback not found"));
    }
    r := Ok(id);
  }

  /**
   * `POST /feedback/{id}/reject`: every entry with that id is deleted, and
   * nothing else. `deleteFailure` is the exception the deletion raised, if
   * any: a 500, and nothing is deleted.
   */
  method RejectFeedback(store: FeedbackManager.FeedbackStore, id: string, header: Option<string>,
                        deleteFailure: Option<string>)
    returns (r: Result<string, HttpError>)
    modifies store
    ensures VerifyAdmin(header).Err? ==> r == Err(VerifyAdmin(header).error) && store.entries == old(store.entries)
    ensures VerifyAdmin(header).Ok? && deleteFailure.Some? ==>
      r == Err(HttpError(500, deleteFailure.value)) && store.entries == old(store.entries)
    ensures VerifyAdmin(header).Ok? && deleteFailure.None? ==>
      r == Ok(id) && store.entries == Without(old(store.entries), id)
  {
    var auth := VerifyAdmin(header);
    if auth.Err? {
      return Err(auth.error);
    }
    if deleteFailure.Some? {
      return Err(HttpError(500, deleteFailure.value));
    }
    store.entries := Without(store.entries, id);
    r := Ok(id);
  }

  /** The collection after `delete(ids=[id])`: no entry has the id, and the collection does not grow. */
  function Without(es: seq<FeedbackManager.Entry>, id: string): (r: seq<FeedbackManager.Entry>)
    ensures forall k :: 0 <= k < |r| ==> r[k].id != id
    ensures |r| <= |es|
  {
    Seqs.Filter(es, (e: FeedbackManager.Entry) => e.id != id)
  }

  /** A rejection leaves no entry with the id and keeps every other entry, in order. */
  lemma {:induction false} RejectRemovesExactlyThatId(es: seq<FeedbackManager.Entry>, id: string)
    ensures forall e :: e in Without(es, id) ==> e.id != id
    ensures forall e :: e in es && e.id != id ==> e in Without(es, id)
    ensures Seqs.IsSubsequence(Without(es, id), es)
  {
    Seqs.FilterIsSubsequence(es, (e: FeedbackManager.Entry) => e.id != id);
    var r := Without(es, id);
    forall e | e in r ensures e.id != id {
      var i :| 0 <= i < |r| && r[i] == e;
    }
    forall e | e in es && e.id != id ensures e in r {
      var i :| 0 <= i < |es| && es[i] == e;
    }
  }

  /**
   * `DELETE /feedback/clear-all`: without `confirm` nothing is deleted (the
   * check comes before any store access). `deleteFailure` is the exception
   * dropping the collection raised, if any: a 500, and nothing is deleted.
   */
  method ClearAllFeedback(store: FeedbackManager.FeedbackStore, confirm: bool, header: Option<string>,
                          deleteFailure: Option<string>)
    returns (r: Result<(), HttpError>)
    modifies store
    ensures VerifyAdmin(header).Err? ==> r == Err(VerifyAdmin(header).error) && store.entries == old(store.entries)
    ensures VerifyAdmin(header).Ok? && !confirm ==>
      r == Err(HttpError(400, "Must set confirm=true " + "to clear all feedback")) && store.entries == old(store.entries)
    ensures VerifyAdmin(header).Ok? && confirm && deleteFailure.Some? ==>
      r == Err(HttpError(500, deleteFailure.value)) && store.entries == old(store.entries)
    ensures VerifyAdmin(header).Ok? && confirm && deleteFailure.None? ==> r == Ok(()) && store.entries == []
  {
    var auth := VerifyAdmin(header);
    if auth.Err? {
      return Err(auth.error);
    }
    if !confirm {
      return Err(HttpError(400, "Must set confirm=true " + "to clear all feedback"));
    }
    if deleteFailure.Some? {
      return Err(HttpError(500, deleteFailure.value));
    }
    store.entries := [];
    r := Ok(());
  }

  /**
   * The health score of `GET /system-health`: 100, less 20 for a false-positive
   * rate above 30, less 20 for a false-negative rate above 30, less 30 for an
   * unreachable vector database. "healthy" means a score of at least 70: with
   * the database up, at most one rate may be too high; with it down, neither.
   */
  method HealthScore(fpRate: real, fnRate: real, dbHealthy: bool) returns (score: int, status: string)
    ensures 30 <= score <= 100
    ensures score == 100 <==> fpRate <= 30.0 && fnRate <= 30.0 && dbHealthy
    ensures status == "healthy" <==> score >= 70
    ensures status != "healthy" ==> status == "needs_attention"
    ensures status == "healthy" <==>
      if dbHealthy then !(fpRate > 30.0 && fnRate > 30.0) else fpRate <= 30.0 && fnRate <= 30.0
  {
    score := 100;
    if fpRate > 30.0 {
      score := score - 20;
    }
    if fnRate > 30.0 {
      score := score - 20;
    }
    if !dbHealthy {
      score := score - 30;
    }
    status := if score >= 70 then "healthy" else "needs_attention";
  }

  datatype LearningStatus = LearningStatus(
    patterns: LearningLoop.Patterns, suggestions: seq<LearningLoop.Suggestion>,
    shouldRetrain: bool, recommendation: string)

  /**
   * `GET /learning-status`, on one statistics reading. `failure` is an
   * exception raised while the answer was assembled, if any: a 500.
   */
  method GetLearningStatus(st: FeedbackManager.Stats, header: Option<string>, failure: Option<string>)
    returns (r: Result<LearningStatus, HttpError>)
    ensures VerifyAdmin(header).Err? ==> r == Err(VerifyAdmin(header).error)
    ensures VerifyAdmin(header).Ok? && failure.Some? ==> r == Err(HttpError(500, failure.value))
    ensures VerifyAdmin(header).Ok? && failure.None? ==>
      && r.Ok? && r.value.shouldRetrain == LearningLoop.ShouldRetrain(st)
      && r.value.patterns == LearningLoop.PatternsOf(st)
      && LearningLoop.Suggests(r.value.patterns, r.value.suggestions)
      && r.value.recommendation == if r.value.shouldRetrain then "Review and retrain system" else "System performing well"
  {
    var auth := VerifyAdmin(header);
    if auth.Err? {
      return Err(auth.error);
    }
    if failure.Some? {
      return Err(HttpError(500, failure.value));
    }
    var patterns := LearningLoop.AnalyzeFeedbackPatterns(st);
    var suggestions := LearningLoop.GetImprovementSuggestions(patterns);
    var retrain := LearningLoop.ShouldRetrain(st);
    r := Ok(LearningStatus(patterns, suggestions, retrain,
                           if retrain then "Review and retrain system" else "System performing well"));
  }
}
