/**
 * The admin half of the browser's HTTP client: the credential header and the
 * request each `adminApi` call sends. The transport itself is not modelled; a
 * call is described by the request it would put on the wire.
 */
module AdminApi {
  import opened Wrappers
  import Strings

  /** The header value used when the browser has no stored admin key. */
  const DefaultAdminKey: string := "admin123"

  datatype HttpMethod = Get | Patch | Post

  /** What goes in the request body: nothing, an explicit `null`, or `{}`. */
  datatype Body = NoBody | NullBody | EmptyObject

  datatype ResponseType = Json | Blob

  datatype Request = Request(
    verb: HttpMethod, path: string, params: seq<(string, string)>,
    headers: seq<(string, string)>, body: Body, responseType: ResponseType)

  /** The error an awaited call throws: the server's `detail`, when it sent one. */
  datatype ApiError = ApiError(detail: Option<string>)

  /** The calls the `adminApi` object offers. */
  datatype Call =
    | GetFeedback(query: seq<(string, string)>)
    | UpdateFeedbackStatus(id: int, status: string)
    | SyncToChroma(id: int)
    | BatchSync(adminKey: string)
    | ExportCsv

  /**
   * `getAdminHeaders()`: a single `x-api-key` header carrying the stored key, or
   * the default when nothing (or an empty string) is stored. Never empty.
   */
  function GetAdminHeaders(stored: Option<string>): (h: seq<(string, string)>)
    ensures |h| == 1 && h[0].0 == "x-api-key"
    ensures stored.Some? && stored.value != "" ==> h[0].1 == stored.value
    ensures stored.None? || stored.value == "" ==> h[0].1 == DefaultAdminKey
    ensures h[0].1 != ""
  {
    [("x-api-key", Strings.OrDefault(stored, DefaultAdminKey))]
  }

  /**
   * The request an `adminApi` call sends, given what the browser has stored
   * under `adminKey`. Every call carries the admin header; the status update and
   * the batch sync send their argument as a query parameter with a `null` body.
   */
  function Build(c: Call, stored: Option<string>): (r: Request)
    ensures r.headers == GetAdminHeaders(stored)
    ensures c.GetFeedback? ==> r.verb == Get && r.path == "/admin/feedback" && r.params == c.query
    ensures c.UpdateFeedbackStatus? ==>
      r.verb == Patch && r.params == [("status", c.status)] && r.body == NullBody
      && r.path == "/admin/feedback/" + Strings.IntToString(c.id) + "/status"
    ensures c.SyncToChroma? ==>
      r.verb == Post && r.params == [] && r.body == EmptyObject
      && r.path == "/admin/feedback/" + Strings.IntToString(c.id) + "/sync"
    ensures c.BatchSync? ==>
      r.verb == Post && r.path == "/admin/feedback/sync-batch"
      && r.params == [("admin_key", c.adminKey)] && r.body == NullBody
    ensures c.ExportCsv? ==> r.verb == Get && r.path == "/admin/export/csv" && r.responseType == Blob
    ensures !c.ExportCsv? ==> r.responseType == Json
  {
    var h := GetAdminHeaders(stored);
    match c
    case GetFeedback(q) => Request(Get, "/admin/feedback", q, h, NoBody, Json)
    case UpdateFeedbackStatus(id, status) =>
      Request(Patch, "/admin/feedback/" + Strings.IntToString(id) + "/status", [("status", status)], h, NullBody, Json)
    case SyncToChroma(id) =>
      Request(Post, "/admin/feedback/" + Strings.IntToString(id) + "/sync", [], h, EmptyObject, Json)
    case BatchSync(key) => Request(Post, "/admin/feedback/sync-batch", [("admin_key", key)], h, NullBody, Json)
    case ExportCsv => Request(Get, "/admin/export/csv", [], h, NoBody, Blob)
  }

  /** The credential a request presents: the value of its `x-api-key` header. */
  function PresentedKey(r: Request): Option<string> {
    if |r.headers| > 0 && r.headers[0].0 == "x-api-key" then Some(r.headers[0].1) else None
  }

  /**
   * Whatever the call and whatever is stored, an admin request presents a
   * non-empty key, and it is the default key exactly when no usable key is stored.
   */
  lemma {:induction false} EveryAdminCallPresentsAKey(c: Call, stored: Option<string>)
    ensures PresentedKey(Build(c, stored)).Some?
    ensures PresentedKey(Build(c, stored)).value != ""
    ensures (PresentedKey(Build(c, stored)) == Some(DefaultAdminKey))
            <==> (stored.None? || stored.value == "" || stored.value == DefaultAdminKey)
  {
    var h := Build(c, stored).headers;
    assert h == GetAdminHeaders(stored);
  }
}
