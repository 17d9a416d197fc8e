/**
 * The language-model client. A completion request is refused up front when its
 * estimated size exceeds the token budget; otherwise the primary provider's
 * models are tried in order, then the fallback provider's (when one is
 * configured), and the first non-empty answer is returned. A structured
 * completion adds the schema instructions to the conversation, strips code
 * fences from the answer and decodes it, retrying a bounded number of times.
 * The providers' replies and the decoder are inputs.
 */
module LlmClient {
  import opened Wrappers
  import Strings
  import Seqs

  datatype Message = Message(role: string, content: string)

  datatype Provider = Primary | Fallback

  /** What one API call gave: an exception, or a response whose content may be missing or empty. */
  datatype ApiOutcome = Raised(error: string) | Response(content: Option<string>)

  /** The failures `get_completion` raises. */
  datatype CompletionError = InsufficientCredits | AllModelsFailed(lastError: Option<string>)

  const AffordableTokens: int := 10000

  function ContentLengths(ms: seq<Message>): (s: seq<int>)
    ensures |s| == |ms| && forall i :: 0 <= i < |ms| ==> s[i] == |ms[i].content|
  {
    seq(|ms|, i requires 0 <= i < |ms| => |ms[i].content|)
  }

  /** `sum(len(m["content"]) for m in messages) // 3`. */
  function EstimatedPromptTokens(ms: seq<Message>): int {
    Seqs.Sum(ContentLengths(ms)) / 3
  }

  /** The pre-flight check: refused iff the estimate plus `max_tokens` exceeds the budget. */
  predicate PreflightRefuses(ms: seq<Message>, maxTokens: int) {
    EstimatedPromptTokens(ms) + maxTokens > AffordableTokens
  }

  /** An outcome that `_execute_call` returns: content present and non-empty. */
  predicate Answered(o: ApiOutcome) {
    o.Response? && o.content.Some? && o.content.value != ""
  }

  /** The error an unsuccessful call leaves in `last_error`. */
  function FailureOf(o: ApiOutcome): string {
    if o.Raised? then o.error else "Empty response from LLM"
  }

  /** The calls of one provider's loop: each model of the list, in order, on that provider. */
  function Tagged(p: Provider, models: seq<string>): (cs: seq<(Provider, string)>)
    ensures |cs| == |models| && forall i :: 0 <= i < |models| ==> cs[i] == (p, models[i])
  {
    seq(|models|, i requires 0 <= i < |models| => (p, models[i]))
  }

  /** The calls to try, in order: the primary models, then the fallback models if there is a fallback client. */
  function Plan(primary: seq<string>, fallback: seq<string>, hasFallback: bool): (cs: seq<(Provider, string)>)
    ensures |cs| == |primary| + (if hasFallback then |fallback| else 0)
    ensures forall i :: 0 <= i < |primary| ==> cs[i] == (Primary, primary[i])
    ensures hasFallback ==> forall i :: 0 <= i < |fallback| ==> cs[|primary| + i] == (Fallback, fallback[i])
  {
    Tagged(Primary, primary) + if hasFallback then Tagged(Fallback, fallback) else []
  }

  /**
   * Trying the calls `cs` in order, starting with `count` calls counted and
   * `last` as the last error: the answer of the first call that answered, or the
   * last error once all have failed, with every response counted.
   */
  function TryAll(cs: seq<(Provider, string)>, api: (Provider, string) -> ApiOutcome, count: nat, last: Option<string>)
    : (Result<string, Option<string>>, nat)
  {
    if cs == [] then (Err(last), count)
    else
      var o := api(cs[0].0, cs[0].1);
      var c := count + (if o.Response? then 1 else 0);
      if Answered(o) then (Ok(o.content.value), c) else TryAll(cs[1..], api, c, Some(FailureOf(o)))
  }

  /**
   * Trying `a` and then `b` is trying `a`, and, when nothing in `a` answered,
   * going on with `b` from the count and the last error `a` left.
   */
  lemma {:induction false} TryAllAppend(a: seq<(Provider, string)>, b: seq<(Provider, string)>,
                                        api: (Provider, string) -> ApiOutcome, count: nat, last: Option<string>)
    ensures var first := TryAll(a, api, count, last);
      TryAll(a + b, api, count, last) == if first.0.Ok? then first else TryAll(b, api, first.1, first.0.error)
  {
    if a == [] {
      assert a + b == b;
    } else {
      var o := api(a[0].0, a[0].1);
      assert (a + b)[0] == a[0];
      assert (a + b)[1..] == a[1..] + b;
      TryAllAppend(a[1..], b, api, count + (if o.Response? then 1 else 0), Some(FailureOf(o)));
    }
  }

  /** The number of calls among `cs` that got a response, empty or not. */
  function Responses(cs: seq<(Provider, string)>, api: (Provider, string) -> ApiOutcome): nat {
    if cs == [] then 0 else (if api(cs[0].0, cs[0].1).Response? then 1 else 0) + Responses(cs[1..], api)
  }

  /**
   * The first call that answers decides: its content is returned, and exactly
   * the responses up to and including it are counted. When none answers, the
   * error of the last call is reported and every response is counted.
   */
  lemma {:induction false} TryAllFirstAnswer(cs: seq<(Provider, string)>, api: (Provider, string) -> ApiOutcome,
                                             count: nat, last: Option<string>, i: int)
    requires 0 <= i < |cs| && Answered(api(cs[i].0, cs[i].1))
    requires forall j :: 0 <= j < i ==> !Answered(api(cs[j].0, cs[j].1))
    ensures TryAll(cs, api, count, last) == (Ok(api(cs[i].0, cs[i].1).content.value), count + Responses(cs[..i + 1], api))
  {
    if i > 0 {
      var o := api(cs[0].0, cs[0].1);
      TryAllFirstAnswer(cs[1..], api, count + (if o.Response? then 1 else 0), Some(FailureOf(o)), i - 1);
      assert cs[..i + 1][1..] == cs[1..][..i];
    }
  }

  lemma {:induction false} TryAllNoAnswer(cs: seq<(Provider, string)>, api: (Provider, string) -> ApiOutcome,
                                          count: nat, last: Option<string>)
    requires forall j :: 0 <= j < |cs| ==> !Answered(api(cs[j].0, cs[j].1))
    ensures TryAll(cs, api, count, last) ==
      (Err(if cs == [] then last else Some(FailureOf(api(cs[|cs| - 1].0, cs[|cs| - 1].1)))), count + Responses(cs, api))
  {
    if cs != [] {
      var o := api(cs[0].0, cs[0].1);
      TryAllNoAnswer(cs[1..], api, count + (if o.Response? then 1 else 0), Some(FailureOf(o)));
    }
  }

  /** The exception message once every model has failed. */
  function AllFailedMessage(last: Option<string>): string {
    "All models (Primary & " + "Fallback) failed. Last " + "error: " + (if last.Some? then last.value else "None")
  }

  /** What `get_completion` answers, apart from the call counter. */
  function CompletionOutcome(ms: seq<Message>, primary: seq<string>, fallback: seq<string>, hasFallback: bool,
                             maxTokens: int, api: (Provider, string) -> ApiOutcome): Result<string, CompletionError>
  {
    if PreflightRefuses(ms, maxTokens) then Err(InsufficientCredits)
    else
      var outcome := TryAll(Plan(primary, fallback, hasFallback), api, 0, None).0;
      if outcome.Ok? then Ok(outcome.value) else Err(AllModelsFailed(outcome.error))
  }

  /** The responses one `get_completion` call receives: none when the pre-flight refuses. */
  function CompletionCalls(ms: seq<Message>, primary: seq<string>, fallback: seq<string>, hasFallback: bool,
                           maxTokens: int, api: (Provider, string) -> ApiOutcome): nat
  {
    if PreflightRefuses(ms, maxTokens) then 0 else TryAll(Plan(primary, fallback, hasFallback), api, 0, None).1
  }

  /** The answer of a try does not depend on how many calls were counted before it. */
  lemma {:induction false} TryAllCountFree(cs: seq<(Provider, string)>, api: (Provider, string) -> ApiOutcome,
                                           c1: nat, c2: nat, last: Option<string>)
    ensures TryAll(cs, api, c1, last).0 == TryAll(cs, api, c2, last).0
    ensures TryAll(cs, api, c1, last).1 - c1 == TryAll(cs, api, c2, last).1 - c2
  {
    if cs != [] {
      var o := api(cs[0].0, cs[0].1);
      var d := if o.Response? then 1 else 0;
      TryAllCountFree(cs[1..], api, c1 + d, c2 + d, Some(FailureOf(o)));
    }
  }

  /** Removes a leading "```json" or "```" fence and a trailing "```" fence. */
  function Unfence(c0: string): string {
    var c1 := if Strings.StartsWith(c0, "```json") then c0[7..] else c0;
    var c2 := if Strings.StartsWith(c1, "```") then c1[3..] else c1;
    if Strings.EndsWith(c2, "```") then c2[..|c2| - 3] else c2
  }

  /**
   * The cleaning applied to a structured answer before it is decoded; the
   * cleaned answer never has whitespace at either end.
   */
  function StripFences(raw: string): (r: string)
    ensures Strings.Strip(r) == r
  {
    Strings.StripIdempotent(Unfence(Strings.Strip(raw)));
    Strings.Strip(Unfence(Strings.Strip(raw)))
  }

  /** A body fit to be fenced: no outer whitespace, and no backtick at either end. */
  predicate PlainBody(x: string) {
    x != [] && Strings.Strip(x) == x && x[0] != '`' && x[|x| - 1] != '`'
  }

  /** A fenced JSON answer gives back exactly its body. */
  lemma {:induction false} StripJsonFence(x: string)
    requires PlainBody(x)
    ensures StripFences("```json" + x + "```") == x
  {
    var raw := "```json" + x + "```";
    StripOfEnds(raw);
    assert Strings.StartsWith(raw, "```json");
    var c1 := raw[7..];
    assert c1 == x + "```";
    assert !Strings.StartsWith(c1, "```") by {
      assert c1[0] == x[0];
    }
    assert Strings.EndsWith(c1, "```");
    assert c1[..|c1| - 3] == x;
  }

  /**
   * An answer fenced with a bare fence gives back exactly its body, unless the
   * body itself begins with "json", which the stripper takes for a language tag.
   */
  lemma {:induction false} StripBareFence(x: string)
    requires PlainBody(x) && !Strings.StartsWith(x, "json")
    ensures StripFences("```" + x + "```") == x
  {
    var raw := "```" + x + "```";
    StripOfEnds(raw);
    UnfenceBare(x, raw);
  }

  lemma UnfenceBare(x: string, raw: string)
    requires x != [] && x[0] != '`' && x[|x| - 1] != '`' && !Strings.StartsWith(x, "json") && raw == "```" + x + "```"
    ensures Unfence(raw) == x
  {
    NoJsonTag(x, raw);
    var c2 := raw[3..];
    assert c2 == x + "```";
    assert Strings.EndsWith(c2, "```");
    assert c2[..|c2| - 3] == x;
  }

  lemma NoJsonTag(x: string, raw: string)
    requires x != [] && x[0] != '`' && !Strings.StartsWith(x, "json") && raw == "```" + x + "```"
    ensures !Strings.StartsWith(raw, "```json")
  {
    if |x| >= 4 {
      assert raw[3..7] == x[..4];
    } else {
      assert raw[3 + |x|] == '`';
    }
  }

  /** An unfenced answer is only stripped. */
  lemma {:induction false} StripNoFence(x: string)
    requires PlainBody(x)
    ensures StripFences(x) == x
  {
    assert !Strings.StartsWith(x, "```json") && !Strings.StartsWith(x, "```") by {
      if |x| >= 3 {
        assert x[0] != '`';
      }
    }
    assert !Strings.EndsWith(x, "```") by {
      if |x| >= 3 {
        assert x[|x| - 1] == x[|x| - 3..][2];
      }
    }
  }

  /** A string with a non-space at each end is its own strip. */
  lemma StripOfEnds(s: string)
    requires s != [] && !Strings.IsSpace(s[0]) && !Strings.IsSpace(s[|s| - 1])
    ensures Strings.Strip(s) == s
  {
    Strings.StripIsInfix(s);
  }

  /**
   * The schema instructions go at the end of the first message when it is a
   * system message, separated by a blank line, and otherwise into a new system
   * message in front; nothing else changes.
   */
  function AttachSchema(ms: seq<Message>, schemaPrompt: string): (r: seq<Message>)
    ensures r != [] && r[0].role == "system"
    ensures ms != [] && ms[0].role == "system" ==>
      |r| == |ms| && r[1..] == ms[1..] && r[0].content == ms[0].content + "\n\n" + schemaPrompt
    ensures !(ms != [] && ms[0].role == "system") ==>
      r == [Message("system", schemaPrompt)] + ms
  {
    if ms != [] && ms[0].role == "system" then
      ms[0 := Message("system", ms[0].content + "\n\n" + schemaPrompt)]
    else [Message("system", schemaPrompt)] + ms
  }

  /** The decoder's failures: unparsable JSON, or JSON the response model refuses. */
  datatype DecodeError = JsonError | Invalid(message: string)

  /** The exceptions a structured completion raises. */
  datatype StructuredError = Completion(error: CompletionError)
                           | Unparsable(attempts: int, raw: string) | Rejected(message: string) | NoAttempts

  /**
   * One attempt of a structured completion: what the completion gave, cleaned
   * and decoded. An unparsable answer is reported with its first 200 characters.
   */
  function AttemptOutcome<T>(enhanced: seq<Message>, primary: seq<string>, fallback: seq<string>, hasFallback: bool,
                             maxRetries: int, api: (Provider, string) -> ApiOutcome,
                             decode: string -> Result<T, DecodeError>): (r: Result<T, StructuredError>)
    ensures r != Err(NoAttempts)
  {
    var reply := CompletionOutcome(enhanced, primary, fallback, hasFallback, 800, api);
    if reply.Err? then Err(Completion(reply.error))
    else
      var decoded := decode(StripFences(reply.value));
      if decoded.Ok? then Ok(decoded.value)
      else if decoded.error.JsonError? then Err(Unparsable(maxRetries, Seqs.PyPrefix(reply.value, 200)))
      else Err(Rejected(decoded.error.message))
  }

  /**
   * The retry loop from attempt `k` on, where attempt `j` has outcome
   * `outcome(j)`: the outcome of the last attempt made and the number of
   * attempts made, stopping at the first decoded value or after attempt
   * `maxRetries`.
   */
  function Retries<T>(outcome: nat -> Result<T, StructuredError>, maxRetries: int, k: nat): (Result<T, StructuredError>, nat)
    requires k < maxRetries
    decreases maxRetries - k
  {
    if outcome(k).Ok? || k + 1 == maxRetries then (outcome(k), k + 1)
    else Retries(outcome, maxRetries, k + 1)
  }

  /**
   * The retry loop makes between one and `maxRetries` attempts; every attempt
   * before the last one failed; the loop reports the last attempt's outcome, and
   * it ends in an error only after using up all its attempts.
   */
  lemma {:induction false} RetriesFacts<T>(outcome: nat -> Result<T, StructuredError>, maxRetries: int, k: nat)
    requires k < maxRetries
    ensures var (r, n) := Retries(outcome, maxRetries, k);
      && k < n <= maxRetries
      && r == outcome(n - 1)
      && (forall j :: k <= j < n - 1 ==> outcome(j).Err?)
      && (r.Err? ==> n == maxRetries)
    decreases maxRetries - k
  {
    if !(outcome(k).Ok? || k + 1 == maxRetries) {
      RetriesFacts(outcome, maxRetries, k + 1);
    }
  }

  /** One unfolding of the retry loop. */
  lemma RetriesStep<T>(outcome: nat -> Result<T, StructuredError>, maxRetries: int, k: nat)
    requires k < maxRetries
    ensures outcome(k).Ok? || k + 1 == maxRetries ==> Retries(outcome, maxRetries, k) == (outcome(k), k + 1)
    ensures !(outcome(k).Ok? || k + 1 == maxRetries) ==> Retries(outcome, maxRetries, k) == Retries(outcome, maxRetries, k + 1)
  {
  }

  /** The outcomes of the attempts of one structured completion. */
  function Attempts<T>(enhanced: seq<Message>, primary: seq<string>, fallback: seq<string>, hasFallback: bool,
                       maxRetries: int, api: nat -> (Provider, string) -> ApiOutcome,
                       decode: string -> Result<T, DecodeError>): nat -> Result<T, StructuredError>
  {
    (k: nat) => AttemptOutcome(enhanced, primary, fallback, hasFallback, maxRetries, api(k), decode)
  }

  /** The responses the first `n` attempts of the retry loop receive, attempt `k` asking `api(k)`. */
  function AttemptsCalls(enhanced: seq<Message>, primary: seq<string>, fallback: seq<string>, hasFallback: bool,
                         api: nat -> (Provider, string) -> ApiOutcome, n: nat): nat
  {
    if n == 0 then 0
    else
      AttemptsCalls(enhanced, primary, fallback, hasFallback, api, n - 1)
      + CompletionCalls(enhanced, primary, fallback, hasFallback, 800, api(n - 1))
  }

  lemma AttemptsCallsStep(enhanced: seq<Message>, primary: seq<string>, fallback: seq<string>, hasFallback: bool,
                          api: nat -> (Provider, string) -> ApiOutcome, n: nat)
    ensures AttemptsCalls(enhanced, primary, fallback, hasFallback, api, n + 1)
      == AttemptsCalls(enhanced, primary, fallback, hasFallback, api, n) + CompletionCalls(enhanced, primary, fallback, hasFallback, 800, api(n))
  {
  }

  class Client {
    /** The number of API responses received. */
    var callCount: nat
    const hasFallback: bool

    constructor (hasFallback: bool)
      ensures callCount == 0 && this.hasFallback == hasFallback
    {
      callCount := 0;
      this.hasFallback := hasFallback;
    }

    /**
     * `get_completion`. A refused pre-flight touches nothing. Otherwise the
     * outcome is that of trying the plan in order, and the counter grows by the
     * responses received on the way.
     */
    method GetCompletion(ms: seq<Message>, primary: seq<string>, fallback: seq<string>, maxTokens: int,
                         api: (Provider, string) -> ApiOutcome)
      returns (r: Result<string, CompletionError>)
      modifies this
      ensures r == CompletionOutcome(ms, primary, fallback, hasFallback, maxTokens, api)
      ensures callCount == old(callCount) + CompletionCalls(ms, primary, fallback, hasFallback, maxTokens, api)
      ensures PreflightRefuses(ms, maxTokens) ==> callCount == old(callCount)
      ensures !PreflightRefuses(ms, maxTokens) ==>
        callCount == TryAll(Plan(primary, fallback, hasFallback), api, old(callCount), None).1
    {
      ghost var plan := Plan(primary, fallback, hasFallback);
      TryAllCountFree(plan, api, 0, callCount, None);
      if EstimatedPromptTokens(ms) + maxTokens > AffordableTokens {
        return Err(InsufficientCredits);
      }
      ghost var start := callCount;
      ghost var fbPlan := if hasFallback then Tagged(Fallback, fallback) else [];
      TryAllAppend(Tagged(Primary, primary), fbPlan, api, start, None);
      var first := TryModels(Primary, primary, api, None);
      if first.Ok? {
        return Ok(first.value);
      }
      var last := first.error;
      if hasFallback {
        var second := TryModels(Fallback, fallback, api, last);
        if second.Ok? {
          return Ok(second.value);
        }
        last := second.error;
      }
      r := Err(AllModelsFailed(last));
    }

    /**
     * One provider's loop of `get_completion`: the models in order until one
     * answers; the last error is kept across models, and every response is
     * counted.
     */
    method TryModels(p: Provider, models: seq<string>, api: (Provider, string) -> ApiOutcome, last0: Option<string>)
      returns (r: Result<string, Option<string>>)
      modifies this
      ensures (r, callCount) == TryAll(Tagged(p, models), api, old(callCount), last0)
    {
      ghost var cs := Tagged(p, models);
      ghost var target := TryAll(cs, api, callCount, last0);
      var last := last0;
      var i := 0;
      while i < |models|
        invariant 0 <= i <= |models|
        invariant TryAll(cs[i..], api, callCount, last) == target
      {
        assert cs[i] == (p, models[i]);
        var outcome := ExecuteCall(p, models[i], api);
        if outcome.Ok? {
          return Ok(outcome.value);
        }
        last := Some(outcome.error);
        assert cs[i..][1..] == cs[i + 1..];
        i := i + 1;
      }
      assert cs[i..] == [];
      r := Err(last);
    }

    /** `_execute_call`: every response is counted, and only a non-empty one is returned. */
    method ExecuteCall(p: Provider, model: string, api: (Provider, string) -> ApiOutcome)
      returns (r: Result<string, string>)
      modifies this
      ensures var o := api(p, model);
        && callCount == old(callCount) + (if o.Response? then 1 else 0)
        && (r.Ok? <==> Answered(o))
        && (r.Ok? ==> r.value == o.content.value)
        && (r.Err? ==> r.error == FailureOf(o))
    {
      var o := api(p, model);
      if o.Raised? {
        return Err(o.error);
      }
      callCount := callCount + 1;
      if o.content.Some? && o.content.value != "" {
        return Ok(o.content.value);
      }
      return Err("Empty response from LLM");
    }

    /** The body of one pass of the retry loop: ask, clean, decode. */
    method Attempt<T>(enhanced: seq<Message>, primary: seq<string>, fallback: seq<string>, maxRetries: int,
                      api: nat -> (Provider, string) -> ApiOutcome, decode: string -> Result<T, DecodeError>, k: nat)
      returns (r: Result<T, StructuredError>)
      modifies this
      ensures r == Attempts(enhanced, primary, fallback, hasFallback, maxRetries, api, decode)(k)
      ensures callCount == old(callCount) + CompletionCalls(enhanced, primary, fallback, hasFallback, 800, api(k))
    {
      var reply := GetCompletion(enhanced, primary, fallback, 800, api(k));
      if reply.Err? {
        return Err(Completion(reply.error));
      }
      var decoded := decode(StripFences(reply.value));
      if decoded.Ok? {
        return Ok(decoded.value);
      }
      if decoded.error.JsonError? {
        return Err(Unparsable(maxRetries, Seqs.PyPrefix(reply.value, 200)));
      }
      return Err(Rejected(decoded.error.message));
    }

    /**
     * `get_structured_completion`: the attempts the model `Retries` describes,
     * and the loop's unreachable fall-through error when no attempt is allowed.
     */
    method GetStructuredCompletion<T>(ms: seq<Message>, schemaPrompt: string, primary: seq<string>,
                                      fallback: seq<string>, maxRetries: int,
                                      api: nat -> (Provider, string) -> ApiOutcome,
                                      decode: string -> Result<T, DecodeError>)
      returns (r: Result<T, StructuredError>, attempts: nat)
      modifies this
      ensures maxRetries <= 0 ==> r == Err(NoAttempts) && attempts == 0
      ensures maxRetries > 0 ==>
        (r, attempts) == Retries(Attempts(AttachSchema(ms, schemaPrompt), primary, fallback, hasFallback,
                                          maxRetries, api, decode), maxRetries, 0)
      ensures callCount == old(callCount) + AttemptsCalls(AttachSchema(ms, schemaPrompt), primary, fallback,
                                                          hasFallback, api, attempts)
    {
      var enhanced := AttachSchema(ms, schemaPrompt);
      if maxRetries <= 0 {
        return Err(NoAttempts), 0;
      }
      ghost var outcomes := Attempts(enhanced, primary, fallback, hasFallback, maxRetries, api, decode);
      ghost var target := Retries(outcomes, maxRetries, 0);
      attempts := 0;
      while true
        invariant 0 <= attempts < maxRetries
        invariant Retries(outcomes, maxRetries, attempts) == target
        invariant callCount == old(callCount) + AttemptsCalls(enhanced, primary, fallback, hasFallback, api, attempts)
        decreases maxRetries - attempts
      {
        var outcome := Attempt(enhanced, primary, fallback, maxRetries, api, decode, attempts);
        RetriesStep(outcomes, maxRetries, attempts);
        AttemptsCallsStep(enhanced, primary, fallback, hasFallback, api, attempts);
        attempts := attempts + 1;
        if outcome.Ok? || attempts == maxRetries {
          return outcome, attempts;
        }
      }
    }
  }
}
