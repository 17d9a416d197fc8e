/**
 * The second stage of the offline data pipeline: for every risky sample a
 * generator drafts safe rewrites and a validator judges each draft; the valid
 * drafts of the first batch that has any are saved as golden rules. A sample
 * gets at most three batches; after a batch in which every draft failed, the
 * next request carries a fixed piece of feedback. The generator (a language
 * model) and the validator (an NLI model) are inputs; the generator may answer
 * differently on each attempt, so it also receives the attempt number.
 */
module PipelineRun {
  import Strings

  const MaxRetries: nat := 3

  /**
   * The feedback a request carries: none at first, and a fixed reproach after a
   * batch in which every draft failed. These are the only two values the loop's
   * `feedback` variable takes; `Text` gives the wording sent.
   */
  datatype Feedback = NoFeedback | RetryFeedback

  /** The text of each feedback: empty exactly for `NoFeedback`. */
  function Text(f: Feedback): (r: string)
    ensures |r| == 0 <==> f == NoFeedback
  {
    match f
    case NoFeedback => ""
    case RetryFeedback =>
      "Your previous attempts " + "ALL failed safety " + "validation. "
      + "They did not " + "sufficiently contradict " + "the risk profile. "
      + "Ensure you explicitly " + "state the safe/mutual " + "terms (e.g., 'Either " + "party may...', " + "'Liability is capped " + "at...')."
  }

  datatype Sample = Sample(category: string, riskyText: string)

  /** One saved record of `verified_pairs`. */
  datatype GoldenRule = GoldenRule(
    category: string, riskyOrigin: string, safeFix: string, validationMethod: string,
    style: string, attemptsNeeded: nat)

  /** One generation attempt: the feedback it was asked with and the drafts it got back. */
  datatype Attempt = Attempt(feedback: Feedback, drafts: seq<string>)

  /** What the retry loop does for one sample: its attempts in order, and the rules it saves. */
  datatype Outcome = Outcome(attempts: seq<Attempt>, saved: seq<GoldenRule>)

  /**
   * `generate_safe_variations(risky_text, category, feedback)` on a given attempt;
   * it is told which feedback to send, whose wording is `Text`.
   */
  type Generator = (Sample, Feedback, nat) -> seq<string>
  /** `validate_safety(draft, category)`. */
  type Validator = (string, string) -> bool

  /** `f"Variation-{idx+1}"`. */
  function Style(idx: nat): string {
    "Variation-" + Strings.NatToString(idx + 1)
  }

  function Rule(s: Sample, drafts: seq<string>, idx: nat, tryNo: nat): GoldenRule
    requires idx < |drafts|
  {
    GoldenRule(s.category, s.riskyText, drafts[idx], "DeBERTa-NLI", Style(idx), tryNo + 1)
  }

  /** The records the validation loop saves from the first `n` drafts of attempt `tryNo`. */
  function BatchRules(s: Sample, drafts: seq<string>, valid: Validator, tryNo: nat, n: nat): (r: seq<GoldenRule>)
    requires n <= |drafts|
    ensures |r| <= n
  {
    if n == 0 then []
    else BatchRules(s, drafts, valid, tryNo, n - 1)
         + if valid(drafts[n - 1], s.category) then [Rule(s, drafts, n - 1, tryNo)] else []
  }

  /**
   * Each saved record comes from a valid draft: it carries that draft's text, its
   * position as the style, and the attempt number counted from one.
   */
  lemma {:induction false} BatchRulesSound(s: Sample, drafts: seq<string>, valid: Validator, tryNo: nat, n: nat)
    requires n <= |drafts|
    ensures forall r :: r in BatchRules(s, drafts, valid, tryNo, n) ==>
      exists idx :: 0 <= idx < n && valid(drafts[idx], s.category) && r == Rule(s, drafts, idx, tryNo)
  {
    if n > 0 {
      BatchRulesSound(s, drafts, valid, tryNo, n - 1);
    }
  }

  /** Every valid draft among the first `n` is saved. */
  lemma {:induction false} BatchRulesComplete(s: Sample, drafts: seq<string>, valid: Validator, tryNo: nat, n: nat)
    requires n <= |drafts|
    ensures forall idx :: 0 <= idx < n && valid(drafts[idx], s.category) ==>
      Rule(s, drafts, idx, tryNo) in BatchRules(s, drafts, valid, tryNo, n)
  {
    if n > 0 {
      BatchRulesComplete(s, drafts, valid, tryNo, n - 1);
    }
  }

  /** Nothing is saved exactly when none of the first `n` drafts is valid. */
  lemma BatchRulesEmpty(s: Sample, drafts: seq<string>, valid: Validator, tryNo: nat, n: nat)
    requires n <= |drafts|
    ensures BatchRules(s, drafts, valid, tryNo, n) == [] <==> forall idx :: 0 <= idx < n ==> !valid(drafts[idx], s.category)
  {
    BatchRulesSound(s, drafts, valid, tryNo, n);
    BatchRulesComplete(s, drafts, valid, tryNo, n);
  }

  /**
   * The retry loop from attempt `k` on, asking with feedback `fb`: an empty batch
   * uses up an attempt and keeps the feedback; a batch with a valid draft ends the
   * loop with its records; a batch without one uses up an attempt and sets the
   * feedback.
   */
  function Run(s: Sample, gen: Generator, valid: Validator, k: nat, fb: Feedback): (o: Outcome)
    decreases MaxRetries - k
  {
    if k >= MaxRetries then Outcome([], [])
    else
      var drafts := gen(s, fb, k);
      if drafts == [] then
        var rest := Run(s, gen, valid, k + 1, fb);
        Outcome([Attempt(fb, drafts)] + rest.attempts, rest.saved)
      else
        var batch := BatchRules(s, drafts, valid, k, |drafts|);
        if batch != [] then Outcome([Attempt(fb, drafts)], batch)
        else
          var rest := Run(s, gen, valid, k + 1, RetryFeedback);
          Outcome([Attempt(fb, drafts)] + rest.attempts, rest.saved)
  }

  /** The feedback the attempt after one that got `drafts` is asked with, when there is one. */
  function NextFeedback(drafts: seq<string>, fb: Feedback): Feedback {
    if drafts == [] then fb else RetryFeedback
  }

  /** One turn of the loop: the attempt made at `k`, and whether it ends the loop or hands over to `k + 1`. */
  lemma RunCases(s: Sample, gen: Generator, valid: Validator, k: nat, fb: Feedback)
    requires k < MaxRetries
    ensures var drafts := gen(s, fb, k);
      var o, rest := Run(s, gen, valid, k, fb), Run(s, gen, valid, k + 1, NextFeedback(drafts, fb));
      var batch := BatchRules(s, drafts, valid, k, |drafts|);
      && (drafts != [] && batch != [] ==> o == Outcome([Attempt(fb, drafts)], batch))
      && (drafts == [] || batch == [] ==> o == Outcome([Attempt(fb, drafts)] + rest.attempts, rest.saved))
  {
  }

  /** Some attempt before position `j` got a non-empty batch. */
  predicate HadBatchBefore(attempts: seq<Attempt>, j: int) {
    exists i :: 0 <= i < j && i < |attempts| && attempts[i].drafts != []
  }

  /**
   * Started at attempt `k`, the loop makes at least one and at most `3 - k`
   * attempts; with no attempt it saves nothing.
   */
  lemma {:induction false} RunAttemptCount(s: Sample, gen: Generator, valid: Validator, k: nat, fb: Feedback)
    requires k <= MaxRetries
    ensures var o := Run(s, gen, valid, k, fb);
      && |o.attempts| <= MaxRetries - k
      && (k < MaxRetries ==> |o.attempts| >= 1)
      && (o.attempts == [] ==> o.saved == [])
    decreases MaxRetries - k
  {
    if k < MaxRetries {
      var drafts := gen(s, fb, k);
      RunCases(s, gen, valid, k, fb);
      if drafts == [] || BatchRules(s, drafts, valid, k, |drafts|) == [] {
        RunAttemptCount(s, gen, valid, k + 1, NextFeedback(drafts, fb));
      }
    }
  }

  /** Each attempt's drafts are the generator's answer for its attempt number, counted from `k`, and feedback. */
  predicate DraftsFromGenerator(attempts: seq<Attempt>, s: Sample, gen: Generator, k: nat) {
    forall j :: 0 <= j < |attempts| ==> attempts[j].drafts == gen(s, attempts[j].feedback, k + j)
  }

  lemma DraftsFromGeneratorShift(attempts: seq<Attempt>, s: Sample, gen: Generator, k: nat, a: Attempt)
    requires DraftsFromGenerator(attempts, s, gen, k + 1)
    requires a.drafts == gen(s, a.feedback, k)
    ensures DraftsFromGenerator([a] + attempts, s, gen, k)
  {
    var all := [a] + attempts;
    forall j | 1 <= j < |all| ensures all[j].drafts == gen(s, all[j].feedback, k + j) {
      assert all[j] == attempts[j - 1];
    }
  }

  /** Each attempt's drafts are the generator's answer for its attempt number and feedback. */
  lemma {:induction false} RunDrafts(s: Sample, gen: Generator, valid: Validator, k: nat, fb: Feedback)
    requires k <= MaxRetries
    ensures DraftsFromGenerator(Run(s, gen, valid, k, fb).attempts, s, gen, k)
    decreases MaxRetries - k
  {
    if k < MaxRetries {
      var drafts := gen(s, fb, k);
      RunCases(s, gen, valid, k, fb);
      if drafts == [] || BatchRules(s, drafts, valid, k, |drafts|) == [] {
        var next := NextFeedback(drafts, fb);
        RunDrafts(s, gen, valid, k + 1, next);
        DraftsFromGeneratorShift(Run(s, gen, valid, k + 1, next).attempts, s, gen, k, Attempt(fb, drafts));
      }
    }
  }

  /** The loop saves nothing only when it used every attempt. */
  lemma {:induction false} RunExhausts(s: Sample, gen: Generator, valid: Validator, k: nat, fb: Feedback)
    requires k <= MaxRetries
    ensures var o := Run(s, gen, valid, k, fb);
      o.saved == [] ==> |o.attempts| == MaxRetries - k
    decreases MaxRetries - k
  {
    if k < MaxRetries {
      var drafts := gen(s, fb, k);
      RunCases(s, gen, valid, k, fb);
      if drafts == [] || BatchRules(s, drafts, valid, k, |drafts|) == [] {
        RunExhausts(s, gen, valid, k + 1, NextFeedback(drafts, fb));
      }
    }
  }

  /** Every attempt but the last had no valid draft. */
  lemma {:induction false} RunEarlierAttemptsFailed(s: Sample, gen: Generator, valid: Validator, k: nat, fb: Feedback)
    requires k <= MaxRetries
    ensures EarlierAttemptsFailed(Run(s, gen, valid, k, fb).attempts, s, valid, k)
    decreases MaxRetries - k
  {
    if k < MaxRetries {
      var drafts := gen(s, fb, k);
      RunCases(s, gen, valid, k, fb);
      if drafts == [] || BatchRules(s, drafts, valid, k, |drafts|) == [] {
        var next := NextFeedback(drafts, fb);
        RunEarlierAttemptsFailed(s, gen, valid, k + 1, next);
        FailedShift(s, valid, k, Attempt(fb, drafts), Run(s, gen, valid, k + 1, next).attempts);
      }
    }
  }

  /** Every attempt but the last, numbered from `k`, had no valid draft. */
  predicate EarlierAttemptsFailed(attempts: seq<Attempt>, s: Sample, valid: Validator, k: nat) {
    forall j :: 0 <= j < |attempts| - 1 ==>
      BatchRules(s, attempts[j].drafts, valid, k + j, |attempts[j].drafts|) == []
  }

  /** An attempt without valid drafts, put in front of attempts that fail but for the last, keeps that property. */
  lemma FailedShift(s: Sample, valid: Validator, k: nat, a: Attempt, rest: seq<Attempt>)
    requires BatchRules(s, a.drafts, valid, k, |a.drafts|) == []
    requires EarlierAttemptsFailed(rest, s, valid, k + 1)
    ensures EarlierAttemptsFailed([a] + rest, s, valid, k)
  {
    var all := [a] + rest;
    forall j | 0 < j < |all| - 1
      ensures BatchRules(s, all[j].drafts, valid, k + j, |all[j].drafts|) == []
    {
      assert all[j] == rest[j - 1];
      assert k + j == k + 1 + (j - 1);
    }
  }

  /** The records an outcome saved are exactly the valid drafts of its last attempt, made at `k + |attempts| - 1`. */
  predicate SavesLastBatch(o: Outcome, s: Sample, valid: Validator, k: nat) {
    o.attempts != [] ==> var last := o.attempts[|o.attempts| - 1];
      o.saved == BatchRules(s, last.drafts, valid, k + |o.attempts| - 1, |last.drafts|)
  }

  /** An attempt without valid drafts, put in front of an outcome that saves its last batch, keeps that property. */
  lemma SavesLastBatchShift(s: Sample, valid: Validator, k: nat, a: Attempt, rest: Outcome)
    requires SavesLastBatch(rest, s, valid, k + 1)
    requires rest.attempts == [] ==> rest.saved == []
    requires BatchRules(s, a.drafts, valid, k, |a.drafts|) == []
    ensures SavesLastBatch(Outcome([a] + rest.attempts, rest.saved), s, valid, k)
  {
    var attempts := [a] + rest.attempts;
    if rest.attempts != [] {
      assert attempts[|attempts| - 1] == rest.attempts[|rest.attempts| - 1];
    }
  }

  /** The saved records are exactly the valid drafts of the last attempt. */
  lemma {:induction false} RunSavesLastBatch(s: Sample, gen: Generator, valid: Validator, k: nat, fb: Feedback)
    requires k <= MaxRetries
    ensures SavesLastBatch(Run(s, gen, valid, k, fb), s, valid, k)
    decreases MaxRetries - k
  {
    if k < MaxRetries {
      var drafts := gen(s, fb, k);
      RunCases(s, gen, valid, k, fb);
      if drafts == [] || BatchRules(s, drafts, valid, k, |drafts|) == [] {
        var next := NextFeedback(drafts, fb);
        RunSavesLastBatch(s, gen, valid, k + 1, next);
        RunAttemptCount(s, gen, valid, k + 1, next);
        SavesLastBatchShift(s, valid, k, Attempt(fb, drafts), Run(s, gen, valid, k + 1, next));
      }
    }
  }

  /**
   * An attempt asks with feedback exactly when the loop started with feedback or
   * an earlier attempt got a non-empty batch (which, not being the last, had no
   * valid draft).
   */
  lemma {:induction false} RunFeedback(s: Sample, gen: Generator, valid: Validator, k: nat, fb: Feedback)
    requires k <= MaxRetries
    ensures FeedbackFollowsBatches(Run(s, gen, valid, k, fb).attempts, fb)
    decreases MaxRetries - k
  {
    if k < MaxRetries {
      var drafts := gen(s, fb, k);
      var next := NextFeedback(drafts, fb);
      RunCases(s, gen, valid, k, fb);
      if drafts != [] && BatchRules(s, drafts, valid, k, |drafts|) != [] {
        FeedbackShift(Attempt(fb, drafts), [], fb, next);
      } else {
        RunFeedback(s, gen, valid, k + 1, next);
        FeedbackShift(Attempt(fb, drafts), Run(s, gen, valid, k + 1, next).attempts, fb, next);
      }
    }
  }

  /** Attempt `j` asks with feedback exactly when the first did or an earlier attempt got a non-empty batch. */
  predicate FeedbackFollowsBatches(attempts: seq<Attempt>, fb: Feedback) {
    forall j :: 0 <= j < |attempts| ==> (attempts[j].feedback == RetryFeedback <==> fb == RetryFeedback || HadBatchBefore(attempts, j))
  }

  /** Putting one attempt in front of a run whose feedback follows the rule keeps the rule. */
  lemma FeedbackShift(a0: Attempt, rest: seq<Attempt>, fb: Feedback, next: Feedback)
    requires a0.feedback == fb
    requires next == if a0.drafts == [] then fb else RetryFeedback
    requires FeedbackFollowsBatches(rest, next)
    ensures FeedbackFollowsBatches([a0] + rest, fb)
  {
    var all := [a0] + rest;
    forall j | 0 < j < |all| ensures all[j].feedback == RetryFeedback <==> fb == RetryFeedback || HadBatchBefore(all, j) {
      assert all[j] == rest[j - 1];
      HadBatchShift(a0, rest, j - 1);
    }
  }

  /** A batch before position `j + 1` of `[a0] + rest` is `a0`'s or one before position `j` of `rest`. */
  lemma HadBatchShift(a0: Attempt, rest: seq<Attempt>, j: nat)
    requires j < |rest|
    ensures HadBatchBefore([a0] + rest, j + 1) <==> a0.drafts != [] || HadBatchBefore(rest, j)
  {
    var all := [a0] + rest;
    if HadBatchBefore(rest, j) {
      var i :| 0 <= i < j && i < |rest| && rest[i].drafts != [];
      assert all[i + 1] == rest[i];
    }
    if a0.drafts != [] {
      assert all[0].drafts != [];
    }
    if HadBatchBefore(all, j + 1) && a0.drafts == [] {
      var i :| 0 <= i < j + 1 && i < |all| && all[i].drafts != [];
      assert i > 0 && all[i] == rest[i - 1];
    }
  }

  /**
   * The retry loop of `main` for one sample. Returns the records it saves and the
   * number of attempts it made.
   */
  method ProcessSample(s: Sample, gen: Generator, valid: Validator) returns (saved: seq<GoldenRule>, tries: nat)
    ensures saved == Run(s, gen, valid, 0, NoFeedback).saved
    ensures tries == |Run(s, gen, valid, 0, NoFeedback).attempts|
    ensures 1 <= tries <= MaxRetries
    ensures forall r :: r in saved ==> r.attemptsNeeded == tries && 1 <= r.attemptsNeeded <= MaxRetries
  {
    var maxRetries := MaxRetries;
    var currentTry := 0;
    var feedback := NoFeedback;
    saved := [];
    ghost var target := Run(s, gen, valid, 0, NoFeedback);
    while currentTry < maxRetries
      invariant 0 <= currentTry <= maxRetries && saved == []
      invariant |target.attempts| == currentTry + |Run(s, gen, valid, currentTry, feedback).attempts|
      invariant target.saved == Run(s, gen, valid, currentTry, feedback).saved
      decreases maxRetries - currentTry
    {
      var drafts := gen(s, feedback, currentTry);
      if drafts == [] {
        currentTry := currentTry + 1;
        continue;
      }
      var batch := ValidateBatch(s, drafts, valid, currentTry);
      var validBatchCount := |batch|;
      saved := batch;
      if validBatchCount > 0 {
        tries := currentTry + 1;
        BatchRulesSound(s, drafts, valid, currentTry, |drafts|);
        return;
      } else {
        feedback := RetryFeedback;
        currentTry := currentTry + 1;
      }
    }
    tries := currentTry;
  }

  /** The validation loop of one attempt: a record for each valid draft, in draft order. */
  method ValidateBatch(s: Sample, drafts: seq<string>, valid: Validator, tryNo: nat) returns (batch: seq<GoldenRule>)
    ensures batch == BatchRules(s, drafts, valid, tryNo, |drafts|)
  {
    batch := [];
    var idx := 0;
    while idx < |drafts|
      invariant 0 <= idx <= |drafts|
      invariant batch == BatchRules(s, drafts, valid, tryNo, idx)
    {
      if valid(drafts[idx], s.category) {
        batch := batch + [GoldenRule(s.category, s.riskyText, drafts[idx], "DeBERTa-NLI", Style(idx), tryNo + 1)];
      }
      idx := idx + 1;
    }
  }

  /** The records of every sample, in sample order. */
  function AllRules(samples: seq<Sample>, gen: Generator, valid: Validator): seq<GoldenRule> {
    if samples == [] then [] else AllRules(samples[..|samples| - 1], gen, valid) + Run(samples[|samples| - 1], gen, valid, 0, NoFeedback).saved
  }

  /** `main`: every sample goes through the retry loop; the saved records are collected. */
  method BuildGoldenRules(samples: seq<Sample>, gen: Generator, valid: Validator) returns (verifiedPairs: seq<GoldenRule>)
    ensures verifiedPairs == AllRules(samples, gen, valid)
    ensures forall r :: r in verifiedPairs ==> 1 <= r.attemptsNeeded <= MaxRetries
  {
    verifiedPairs := [];
    var i := 0;
    while i < |samples|
      invariant 0 <= i <= |samples|
      invariant verifiedPairs == AllRules(samples[..i], gen, valid)
      invariant forall r :: r in verifiedPairs ==> 1 <= r.attemptsNeeded <= MaxRetries
    {
      var saved, _ := ProcessSample(samples[i], gen, valid);
      verifiedPairs := verifiedPairs + saved;
      assert samples[..i + 1][..i] == samples[..i];
      i := i + 1;
    }
    assert samples[..i] == samples;
  }
}
