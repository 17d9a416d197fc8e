/**
 * Document-level metadata read off a contract's text: the two parties and the
 * effective date from the header, the money amounts mentioned anywhere, and a
 * contract type from keywords in the opening text. The regular-expression
 * searches are inputs: `findAll(p, header)` is what pattern `p` finds (one
 * sequence of captured groups per match), `search(p, header)` the first
 * captured group of pattern `p`, and the amounts are the matches of the amount
 * pattern in match order. What is done with those matches is modelled exactly.
 */
module MetadataExtractor {
  import opened Wrappers
  import Strings
  import Seqs
  import opened Models

  /** Parties and the effective date are looked for in the first 2000 characters... */
  const HeaderLength: nat := 2000
  /** ...the contract type in the first 3000. */
  const ClassifyLength: nat := 3000
  /** Each of the two header searches tries three patterns, in order. */
  const PatternCount: nat := 3
  const MaxAmounts: nat := 5

  // ------------------------------------------------------------------ parties

  /** A stripped party name is kept when it has 4 to 99 characters. */
  predicate PlausibleParty(p: string) {
    3 < |p| < 100
  }

  /**
   * The party names one pattern yields: the groups of its first two matches,
   * stripped, in order, keeping only the plausible ones.
   */
  function PatternParties(matches: seq<seq<string>>): (r: seq<string>)
    ensures forall i :: 0 <= i < |r| ==> PlausibleParty(r[i])
    ensures matches == [] ==> r == []
  {
    Seqs.Filter(Seqs.Map(Seqs.Concat(Seqs.PyPrefix(matches, 2)), Strings.Strip), PlausibleParty)
  }

  /**
   * What one pattern contributes, from its matches: the first two plausible names,
   * when it yields two, and otherwise nothing.
   */
  function PatternAttempt(matches: seq<seq<string>>): (r: Option<seq<string>>)
    ensures var parties := PatternParties(matches);
      && (r.Some? <==> |parties| >= 2)
      && (r.Some? ==> r.value == parties[..2] && |r.value| == 2 && PlausibleParty(r.value[0]) && PlausibleParty(r.value[1]))
  {
    var parties := PatternParties(matches);
    if matches != [] && |parties| >= 2 then Some(parties[..2]) else None
  }

  /** The three patterns' contributions, in order. */
  function PartiesAttempts(header: string, findAll: (nat, string) -> seq<seq<string>>): nat -> Option<seq<string>> {
    (p: nat) => PatternAttempt(findAll(p, header))
  }

  /** The first pattern that yields two plausible names decides the parties. */
  function PartiesFound(header: string, findAll: (nat, string) -> seq<seq<string>>): Option<seq<string>> {
    FirstSome(PartiesAttempts(header, findAll), 0, PatternCount)
  }

  /** A result found is what the first contributing pattern contributes. */
  lemma PartiesFoundFirst(header: string, findAll: (nat, string) -> seq<seq<string>>)
    ensures var r, attempts := PartiesFound(header, findAll), PartiesAttempts(header, findAll);
      r.Some? ==> exists q: nat :: q < PatternCount && r == attempts(q) && forall k: nat :: k < q ==> attempts(k).None?
  {
    var attempts := PartiesAttempts(header, findAll);
    FirstSomeFacts(attempts, 0, PatternCount);
    if FirstSome(attempts, 0, PatternCount).Some? {
      var q: nat :| IsFirstSome(attempts, 0, PatternCount, q) && FirstSome(attempts, 0, PatternCount) == attempts(q);
    }
  }

  /** Nothing is found exactly when no pattern contributes. */
  lemma PartiesFoundNone(header: string, findAll: (nat, string) -> seq<seq<string>>)
    ensures var attempts := PartiesAttempts(header, findAll);
      PartiesFound(header, findAll).None? <==> forall q: nat :: q < PatternCount ==> attempts(q).None?
  {
    FirstSomeFacts(PartiesAttempts(header, findAll), 0, PatternCount);
  }

  /** The parties found are two plausible names. */
  lemma PartiesFoundPlausible(header: string, findAll: (nat, string) -> seq<seq<string>>)
    ensures var r := PartiesFound(header, findAll);
      r.Some? ==> |r.value| == 2 && PlausibleParty(r.value[0]) && PlausibleParty(r.value[1])
  {
    PartiesFoundFirst(header, findAll);
    var r := PartiesFound(header, findAll);
    if r.Some? {
      var attempts := PartiesAttempts(header, findAll);
      var q: nat :| q < PatternCount && r == attempts(q);
      assert attempts(q) == PatternAttempt(findAll(q, header));
    }
  }

  /** `_extract_parties`: the pattern loop with its early return. */
  method ExtractParties(text: string, findAll: (nat, string) -> seq<seq<string>>) returns (r: Option<seq<string>>)
    ensures r == PartiesFound(Seqs.PyPrefix(text, HeaderLength), findAll)
  {
    var header := Seqs.PyPrefix(text, HeaderLength);
    var p := 0;
    while p < PatternCount
      invariant 0 <= p <= PatternCount
      invariant FirstSome(PartiesAttempts(header, findAll), p, PatternCount) == PartiesFound(header, findAll)
    {
      var attempt := PatternAttempt(findAll(p, header));
      if attempt.Some? {
        return attempt;
      }
      p := p + 1;
    }
    return None;
  }

  // ------------------------------------------------------------------ effective date

  /** The characters `re.sub(r'[^\w\s,]', '', …)` keeps: word characters, whitespace and commas. */
  predicate KeptDateChar(c: char) {
    ('a' <= c <= 'z') || ('A' <= c <= 'Z') || ('0' <= c <= '9') || c == '_' || Strings.IsSpace(c) || c == ','
  }

  /** The captured date, stripped, cleared of other characters, and stripped again. */
  function CleanDate(group: string): (r: string)
    ensures forall i :: 0 <= i < |r| ==> KeptDateChar(r[i])
  {
    var kept := Seqs.Filter(Strings.Strip(group), KeptDateChar);
    Strings.StripWindow(kept);
    Strings.Strip(kept)
  }

  /** A cleaned date is accepted when it has 4 to 49 characters. */
  predicate PlausibleDate(d: string) {
    3 < |d| < 50
  }

  /** What one pattern contributes, from its capture: the cleaned date, when it is plausible. */
  function DateAttempt(m: Option<string>): (r: Option<string>)
    ensures r.Some? <==> m.Some? && PlausibleDate(CleanDate(m.value))
    ensures r.Some? ==>
      r.value == CleanDate(m.value) && PlausibleDate(r.value) && forall i :: 0 <= i < |r.value| ==> KeptDateChar(r.value[i])
  {
    if m.Some? && PlausibleDate(CleanDate(m.value)) then Some(CleanDate(m.value)) else None
  }

  /** The three patterns' contributions, in order. */
  function DateAttempts(header: string, search: (nat, string) -> Option<string>): nat -> Option<string> {
    (p: nat) => DateAttempt(search(p, header))
  }

  /** The first pattern whose cleaned capture is plausible gives the date. */
  function EffectiveDateFound(header: string, search: (nat, string) -> Option<string>): Option<string> {
    FirstSome(DateAttempts(header, search), 0, PatternCount)
  }

  /** A result found is what the first contributing pattern contributes. */
  lemma EffectiveDateFoundFirst(header: string, search: (nat, string) -> Option<string>)
    ensures var r, attempts := EffectiveDateFound(header, search), DateAttempts(header, search);
      r.Some? ==> exists q: nat :: q < PatternCount && r == attempts(q) && forall k: nat :: k < q ==> attempts(k).None?
  {
    var attempts := DateAttempts(header, search);
    FirstSomeFacts(attempts, 0, PatternCount);
    if FirstSome(attempts, 0, PatternCount).Some? {
      var q: nat :| IsFirstSome(attempts, 0, PatternCount, q) && FirstSome(attempts, 0, PatternCount) == attempts(q);
    }
  }

  /** Nothing is found exactly when no pattern contributes. */
  lemma EffectiveDateFoundNone(header: string, search: (nat, string) -> Option<string>)
    ensures var attempts := DateAttempts(header, search);
      EffectiveDateFound(header, search).None? <==> forall q: nat :: q < PatternCount ==> attempts(q).None?
  {
    FirstSomeFacts(DateAttempts(header, search), 0, PatternCount);
  }

  /** The date found has 4 to 49 characters, all word characters, whitespace or commas. */
  lemma EffectiveDateFoundPlausible(header: string, search: (nat, string) -> Option<string>)
    ensures var r := EffectiveDateFound(header, search);
      r.Some? ==> PlausibleDate(r.value) && forall i :: 0 <= i < |r.value| ==> KeptDateChar(r.value[i])
  {
    EffectiveDateFoundFirst(header, search);
    var r := EffectiveDateFound(header, search);
    if r.Some? {
      var attempts := DateAttempts(header, search);
      var q: nat :| q < PatternCount && r == attempts(q);
      assert attempts(q) == DateAttempt(search(q, header));
    }
  }

  /** `_extract_effective_date`: the pattern loop with its early return. */
  method ExtractEffectiveDate(text: string, search: (nat, string) -> Option<string>) returns (r: Option<string>)
    ensures r == EffectiveDateFound(Seqs.PyPrefix(text, HeaderLength), search)
  {
    var header := Seqs.PyPrefix(text, HeaderLength);
    var p := 0;
    while p < PatternCount
      invariant 0 <= p <= PatternCount
      invariant FirstSome(DateAttempts(header, search), p, PatternCount) == EffectiveDateFound(header, search)
    {
      var attempt := DateAttempt(search(p, header));
      if attempt.Some? {
        return attempt;
      }
      p := p + 1;
    }
    return None;
  }

  // ------------------------------------------------------------------ amounts

  /**
   * `list(set(matches))`, taken in first-occurrence order: the distinct
   * matches, with no repeats, nothing lost and nothing added.
   */
  function ExtractAmounts(matches: seq<string>): (r: seq<string>)
    ensures Seqs.Distinct(r)
    ensures forall a :: a in r <==> a in matches
  {
    var key := (a: string) => a;
    var r := Seqs.Dedup(matches, key);
    Seqs.DedupDistinct(matches, key);
    Seqs.DedupSubset(matches, key);
    Seqs.DedupPicks(matches, key);
    Seqs.KeySetMembers(matches, key);
    Seqs.KeySetMembers(r, key);
    assert forall a :: a in matches ==> key(a) in Seqs.KeySet(matches, key);
    r
  }

  // ------------------------------------------------------------------ contract type

  const NdaTerms: seq<string> := ["non-disclosure", "nda", "confidential information"]
  const ServiceTerms: seq<string> := ["service agreement", "statement of work", "sow"]
  const EmploymentTerms: seq<string> := ["employment agreement", "offer letter", "employee"]
  const MsaTerms: seq<string> := ["master service", "msa"]
  const PurchaseTerms: seq<string> := ["purchase order", "sales agreement"]

  /** Some term of the group occurs in the text. */
  ghost predicate Mentions(lower: string, terms: seq<string>) {
    exists t :: t in terms && Strings.Occurs(lower, t)
  }

  /**
   * `_classify_contract_type`: the first 3000 characters, lower-cased, are searched
   * group by group in a fixed priority, by plain substring search; the first group
   * with a hit names the type.
   */
  function ClassifyContractType(text: string): (r: string)
    ensures var lower := Strings.ToLower(Seqs.PyPrefix(text, ClassifyLength));
      && (r == "NDA" <==> Mentions(lower, NdaTerms))
      && (r == "Service Agreement" <==> (!Mentions(lower, NdaTerms) && Mentions(lower, ServiceTerms)))
      && (r == "Employment Contract" <==>
            (!Mentions(lower, NdaTerms) && !Mentions(lower, ServiceTerms) && Mentions(lower, EmploymentTerms)))
      && (r == "Master Service Agreement" <==>
            (!Mentions(lower, NdaTerms) && !Mentions(lower, ServiceTerms) && !Mentions(lower, EmploymentTerms)
             && Mentions(lower, MsaTerms)))
      && (r == "Purchase Agreement" <==>
            (!Mentions(lower, NdaTerms) && !Mentions(lower, ServiceTerms) && !Mentions(lower, EmploymentTerms)
             && !Mentions(lower, MsaTerms) && Mentions(lower, PurchaseTerms)))
      && (r == "General Contract" <==>
            (!Mentions(lower, NdaTerms) && !Mentions(lower, ServiceTerms) && !Mentions(lower, EmploymentTerms)
             && !Mentions(lower, MsaTerms) && !Mentions(lower, PurchaseTerms)))
  {
    var textLower := Strings.ToLower(Seqs.PyPrefix(text, ClassifyLength));
    if Strings.ContainsAny(textLower, NdaTerms) then "NDA"
    else if Strings.ContainsAny(textLower, ServiceTerms) then "Service Agreement"
    else if Strings.ContainsAny(textLower, EmploymentTerms) then "Employment Contract"
    else if Strings.ContainsAny(textLower, MsaTerms) then "Master Service Agreement"
    else if Strings.ContainsAny(textLower, PurchaseTerms) then "Purchase Agreement"
    else "General Contract"
  }

  /**
   * The test is a plain substring search, so "nda" anywhere in the opening text
   * makes a contract an NDA, inside any word ("agenda", "calendar", "standard").
   */
  lemma {:induction false} NdaInsideAnyWord(pre: string, post: string)
    requires |pre| + 3 <= ClassifyLength
    ensures ClassifyContractType(pre + "nda" + post) == "NDA"
  {
    var text := pre + "nda" + post;
    var lower := Strings.ToLower(Seqs.PyPrefix(text, ClassifyLength));
    assert lower[|pre|..|pre| + 3] == "nda";
    assert Strings.MatchAt(lower, "nda", |pre|);
    assert "nda" in NdaTerms;
  }

  // ------------------------------------------------------------------ extract

  /**
   * `extract`: the parties, the effective date and (at most five of) the amounts
   * overwrite the metadata only when something was found; the contract type is
   * filled in only when it was unset or empty; nothing else changes.
   */
  method Extract(text: string, meta: DocumentMetadata, findAll: (nat, string) -> seq<seq<string>>,
                 search: (nat, string) -> Option<string>, amountMatches: seq<string>)
    modifies meta
    ensures var found := PartiesFound(Seqs.PyPrefix(text, HeaderLength), findAll);
      meta.parties == if found.Some? then found else old(meta.parties)
    ensures var found := EffectiveDateFound(Seqs.PyPrefix(text, HeaderLength), search);
      meta.effectiveDate == if found.Some? && found.value != "" then found else old(meta.effectiveDate)
    ensures var amounts := ExtractAmounts(amountMatches);
      meta.mentionedAmounts == if amounts != [] then Some(Seqs.PyPrefix(amounts, MaxAmounts)) else old(meta.mentionedAmounts)
    ensures meta.contractType ==
      if old(meta.contractType).None? || old(meta.contractType) == Some("") then Some(ClassifyContractType(text))
      else old(meta.contractType)
    ensures meta.filename == old(meta.filename) && meta.fileSize == old(meta.fileSize) && meta.pageCount == old(meta.pageCount)
  {
    var parties := ExtractParties(text, findAll);
    if parties.Some? {
      meta.parties := parties;
    }
    var effectiveDate := ExtractEffectiveDate(text, search);
    if effectiveDate.Some? && effectiveDate.value != "" {
      meta.effectiveDate := effectiveDate;
    }
    var amounts := ExtractAmounts(amountMatches);
    if amounts != [] {
      meta.mentionedAmounts := Some(Seqs.PyPrefix(amounts, MaxAmounts));
    }
    if meta.contractType.None? || meta.contractType == Some("") {
      meta.contractType := Some(ClassifyContractType(text));
    }
  }

  /** After extraction, the stored parties and amounts keep the extractor's bounds. */
  lemma ExtractedFieldsBounded(text: string, findAll: (nat, string) -> seq<seq<string>>, amountMatches: seq<string>)
    ensures var found := PartiesFound(Seqs.PyPrefix(text, HeaderLength), findAll);
      found.Some? ==> |found.value| == 2 && PlausibleParty(found.value[0]) && PlausibleParty(found.value[1])
    ensures |Seqs.PyPrefix(ExtractAmounts(amountMatches), MaxAmounts)| <= MaxAmounts
    ensures Seqs.Distinct(Seqs.PyPrefix(ExtractAmounts(amountMatches), MaxAmounts))
  {
    var header := Seqs.PyPrefix(text, HeaderLength);
    PartiesFoundPlausible(header, findAll);
  }
}
