/**
 * Extraction of defined terms from a contract's text: the quoted-term matches of
 * two patterns become definitions, de-duplicated case-insensitively by term, and
 * the definitions can be turned into a lookup dictionary.
 *
 * The two regular expressions and the section-number search are oracles: the
 * matches arrive as `Match` values in text order, and the section search is a
 * function from the context before a match to the section number it finds.
 */
module DefinitionExtractor {
  import opened Wrappers
  import Strings
  import Seqs
  import opened Models

  /** One regex match: the raw term group, the raw definition group and `match.start()`. */
  datatype Match = Match(term: string, definition: string, start: nat)

  /** How far back before a match the section number is looked for. */
  const ContextLength: nat := 100

  /** `full_text[max(0, start - 100):start]`, with Python's clamping of the end. */
  function Context(text: string, start: nat): (r: string)
    ensures |r| <= ContextLength
    ensures start <= |text| ==> r == text[if start < ContextLength then 0 else start - ContextLength..start]
  {
    var e := if start < |text| then start else |text|;
    var b := if e < ContextLength then 0 else e - ContextLength;
    text[b..e]
  }

  /** A pattern-1 match: stripped groups, and the section found in the context. */
  function FirstPatternDefinition(text: string, m: Match, sectionSearch: string -> Option<string>): Definition {
    Definition(Strings.Strip(m.term), Strings.Strip(m.definition), sectionSearch(Context(text, m.start)))
  }

  /** A pattern-2 match: stripped groups; such a definition has no section. */
  function SecondPatternDefinition(m: Match): Definition {
    Definition(Strings.Strip(m.term), Strings.Strip(m.definition), None)
  }

  /** The pattern-1 definitions, one per match, in match order. */
  function FirstPatternDefinitions(text: string, ms: seq<Match>, sectionSearch: string -> Option<string>): seq<Definition> {
    Seqs.Map(ms, m => FirstPatternDefinition(text, m, sectionSearch))
  }

  /** The pattern-2 definitions, one per match, in match order. */
  function SecondPatternDefinitions(ms: seq<Match>): seq<Definition> {
    Seqs.Map(ms, SecondPatternDefinition)
  }

  /** All candidate definitions: every pattern-1 match before every pattern-2 match. */
  function Candidates(text: string, first: seq<Match>, second: seq<Match>, sectionSearch: string -> Option<string>): seq<Definition> {
    FirstPatternDefinitions(text, first, sectionSearch) + SecondPatternDefinitions(second)
  }

  /** `defn.term.lower()`, the key of both the de-duplication and the dictionary. */
  function TermKey(d: Definition): string {
    Strings.ToLower(d.term)
  }

  /**
   * `extract`: the candidates are collected pattern by pattern, then the first
   * definition of every lower-cased term is kept, in order.
   */
  method Extract(fullText: string, first: seq<Match>, second: seq<Match>, sectionSearch: string -> Option<string>)
    returns (unique: seq<Definition>)
    ensures unique == Seqs.Dedup(Candidates(fullText, first, second, sectionSearch), TermKey)
  {
    var definitions := CollectCandidates(fullText, first, second, sectionSearch);
    unique := DeduplicateTerms(definitions);
  }

  /** The two matching loops of `extract`: one definition per match, pattern 1 first. */
  method CollectCandidates(fullText: string, first: seq<Match>, second: seq<Match>, sectionSearch: string -> Option<string>)
    returns (definitions: seq<Definition>)
    ensures definitions == Candidates(fullText, first, second, sectionSearch)
  {
    definitions := [];
    var i := 0;
    while i < |first|
      invariant 0 <= i <= |first|
      invariant definitions == FirstPatternDefinitions(fullText, first[..i], sectionSearch)
    {
      Seqs.MapSnoc(first, i, m => FirstPatternDefinition(fullText, m, sectionSearch));
      definitions := definitions + [FirstPatternDefinition(fullText, first[i], sectionSearch)];
      i := i + 1;
    }
    assert first[..i] == first;
    var j := 0;
    while j < |second|
      invariant 0 <= j <= |second|
      invariant definitions == FirstPatternDefinitions(fullText, first, sectionSearch) + SecondPatternDefinitions(second[..j])
    {
      Seqs.MapSnoc(second, j, SecondPatternDefinition);
      definitions := definitions + [SecondPatternDefinition(second[j])];
      j := j + 1;
    }
    assert second[..j] == second;
  }

  /** The de-duplication loop of `extract`: the first definition of every lower-cased term. */
  method DeduplicateTerms(definitions: seq<Definition>) returns (unique: seq<Definition>)
    ensures unique == Seqs.Dedup(definitions, TermKey)
  {
    var seenTerms: set<string> := {};
    unique := [];
    var k := 0;
    while k < |definitions|
      invariant 0 <= k <= |definitions|
      invariant unique == Seqs.Dedup(definitions[..k], TermKey) && seenTerms == Seqs.KeySet(unique, TermKey)
    {
      assert definitions[..k + 1][..k] == definitions[..k];
      var defn := definitions[k];
      if Strings.ToLower(defn.term) !in seenTerms {
        seenTerms := seenTerms + {Strings.ToLower(defn.term)};
        assert (unique + [defn])[..|unique|] == unique;
        unique := unique + [defn];
      }
      k := k + 1;
    }
    assert definitions[..k] == definitions;
  }

  /** The terms `extract` returns are pairwise distinct, compared case-insensitively. */
  lemma ExtractedTermsDistinct(text: string, first: seq<Match>, second: seq<Match>, sectionSearch: string -> Option<string>)
    ensures var u := Seqs.Dedup(Candidates(text, first, second, sectionSearch), TermKey);
      forall k, l :: 0 <= k < l < |u| ==> TermKey(u[k]) != TermKey(u[l])
  {
    Seqs.DedupDistinct(Candidates(text, first, second, sectionSearch), TermKey);
  }

  /**
   * Each definition `extract` returns is the candidate at a picked position, the
   * positions increasing (the result is a subsequence of the candidates), and
   * every candidate's term is represented.
   */
  lemma ExtractedAreCandidates(text: string, first: seq<Match>, second: seq<Match>, sectionSearch: string -> Option<string>)
    ensures var c := Candidates(text, first, second, sectionSearch);
      var u, p := Seqs.Dedup(c, TermKey), Seqs.Picks(c, TermKey);
      && |p| == |u|
      && (forall k :: 0 <= k < |u| ==> 0 <= p[k] < |c| && u[k] == c[p[k]])
      && (forall k, l :: 0 <= k < l < |p| ==> p[k] < p[l])
      && Seqs.KeySet(u, TermKey) == Seqs.KeySet(c, TermKey)
  {
    Seqs.DedupPicks(Candidates(text, first, second, sectionSearch), TermKey);
  }

  /** Each definition `extract` returns is the first candidate with its term. */
  lemma ExtractedAreFirst(text: string, first: seq<Match>, second: seq<Match>, sectionSearch: string -> Option<string>)
    ensures var c := Candidates(text, first, second, sectionSearch);
      var p := Seqs.Picks(c, TermKey);
      forall k :: 0 <= k < |p| ==> TermKey(c[p[k]]) !in Seqs.KeySet(c[..p[k]], TermKey)
  {
    Seqs.DedupKeepsFirst(Candidates(text, first, second, sectionSearch), TermKey);
  }

  /**
   * A kept pattern-1 candidate carries the section found before its match and a
   * kept pattern-2 candidate none; pattern-1 candidates come first.
   */
  lemma ExtractedSections(text: string, first: seq<Match>, second: seq<Match>, sectionSearch: string -> Option<string>)
    ensures var c := Candidates(text, first, second, sectionSearch);
      var p := Seqs.Picks(c, TermKey);
      && (forall k :: 0 <= k < |p| && p[k] < |first| ==> c[p[k]] == FirstPatternDefinition(text, first[p[k]], sectionSearch))
      && (forall k :: 0 <= k < |p| && p[k] >= |first| ==>
            c[p[k]] == SecondPatternDefinition(second[p[k] - |first|]) && c[p[k]].section == None)
  {
    var c := Candidates(text, first, second, sectionSearch);
    var f := FirstPatternDefinitions(text, first, sectionSearch);
    assert |f| == |first|;
    forall i | 0 <= i < |c| && i >= |first| ensures c[i] == SecondPatternDefinition(second[i - |first|]) {
      assert c[i] == SecondPatternDefinitions(second)[i - |f|];
    }
  }

  /** `get_definition_dict`: later definitions of a key overwrite earlier ones. */
  function DefinitionDict(ds: seq<Definition>): (r: map<string, string>)
    ensures r.Keys == Seqs.KeySet(ds, TermKey)
  {
    if ds == [] then map[]
    else DefinitionDict(ds[..|ds| - 1])[TermKey(ds[|ds| - 1]) := ds[|ds| - 1].definition]
  }

  /** A key maps to the definition of the last entry with that lower-cased term. */
  lemma {:induction false} DefinitionDictLastWins(ds: seq<Definition>, i: nat)
    requires i < |ds|
    requires forall j :: i < j < |ds| ==> TermKey(ds[j]) != TermKey(ds[i])
    ensures TermKey(ds[i]) in DefinitionDict(ds)
    ensures DefinitionDict(ds)[TermKey(ds[i])] == ds[i].definition
  {
    if i < |ds| - 1 {
      var init := ds[..|ds| - 1];
      forall j | i < j < |init| ensures TermKey(init[j]) != TermKey(init[i]) {
        assert init[j] == ds[j];
      }
      DefinitionDictLastWins(init, i);
      assert init[i] == ds[i];
    }
  }

  /**
   * The dictionary of what `extract` returns maps every extracted term, lower-cased,
   * to that term's definition, and has no other key.
   */
  lemma ExtractedDictionary(text: string, first: seq<Match>, second: seq<Match>, sectionSearch: string -> Option<string>)
    ensures var u := Seqs.Dedup(Candidates(text, first, second, sectionSearch), TermKey);
      && DefinitionDict(u).Keys == Seqs.KeySet(u, TermKey)
      && forall k :: 0 <= k < |u| ==> TermKey(u[k]) in DefinitionDict(u) && DefinitionDict(u)[TermKey(u[k])] == u[k].definition
  {
    var u := Seqs.Dedup(Candidates(text, first, second, sectionSearch), TermKey);
    Seqs.DedupDistinct(Candidates(text, first, second, sectionSearch), TermKey);
    forall k | 0 <= k < |u| ensures TermKey(u[k]) in DefinitionDict(u) && DefinitionDict(u)[TermKey(u[k])] == u[k].definition {
      DefinitionDictLastWins(u, k);
    }
  }
}
