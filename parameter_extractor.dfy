/**
 * The parameters read off a clause before the debate: the numbers and amounts
 * that the configured regular expressions find, three regex flags, and the
 * keyword flags and text markers, which are plain substring tests on the
 * lower-cased clause. The regular-expression searches are an input
 * (`RegexFindings`); the substring tests are modelled exactly.
 */
module ParameterExtractor {
  import opened Wrappers
  import Strings
  import opened Models

  /**
   * What the configured patterns find in the clause: the first captured number of
   * the `days`, `months` and `years` patterns (absent without a match), every
   * `amount` match, and whether the `written_notice`, `party_symmetry` and
   * `for_cause` patterns match anywhere.
   */
  datatype RegexFindings = RegexFindings(
    days: Option<int>, months: Option<int>, years: Option<int>, amounts: seq<string>,
    writtenNotice: bool, partySymmetry: bool, forCause: bool)

  const CapIndicators: seq<string> := ["limited to", "shall not exceed", "maximum", "cap"]
  const CureIndicators: seq<string> := ["cure", "remedy", "correct the breach"]

  /** The keys of `raw_text_markers`, in insertion order. */
  const MarkerNames: seq<string> := ["contains_unilateral", "contains_either_party", "contains_without_cause",
                                     "contains_immediately", "contains_unlimited"]

  /** The five markers: each an `in` test (or two, joined by `or`) on the lower-cased text. */
  function RawTextMarkers(lower: string): (m: seq<(string, bool)>)
    ensures |m| == |MarkerNames| && forall i :: 0 <= i < |m| ==> m[i].0 == MarkerNames[i]
    ensures m[0].1 <==> Strings.Occurs(lower, "company may") || Strings.Occurs(lower, "vendor may")
    ensures m[1].1 <==> Strings.Occurs(lower, "either party")
    ensures m[2].1 <==> Strings.Occurs(lower, "without cause")
    ensures m[3].1 <==> Strings.Occurs(lower, "immediately")
    ensures m[4].1 <==> Strings.Occurs(lower, "unlimited") || Strings.Occurs(lower, "all claims")
  {
    [("contains_unilateral", Strings.Contains(lower, "company may") || Strings.Contains(lower, "vendor may")),
     ("contains_either_party", Strings.Contains(lower, "either party")),
     ("contains_without_cause", Strings.Contains(lower, "without cause")),
     ("contains_immediately", Strings.Contains(lower, "immediately")),
     ("contains_unlimited", Strings.Contains(lower, "unlimited") || Strings.Contains(lower, "all claims"))]
  }

  /**
   * `extract`: a fresh parameter record is filled field by field. The numbers stay
   * absent unless their pattern matched; the cap and cure flags hold exactly when
   * one of their indicator phrases occurs in the lower-cased clause.
   */
  method Extract(text: string, found: RegexFindings) returns (params: ExtractedParameters)
    ensures params.daysMentioned == found.days
    ensures params.monthsMentioned == found.months
    ensures params.yearsMentioned == found.years
    ensures params.amountsMentioned == found.amounts
    ensures params.hasWrittenNotice == found.writtenNotice
    ensures params.isMutual == found.partySymmetry
    ensures params.requiresCause == found.forCause
    ensures params.hasCap <==> exists t :: t in CapIndicators && Strings.Occurs(Strings.ToLower(text), t)
    ensures params.hasCurePeriod <==> exists t :: t in CureIndicators && Strings.Occurs(Strings.ToLower(text), t)
    ensures params.rawTextMarkers == RawTextMarkers(Strings.ToLower(text))
  {
    var textLower := Strings.ToLower(text);
    var hasCap := Strings.ContainsAny(textLower, CapIndicators);
    var hasCure := Strings.ContainsAny(textLower, CureIndicators);
    params := ExtractedParameters(None, None, None, [], false, false, false, false, false, []);
    if found.days.Some? {
      params := params.(daysMentioned := found.days);
    }
    if found.months.Some? {
      params := params.(monthsMentioned := found.months);
    }
    if found.years.Some? {
      params := params.(yearsMentioned := found.years);
    }
    params := params.(amountsMentioned := found.amounts, hasWrittenNotice := found.writtenNotice,
                      isMutual := found.partySymmetry, requiresCause := found.forCause);
    params := params.(hasCap := hasCap, hasCurePeriod := hasCure, rawTextMarkers := RawTextMarkers(textLower));
  }

  /** A clause mentioning a cap phrase anywhere, at any position, sets the cap flag. */
  lemma {:induction false} CapPhraseSetsFlag(pre: string, phrase: string, post: string)
    requires phrase in CapIndicators
    ensures Strings.ContainsAny(pre + phrase + post, CapIndicators)
  {
    var s := pre + phrase + post;
    assert s[|pre|..|pre| + |phrase|] == phrase;
    assert Strings.MatchAt(s, phrase, |pre|);
  }
}
