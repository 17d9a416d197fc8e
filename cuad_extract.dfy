/**
 * The first stage of the offline data pipeline: risky clauses are picked out of
 * the CUAD question-answering dataset by question keyword and answer length,
 * labelled with the analyser's category names, and each one is reviewed by a
 * language model that accepts or rejects it and returns a cleaned text. The JSON
 * file is an input (absent when the file does not exist) and so is the model's
 * reply to each review request.
 */
module CuadExtract {
  import opened Wrappers
  import Strings

  const TargetKeywords: seq<string> := ["Termination For Convenience", "Uncapped Liability", "Non-Compete"]

  /** A candidate's answer must be strictly longer than this... */
  const MinChars: nat := 60
  /** ...and strictly shorter than this. */
  const MaxChars: nat := 1000

  /** The three category names a clause can be filed under. */
  const Categories: seq<string> := ["Unilateral Termination", "Unlimited Liability", "Non-Compete"]

  /** One question of a paragraph, with the texts of its answers. */
  datatype Qa = Qa(question: string, answers: seq<string>)
  datatype Paragraph = Paragraph(qas: seq<Qa>)
  /** One contract of the dataset; `title` is absent when the key is missing. */
  datatype Doc = Doc(title: Option<string>, paragraphs: seq<Paragraph>)

  datatype Candidate = Candidate(category: string, riskyText: string, sourceDoc: string)

  /** `map_category_name`: the first CUAD cuadLabel that occurs decides the category. */
  function MapCategoryName(cuadLabel: string): (name: string)
    ensures name == "Unilateral Termination" <==> Strings.Occurs(cuadLabel, "Termination For Convenience")
    ensures name == "Unlimited Liability" <==>
      !Strings.Occurs(cuadLabel, "Termination For Convenience") && Strings.Occurs(cuadLabel, "Uncapped Liability")
    ensures name == "Non-Compete" <==>
      !Strings.Occurs(cuadLabel, "Termination For Convenience") && !Strings.Occurs(cuadLabel, "Uncapped Liability")
      && Strings.Occurs(cuadLabel, "Non-Compete")
    ensures name == "Unknown" <==> !Strings.ContainsAny(cuadLabel, TargetKeywords)
  {
    if Strings.Contains(cuadLabel, "Termination For Convenience") then "Unilateral Termination"
    else if Strings.Contains(cuadLabel, "Uncapped Liability") then "Unlimited Liability"
    else if Strings.Contains(cuadLabel, "Non-Compete") then "Non-Compete"
    else "Unknown"
  }

  /** Every cuadLabel the candidate filter lets through is filed under one of the three categories. */
  lemma KeywordLabelIsCategorised(cuadLabel: string)
    requires Strings.ContainsAny(cuadLabel, TargetKeywords)
    ensures MapCategoryName(cuadLabel) in Categories
  {
  }

  /** The candidate one question yields: none, or its first answer labelled by category. */
  function QaCandidates(title: string, qa: Qa): (r: seq<Candidate>)
    ensures |r| <= 1
    ensures |r| == 1 <==> Strings.ContainsAny(qa.question, TargetKeywords) && qa.answers != []
                          && MinChars < |qa.answers[0]| < MaxChars
    ensures |r| == 1 ==> r[0] == Candidate(MapCategoryName(qa.question), qa.answers[0], title)
  {
    if Strings.ContainsAny(qa.question, TargetKeywords) && qa.answers != [] && MinChars < |qa.answers[0]| < MaxChars
    then [Candidate(MapCategoryName(qa.question), qa.answers[0], title)]
    else []
  }

  function ParagraphCandidates(title: string, qas: seq<Qa>): seq<Candidate> {
    if qas == [] then [] else ParagraphCandidates(title, qas[..|qas| - 1]) + QaCandidates(title, qas[|qas| - 1])
  }

  function DocCandidates(title: string, ps: seq<Paragraph>): seq<Candidate> {
    if ps == [] then [] else DocCandidates(title, ps[..|ps| - 1]) + ParagraphCandidates(title, ps[|ps| - 1].qas)
  }

  /** `doc.get('title', 'Unknown')`. */
  function Title(d: Doc): string {
    d.title.GetOr("Unknown")
  }

  /** The candidates of the whole dataset, document by document, in file order. */
  function AllCandidates(docs: seq<Doc>): seq<Candidate> {
    if docs == [] then [] else AllCandidates(docs[..|docs| - 1]) + DocCandidates(Title(docs[|docs| - 1]), docs[|docs| - 1].paragraphs)
  }

  /** A candidate has an answer of 61 to 999 characters and one of the three categories. */
  predicate GoodCandidate(c: Candidate) {
    MinChars < |c.riskyText| < MaxChars && c.category in Categories
  }

  lemma {:induction false} ParagraphCandidatesGood(title: string, qas: seq<Qa>)
    ensures forall c :: c in ParagraphCandidates(title, qas) ==> GoodCandidate(c) && c.sourceDoc == title
  {
    if qas != [] {
      ParagraphCandidatesGood(title, qas[..|qas| - 1]);
      var q := qas[|qas| - 1];
      if QaCandidates(title, q) != [] {
        KeywordLabelIsCategorised(q.question);
      }
    }
  }

  lemma {:induction false} DocCandidatesGood(title: string, ps: seq<Paragraph>)
    ensures forall c :: c in DocCandidates(title, ps) ==> GoodCandidate(c) && c.sourceDoc == title
  {
    if ps != [] {
      DocCandidatesGood(title, ps[..|ps| - 1]);
      ParagraphCandidatesGood(title, ps[|ps| - 1].qas);
    }
  }

  /** Every candidate of the dataset satisfies the length window and has a known category. */
  lemma {:induction false} AllCandidatesGood(docs: seq<Doc>)
    ensures forall c :: c in AllCandidates(docs) ==> GoodCandidate(c)
  {
    if docs != [] {
      AllCandidatesGood(docs[..|docs| - 1]);
      DocCandidatesGood(Title(docs[|docs| - 1]), docs[|docs| - 1].paragraphs);
    }
  }

  /**
   * `extract_candidates`: a missing file gives no candidates; otherwise every
   * question of every paragraph of every document is examined, in file order.
   */
  method ExtractCandidates(file: Option<seq<Doc>>) returns (candidates: seq<Candidate>)
    ensures file.None? ==> candidates == []
    ensures file.Some? ==> candidates == AllCandidates(file.value)
  {
    if file.None? {
      return [];
    }
    var docs := file.value;
    candidates := [];
    var i := 0;
    while i < |docs|
      invariant 0 <= i <= |docs|
      invariant candidates == AllCandidates(docs[..i])
    {
      var found := ScanDocument(Title(docs[i]), docs[i].paragraphs);
      candidates := candidates + found;
      assert docs[..i + 1][..i] == docs[..i];
      i := i + 1;
    }
    assert docs[..i] == docs;
  }

  /** The paragraph loop of `extract_candidates` for one document. */
  method ScanDocument(title: string, paragraphs: seq<Paragraph>) returns (found: seq<Candidate>)
    ensures found == DocCandidates(title, paragraphs)
  {
    found := [];
    var j := 0;
    while j < |paragraphs|
      invariant 0 <= j <= |paragraphs|
      invariant found == DocCandidates(title, paragraphs[..j])
    {
      var more := ScanParagraph(title, paragraphs[j].qas);
      found := found + more;
      assert paragraphs[..j + 1][..j] == paragraphs[..j];
      j := j + 1;
    }
    assert paragraphs[..j] == paragraphs;
  }

  /** The question loop of `extract_candidates` for one paragraph. */
  method ScanParagraph(title: string, qas: seq<Qa>) returns (found: seq<Candidate>)
    ensures found == ParagraphCandidates(title, qas)
  {
    found := [];
    var k := 0;
    while k < |qas|
      invariant 0 <= k <= |qas|
      invariant found == ParagraphCandidates(title, qas[..k])
    {
      var qa := qas[k];
      var cuadLabel := qa.question;
      if Strings.ContainsAny(cuadLabel, TargetKeywords) {
        if qa.answers != [] {
          var clauseText := qa.answers[0];
          if MinChars < |clauseText| < MaxChars {
            found := found + [Candidate(MapCategoryName(cuadLabel), clauseText, title)];
          }
        }
      }
      assert qas[..k + 1][..k] == qas[..k];
      k := k + 1;
    }
    assert qas[..k] == qas;
  }

  /** What a review request brings back. */
  datatype LlmReply =
    | Raised                                     // the request or the JSON decoding raised
    | Http(statusCode: int, answer: Option<Answer>) // `answer` is absent when the content is not a JSON object

  /** The decoded JSON object: each key may be missing. */
  datatype Answer = Answer(isRisk: Option<bool>, cleanText: Option<string>)

  /**
   * `check_quality_with_llm`: without an API key every clause is accepted as it is;
   * a raised request, a status other than 200 or an undecodable reply rejects it
   * with its original text; otherwise the reply's verdict (default: reject) and
   * cleaned text (default: the original) are taken.
   */
  function CheckQuality(text: string, apiKey: Option<string>, reply: LlmReply): (r: (bool, string))
    ensures apiKey.None? || apiKey.value == "" ==> r == (true, text)
    ensures apiKey.Some? && apiKey.value != "" && (reply.Raised? || reply.statusCode != 200 || reply.answer.None?)
            ==> r == (false, text)
    ensures r.0 && r.1 != text ==> apiKey.Some? && apiKey.value != "" && reply == Http(200, Some(Answer(Some(true), Some(r.1))))
  {
    if apiKey.None? || apiKey.value == "" then (true, text)
    else match reply
      case Raised => (false, text)
      case Http(code, answer) =>
        if code != 200 || answer.None? then (false, text)
        else (answer.value.isRisk.GetOr(false), answer.value.cleanText.GetOr(text))
  }

  /** One candidate's review: kept, with the cleaned text, when the answer accepts it. */
  function Review(item: Candidate, apiKey: Option<string>, reply: LlmReply): seq<Candidate> {
    var r := CheckQuality(item.riskyText, apiKey, reply);
    if r.0 then [item.(riskyText := r.1)] else []
  }

  /** The accepted candidates, in order, each with its text replaced by the cleaned text. */
  function Reviewed(items: seq<Candidate>, apiKey: Option<string>, reply: nat -> LlmReply): seq<Candidate> {
    if items == [] then []
    else
      var n := |items| - 1;
      Reviewed(items[..n], apiKey, reply) + Review(items[n], apiKey, reply(n))
  }

  /** How many of the clauses are filed under `category`. */
  function CountOf(xs: seq<Candidate>, category: string): nat {
    if xs == [] then 0 else CountOf(xs[..|xs| - 1], category) + if xs[|xs| - 1].category == category then 1 else 0
  }

  function InitialCounts(): map<string, nat> {
    map["Unilateral Termination" := 0, "Unlimited Liability" := 0, "Non-Compete" := 0]
  }

  /** `category_counts[category] += 1` when the category is one of the counted ones. */
  function Bump(counts: map<string, nat>, category: string): map<string, nat> {
    if category in counts then counts[category := counts[category] + 1] else counts
  }

  /** The counts after tallying the kept clauses one by one from `start`. */
  function Tally(start: map<string, nat>, xs: seq<Candidate>): map<string, nat> {
    if xs == [] then start else Bump(Tally(start, xs[..|xs| - 1]), xs[|xs| - 1].category)
  }

  /** Tallying from zero counts keeps the keys, and each key counts its clauses. */
  lemma {:induction false} TallyExact(start: map<string, nat>, xs: seq<Candidate>)
    requires forall c :: c in start ==> start[c] == 0
    ensures Tally(start, xs).Keys == start.Keys
    ensures forall c :: c in Tally(start, xs) ==> Tally(start, xs)[c] == CountOf(xs, c)
  {
    if xs != [] {
      var n := |xs| - 1;
      TallyExact(start, xs[..n]);
      CountOfStep(xs[..n], xs[n]);
      assert xs[..n] + [xs[n]] == xs;
    }
  }

  /**
   * `load_cuad`: the candidates are reviewed one by one (the `k`-th review being
   * answered by `reply(k)`); the accepted ones are kept with their cleaned text
   * and counted under their category. The counts are what the stage prints.
   */
  method LoadCuad(file: Option<seq<Doc>>, apiKey: Option<string>, reply: nat -> LlmReply)
    returns (highQuality: seq<Candidate>, counts: map<string, nat>)
    ensures highQuality == Reviewed(if file.None? then [] else AllCandidates(file.value), apiKey, reply)
    ensures counts == Tally(InitialCounts(), highQuality)
  {
    var rawCandidates := ExtractCandidates(file);
    highQuality, counts := ReviewAndCount(rawCandidates, apiKey, reply, InitialCounts());
  }

  /** The kept clauses and the counts after reviewing the first `n` candidates. */
  function ReviewedPrefix(raw: seq<Candidate>, n: nat, apiKey: Option<string>, reply: nat -> LlmReply, start: map<string, nat>)
    : (seq<Candidate>, map<string, nat>)
    requires n <= |raw|
  {
    if n == 0 then ([], start)
    else
      var (kept, counts) := ReviewedPrefix(raw, n - 1, apiKey, reply, start);
      var r := CheckQuality(raw[n - 1].riskyText, apiKey, reply(n - 1));
      if r.0 then (kept + [raw[n - 1].(riskyText := r.1)], Bump(counts, raw[n - 1].category)) else (kept, counts)
  }

  /** After `n` candidates, the kept clauses are their review and the counts tally them. */
  lemma {:induction false} ReviewedPrefixFacts(raw: seq<Candidate>, n: nat, apiKey: Option<string>, reply: nat -> LlmReply, start: map<string, nat>)
    requires n <= |raw|
    ensures ReviewedPrefix(raw, n, apiKey, reply, start).0 == Reviewed(raw[..n], apiKey, reply)
    ensures ReviewedPrefix(raw, n, apiKey, reply, start).1 == Tally(start, ReviewedPrefix(raw, n, apiKey, reply, start).0)
  {
    if n > 0 {
      ReviewedPrefixFacts(raw, n - 1, apiKey, reply, start);
      ReviewedStep(raw, n - 1, apiKey, reply);
      var kept := ReviewedPrefix(raw, n - 1, apiKey, reply, start).0;
      var r := CheckQuality(raw[n - 1].riskyText, apiKey, reply(n - 1));
      if r.0 {
        TallyStep(start, kept, raw[n - 1].(riskyText := r.1));
      }
    }
  }

  /** The review loop of `load_cuad`, counting from `start`. */
  method ReviewAndCount(rawCandidates: seq<Candidate>, apiKey: Option<string>, reply: nat -> LlmReply, start: map<string, nat>)
    returns (highQuality: seq<Candidate>, counts: map<string, nat>)
    ensures highQuality == Reviewed(rawCandidates, apiKey, reply)
    ensures counts == Tally(start, highQuality)
  {
    highQuality := [];
    counts := start;
    var i := 0;
    while i < |rawCandidates|
      invariant 0 <= i <= |rawCandidates|
      invariant (highQuality, counts) == ReviewedPrefix(rawCandidates, i, apiKey, reply, start)
    {
      var item := rawCandidates[i];
      var category := item.category;
      var review := CheckQuality(item.riskyText, apiKey, reply(i));
      var isRisk, cleanText := review.0, review.1;
      if isRisk {
        item := item.(riskyText := cleanText);
        highQuality := highQuality + [item];
        if category in counts {
          counts := counts[category := counts[category] + 1];
        }
      }
      i := i + 1;
    }
    ReviewedPrefixFacts(rawCandidates, i, apiKey, reply, start);
    assert rawCandidates[..i] == rawCandidates;
  }

  lemma TallyStep(start: map<string, nat>, xs: seq<Candidate>, x: Candidate)
    ensures Tally(start, xs + [x]) == Bump(Tally(start, xs), x.category)
  {
    assert (xs + [x])[..|xs|] == xs;
  }

  lemma ReviewedStep(items: seq<Candidate>, i: nat, apiKey: Option<string>, reply: nat -> LlmReply)
    requires i < |items|
    ensures Reviewed(items[..i + 1], apiKey, reply) == Reviewed(items[..i], apiKey, reply) + Review(items[i], apiKey, reply(i))
  {
    assert items[..i + 1][..i] == items[..i];
  }

  lemma CountOfStep(xs: seq<Candidate>, x: Candidate)
    ensures forall c :: CountOf(xs + [x], c) == CountOf(xs, c) + if x.category == c then 1 else 0
  {
    assert (xs + [x])[..|xs|] == xs;
  }

  /**
   * Review keeps exactly the accepted clauses: it never adds one, keeps each
   * clause's category and source, and only the text can change.
   */
  lemma {:induction false} ReviewedIsSelection(items: seq<Candidate>, apiKey: Option<string>, reply: nat -> LlmReply)
    ensures |Reviewed(items, apiKey, reply)| <= |items|
    ensures forall c :: c in Reviewed(items, apiKey, reply) ==>
      exists k :: 0 <= k < |items| && c == items[k].(riskyText := CheckQuality(items[k].riskyText, apiKey, reply(k)).1)
                  && CheckQuality(items[k].riskyText, apiKey, reply(k)).0
  {
    if items != [] {
      var n := |items| - 1;
      ReviewedIsSelection(items[..n], apiKey, reply);
      forall c | c in Reviewed(items, apiKey, reply)
        ensures exists k :: 0 <= k < |items| && c == items[k].(riskyText := CheckQuality(items[k].riskyText, apiKey, reply(k)).1)
                            && CheckQuality(items[k].riskyText, apiKey, reply(k)).0
      {
        if c in Reviewed(items[..n], apiKey, reply) {
          var k :| 0 <= k < n && c == items[..n][k].(riskyText := CheckQuality(items[..n][k].riskyText, apiKey, reply(k)).1)
                   && CheckQuality(items[..n][k].riskyText, apiKey, reply(k)).0;
          assert items[..n][k] == items[k];
        } else {
          assert c == items[n].(riskyText := CheckQuality(items[n].riskyText, apiKey, reply(n)).1);
        }
      }
    }
  }

  /** Without an API key nothing is rejected and no text changes. */
  lemma {:induction false} NoKeyKeepsAll(items: seq<Candidate>, reply: nat -> LlmReply)
    ensures Reviewed(items, None, reply) == items
  {
    if items != [] {
      var n := |items| - 1;
      NoKeyKeepsAll(items[..n], reply);
      assert items[..n] + [items[n]] == items;
    }
  }

  /** When every clause has a known category, the three counts add up to the number kept. */
  lemma {:induction false} CountsAddUp(xs: seq<Candidate>)
    requires forall c :: c in xs ==> c.category in Categories
    ensures CountOf(xs, "Unilateral Termination") + CountOf(xs, "Unlimited Liability") + CountOf(xs, "Non-Compete") == |xs|
  {
    if xs != [] {
      CountsAddUp(xs[..|xs| - 1]);
      assert xs[|xs| - 1] in xs;
    }
  }
}
