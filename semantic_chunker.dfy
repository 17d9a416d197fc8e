/**
 * Semantic chunking of a contract's text. The text is cut into sentences (the
 * regular-expression split is an input: `pieces` are the raw pieces), the
 * similarity of each pair of neighbouring sentences is measured (an input),
 * a breakpoint is placed before every sentence whose similarity to the one
 * before falls under a percentile threshold (an input), and the sentences
 * between consecutive breakpoints become a chunk when their joined text is
 * long enough.
 */
module SemanticChunker {
  import opened Wrappers
  import Strings
  import Seqs
  import opened Models

  const MinChunkLength := 100
  const MaxChunkLength := 800
  /** The width of the context windows before and after a chunk. */
  const ContextWidth := 50

  function StripAll(pieces: seq<string>): (r: seq<string>)
    ensures |r| == |pieces| && forall i :: 0 <= i < |pieces| ==> r[i] == Strings.Strip(pieces[i])
  {
    seq(|pieces|, i requires 0 <= i < |pieces| => Strings.Strip(pieces[i]))
  }

  /** No whitespace at either end, and not empty. */
  predicate Trimmed(s: string) {
    s != [] && !Strings.IsSpace(s[0]) && !Strings.IsSpace(s[|s| - 1])
  }

  /** `[s.strip() for s in sentences if len(s.strip()) > 20]`. */
  function Sentences(pieces: seq<string>): (r: seq<string>)
    ensures forall i :: 0 <= i < |r| ==> |r[i]| > 20 && Trimmed(r[i])
  {
    var stripped := StripAll(pieces);
    var r := Seqs.Filter(stripped, (s: string) => |s| > 20);
    forall i | 0 <= i < |r| ensures Trimmed(r[i]) {
      assert r[i] in stripped;
      var j :| 0 <= j < |stripped| && stripped[j] == r[i];
      Strings.StripIsInfix(pieces[j]);
    }
    r
  }

  /** A sentence is never blank. */
  lemma SentenceNotBlank(s: string)
    requires Trimmed(s)
    ensures !Strings.IsBlank(s)
  {
  }

  /** `sentences[a:b]` for non-negative bounds, clamped as Python clamps. */
  function Slice<T>(s: seq<T>, a: nat, b: nat): (r: seq<T>)
    ensures a <= b <= |s| ==> r == s[a..b]
    ensures |r| <= |s|
  {
    var a' := if a <= |s| then a else |s|;
    var b' := if b <= |s| then b else |s|;
    if a' < b' then s[a'..b'] else []
  }

  /** `text[a:b]` for any bounds, clamped as Python clamps. */
  function TextSlice(text: string, a: int, b: int): (r: string)
    ensures |r| <= |text|
    ensures b - a <= ContextWidth ==> |r| <= ContextWidth
  {
    var a' := if a < 0 then 0 else if a <= |text| then a else |text|;
    var b' := if b < 0 then 0 else if b <= |text| then b else |text|;
    if a' < b' then text[a'..b'] else []
  }

  // ---------------------------------------------------------------- breakpoints

  /** `[i + 1 for i, sim in enumerate(sims) if sim < threshold]`. */
  function Drops(sims: seq<real>, threshold: real): (r: seq<nat>)
    ensures forall k :: 0 <= k < |r| ==> 1 <= r[k] <= |sims|
  {
    if sims == [] then []
    else Drops(sims[..|sims| - 1], threshold) + (if sims[|sims| - 1] < threshold then [|sims|] else [])
  }

  /** `_find_breakpoints`: none without similarities; otherwise 0, the drops, and the sentence count. */
  function Breakpoints(sims: seq<real>, threshold: real, n: nat): (r: seq<nat>)
    ensures r == [] <==> sims == []
    ensures r != [] ==> r[0] == 0 && r[|r| - 1] == n
  {
    if sims == [] then []
    else
      var b := [0] + Drops(sims, threshold);
      if b[|b| - 1] != n then b + [n] else b
  }

  predicate Increasing(b: seq<nat>) {
    forall k, l :: 0 <= k < l < |b| ==> b[k] < b[l]
  }

  /** The drops are strictly increasing, and a position is a drop iff the similarity before it is low. */
  lemma {:induction false} DropsFacts(sims: seq<real>, threshold: real)
    ensures Increasing(Drops(sims, threshold))
    ensures forall j :: 1 <= j <= |sims| ==> (j in Drops(sims, threshold) <==> sims[j - 1] < threshold)
  {
    if sims != [] {
      var init := sims[..|sims| - 1];
      DropsFacts(init, threshold);
      assert forall j :: 0 <= j < |init| ==> init[j] == sims[j];
    }
  }

  /**
   * With one similarity per pair of neighbouring sentences, the breakpoints
   * start at 0, increase strictly and end at the sentence count; an inner
   * position is a breakpoint iff the similarity just before it falls under the
   * threshold.
   */
  lemma BreakpointsFacts(sims: seq<real>, threshold: real, n: nat)
    requires sims != [] && |sims| == n - 1
    ensures var b := Breakpoints(sims, threshold, n);
      && |b| >= 2 && b[0] == 0 && b[|b| - 1] == n && Increasing(b)
      && (forall k :: 0 <= k < |b| ==> b[k] <= n)
      && (forall j :: 0 < j < n ==> (j in b <==> sims[j - 1] < threshold))
  {
    var b0 := [0] + Drops(sims, threshold);
    LeadingZero(sims, threshold);
    assert b0[|b0| - 1] < n;
    assert Breakpoints(sims, threshold, n) == b0 + [n];
    AppendLast(b0, n);
    AppendKeepsMembers(b0, n);
  }

  /** Appending `x` adds `x` and no other member. */
  lemma AppendKeepsMembers(b: seq<nat>, x: nat)
    ensures forall j :: j != x ==> (j in b + [x] <==> j in b)
  {
  }

  /** The breakpoints before the final one: 0 and then the drops. */
  lemma LeadingZero(sims: seq<real>, threshold: real)
    requires sims != []
    ensures var b0 := [0] + Drops(sims, threshold);
      && Increasing(b0) && (forall k :: 0 <= k < |b0| ==> b0[k] <= |sims|)
      && (forall j :: 0 < j <= |sims| ==> (j in b0 <==> sims[j - 1] < threshold))
  {
    var d := Drops(sims, threshold);
    DropsFacts(sims, threshold);
    var b0 := [0] + d;
    assert forall k :: 1 <= k < |b0| ==> b0[k] == d[k - 1];
    forall j | 0 < j <= |sims| ensures j in b0 <==> j in d {
      if j in b0 {
        var k :| 0 <= k < |b0| && b0[k] == j;
        assert k > 0 && d[k - 1] == j;
      }
    }
  }

  lemma AppendLast(b: seq<nat>, x: nat)
    requires Increasing(b) && forall k :: 0 <= k < |b| ==> b[k] < x
    ensures Increasing(b + [x])
  {
  }

  /** Looking at one more similarity adds its position when it is under the threshold. */
  lemma DropsStep(sims: seq<real>, threshold: real, i: nat)
    requires i < |sims|
    ensures Drops(sims[..i + 1], threshold) == Drops(sims[..i], threshold) + (if sims[i] < threshold then [i + 1] else [])
  {
    assert sims[..i + 1][..i] == sims[..i];
  }

  /** `_find_breakpoints` as written: the start, the loop over the similarities, and the end. */
  method FindBreakpoints(sims: seq<real>, threshold: real, n: nat) returns (b: seq<nat>)
    ensures b == Breakpoints(sims, threshold, n)
  {
    if sims == [] {
      return [];
    }
    b := MarkDrops(sims, threshold);
    if b[|b| - 1] != n {
      b := b + [n];
    }
  }

  /** The loop of `_find_breakpoints`: 0, then every position after a low similarity, in order. */
  method MarkDrops(sims: seq<real>, threshold: real) returns (b: seq<nat>)
    ensures b == [0] + Drops(sims, threshold)
  {
    b := [0];
    var i := 0;
    while i < |sims|
      invariant 0 <= i <= |sims|
      invariant b == [0] + Drops(sims[..i], threshold)
    {
      DropsStep(sims, threshold, i);
      if sims[i] < threshold {
        b := b + [i + 1];
      }
      i := i + 1;
    }
    assert sims[..i] == sims;
  }

  /** The similarities of the `n - 1` pairs of neighbouring sentences. */
  function Sims(similarity: nat -> real, n: nat): (sims: seq<real>)
    ensures |sims| == if n >= 1 then n - 1 else 0
    ensures forall i :: 0 <= i < |sims| ==> sims[i] == similarity(i)
  {
    seq(if n >= 1 then n - 1 else 0, (i: int) requires 0 <= i => similarity(i))
  }

  /** The similarity loop. */
  method Similarities(n: nat, similarity: nat -> real) returns (sims: seq<real>)
    ensures sims == Sims(similarity, n)
  {
    sims := [];
    var i := 0;
    while i + 1 < n
      invariant 0 <= i && (n >= 1 ==> i <= n - 1) && (n == 0 ==> i == 0)
      invariant |sims| == i && forall k :: 0 <= k < i ==> sims[k] == similarity(k)
    {
      sims := sims + [similarity(i)];
      i := i + 1;
    }
  }

  // ---------------------------------------------------------------- chunks

  /** The chunk id `chunk_{i+1:03d}`. */
  function ChunkId(i: nat): string {
    "chunk_" + Strings.ZeroPad3(i + 1)
  }

  /** The sentences between breakpoints `i` and `i + 1`. */
  function ChunkSentences(sentences: seq<string>, bps: seq<nat>, i: nat): seq<string> {
    if i + 1 < |bps| then Slice(sentences, bps[i], bps[i + 1]) else []
  }

  /** The text of chunk `i`: the joined sentences, cut to 800 characters, or nothing under 100. */
  function ChunkBody(sentences: seq<string>, bps: seq<nat>, i: nat): (r: Option<string>)
    ensures r.Some? ==> MinChunkLength <= |r.value| <= MaxChunkLength
    ensures r.None? <==> |Strings.Join(ChunkSentences(sentences, bps, i), " ")| < MinChunkLength
  {
    var joined := Strings.Join(ChunkSentences(sentences, bps, i), " ");
    if |joined| < MinChunkLength then None
    else if |joined| > MaxChunkLength then Some(joined[..MaxChunkLength])
    else Some(joined)
  }

  /** `full_text.find(first)`, or 0 when it is not found. */
  function StartOf(fullText: string, first: string): (r: int)
    ensures r == (if Strings.Occurs(fullText, first) then Strings.Find(fullText, first) else 0)
    ensures 0 <= r
  {
    var found := Strings.Find(fullText, first);
    if found == -1 then 0 else found
  }

  /** A context window, stripped, and absent when it strips to nothing. */
  function Context(fullText: string, a: int, b: int): (r: Option<string>)
    ensures r.Some? ==> |r.value| <= |TextSlice(fullText, a, b)| && !Strings.IsBlank(r.value)
    ensures r.None? <==> Strings.IsBlank(TextSlice(fullText, a, b))
  {
    var w := TextSlice(fullText, a, b);
    Strings.StripIsInfix(w);
    Strings.StripEmptyIffBlank(w);
    var t := Strings.Strip(w);
    if t != "" then StripNotBlank(w); Some(t) else None
  }

  /** A non-empty strip is not blank. */
  lemma StripNotBlank(s: string)
    requires Strings.Strip(s) != []
    ensures !Strings.IsBlank(Strings.Strip(s))
  {
    Strings.StripIsInfix(s);
  }

  /** The chunk record for breakpoint pair `i` with text `text` whose first sentence is `first`. */
  function MakeChunk(fullText: string, first: string, text: string, i: nat): (c: SemanticChunk)
    ensures c.id == ChunkId(i)
    ensures 0 <= c.startChar && c.endChar - c.startChar == |text|
    ensures Strings.Strip(c.text) == c.text
    ensures c.wordCount == 0 <==> Strings.IsBlank(text)
    ensures c.precedingText.Some? ==> |c.precedingText.value| <= ContextWidth
    ensures c.followingText.Some? ==> |c.followingText.value| <= ContextWidth
  {
    Strings.StripIdempotent(text);
    var start := StartOf(fullText, first);
    var end := start + |text|;
    SemanticChunk(ChunkId(i), Strings.Strip(text), start, end, Strings.WordCount(text),
                  Context(fullText, if start - ContextWidth > 0 then start - ContextWidth else 0, start),
                  Context(fullText, end, end + ContextWidth))
  }

  /** The chunk made from breakpoints `i` and `i + 1`, if long enough. */
  function ChunkAt(fullText: string, sentences: seq<string>, bps: seq<nat>, i: nat): Option<SemanticChunk> {
    match ChunkBody(sentences, bps, i)
    case None => None
    case Some(text) => Some(MakeChunk(fullText, ChunkSentences(sentences, bps, i)[0], text, i))
  }

  /** A joined text is empty only when there are no parts, and starts with the first part. */
  lemma JoinedFacts(parts: seq<string>)
    requires |Strings.Join(parts, " ")| >= 1
    ensures parts != [] && Strings.StartsWith(Strings.Join(parts, " "), parts[0])
  {
    Strings.JoinStartsWithFirst(parts, " ");
  }

  /**
   * A kept chunk: its id names its breakpoint index; its unstripped text is
   * 100 to 800 characters and spans `[start, end)`; it starts where its first
   * sentence is found in the full text, or at 0; its stored text is not blank
   * (so the chunk validator accepts it); its context windows are at most
   * 50 characters, and absent exactly when blank.
   */
  lemma ChunkAtFacts(fullText: string, sentences: seq<string>, bps: seq<nat>, i: nat)
    requires forall k :: 0 <= k < |sentences| ==> Trimmed(sentences[k])
    requires ChunkAt(fullText, sentences, bps, i).Some?
    ensures var c := ChunkAt(fullText, sentences, bps, i).value;
      var first := ChunkSentences(sentences, bps, i)[0];
      && c.id == ChunkId(i)
      && MinChunkLength <= c.endChar - c.startChar <= MaxChunkLength
      && c.startChar == (if Strings.Occurs(fullText, first) then Strings.Find(fullText, first) else 0)
      && c.text != [] && Strings.Strip(c.text) == c.text
      && (c.precedingText.Some? ==> |c.precedingText.value| <= ContextWidth)
      && (c.followingText.Some? ==> |c.followingText.value| <= ContextWidth)
  {
    var parts := ChunkSentences(sentences, bps, i);
    var text := ChunkBody(sentences, bps, i).value;
    JoinedFacts(parts);
    assert parts[0] in sentences;
    var first := parts[0];
    assert Trimmed(first);
    assert text[0] == first[0];
    assert !Strings.IsBlank(text);
    Strings.StripEmptyIffBlank(text);
    Strings.StripIdempotent(text);
  }

  /** The present values among `at(0)`, ..., `at(k - 1)`, in order. */
  function Kept<T>(at: nat -> Option<T>, k: nat): seq<T> {
    if k == 0 then [] else Kept(at, k - 1) + (if at(k - 1).Some? then [at(k - 1).value] else [])
  }

  /**
   * The indices below `k` that have a value, in increasing order; they are
   * the indices the kept values come from, one for one.
   */
  function KeptIndices<T>(at: nat -> Option<T>, k: nat): (p: seq<nat>)
    ensures |p| == |Kept(at, k)|
    ensures forall j :: 0 <= j < |p| ==> p[j] < k && at(p[j]) == Some(Kept(at, k)[j])
    ensures forall j, l :: 0 <= j < l < |p| ==> p[j] < p[l]
    ensures forall i :: 0 <= i < k ==> (at(i).Some? <==> i in p)
  {
    if k == 0 then []
    else
      var p0 := KeptIndices(at, k - 1);
      if at(k - 1).Some? then p0 + [k - 1] else p0
  }

  /** The chunk of each breakpoint pair, as a function of the pair index. */
  function ChunkFn(fullText: string, sentences: seq<string>, bps: seq<nat>): nat -> Option<SemanticChunk> {
    (i: nat) => ChunkAt(fullText, sentences, bps, i)
  }

  /** `_create_chunks_from_breakpoints`: the kept chunks over all pairs of consecutive breakpoints. */
  function AllChunks(fullText: string, sentences: seq<string>, bps: seq<nat>): seq<SemanticChunk> {
    Kept(ChunkFn(fullText, sentences, bps), if |bps| >= 1 then |bps| - 1 else 0)
  }

  /** One pass of the chunk loop: the chunk of pair `i`, if kept. */
  method ChunkOfPair(fullText: string, sentences: seq<string>, bps: seq<nat>, i: nat)
    returns (c: Option<SemanticChunk>)
    ensures c == ChunkAt(fullText, sentences, bps, i)
  {
    var chunkSentences := ChunkSentences(sentences, bps, i);
    var chunkText := Strings.Join(chunkSentences, " ");
    if |chunkText| < MinChunkLength {
      return None;
    }
    if |chunkText| > MaxChunkLength {
      chunkText := chunkText[..MaxChunkLength];
    }
    return Some(MakeChunk(fullText, chunkSentences[0], chunkText, i));
  }

  /** The chunk loop as written. */
  method CreateChunks(fullText: string, sentences: seq<string>, bps: seq<nat>) returns (chunks: seq<SemanticChunk>)
    ensures chunks == AllChunks(fullText, sentences, bps)
  {
    chunks := [];
    if |bps| <= 1 {
      return;
    }
    var i := 0;
    while i < |bps| - 1
      invariant 0 <= i <= |bps| - 1
      invariant chunks == Kept(ChunkFn(fullText, sentences, bps), i)
    {
      var c := ChunkOfPair(fullText, sentences, bps, i);
      KeptStep(ChunkFn(fullText, sentences, bps), i, c);
      if c.Some? {
        chunks := chunks + [c.value];
      }
      i := i + 1;
    }
  }

  lemma KeptStep<T>(at: nat -> Option<T>, i: nat, c: Option<T>)
    requires c == at(i)
    ensures Kept(at, i + 1) == Kept(at, i) + (if c.Some? then [c.value] else [])
  {
  }

  /** The single chunk `chunk_001` of a text with fewer than two sentences. */
  function ShortChunk(fullText: string): Result<seq<SemanticChunk>, string> {
    match MakeSemanticChunk("chunk_001", Strings.Strip(fullText), 0, |fullText|, Strings.WordCount(fullText), None, None)
    case Ok(c) => Ok([c])
    case Err(e) => Err(e)
  }

  /**
   * `chunk_text`: a text with fewer than two sentences is its own single chunk;
   * otherwise the chunks between the breakpoints the similarities give.
   */
  method ChunkText(fullText: string, pieces: seq<string>, similarity: nat -> real, percentile: seq<real> -> real)
    returns (r: Result<seq<SemanticChunk>, string>)
    ensures var sentences := Sentences(pieces);
      var sims := Sims(similarity, |sentences|);
      r == if |sentences| < 2 then ShortChunk(fullText)
           else Ok(AllChunks(fullText, sentences, Breakpoints(sims, percentile(sims), |sentences|)))
  {
    var sentences := Sentences(pieces);
    if |sentences| < 2 {
      return ShortChunk(fullText);
    }
    var sims := Similarities(|sentences|, similarity);
    var bps := FindBreakpoints(sims, percentile(sims), |sentences|);
    var chunks := CreateChunks(fullText, sentences, bps);
    return Ok(chunks);
  }

  /** The single chunk of a short text is refused exactly when the text is blank. */
  lemma ShortTextChunk(fullText: string)
    ensures var r := ShortChunk(fullText);
      && (r.Err? <==> Strings.IsBlank(fullText))
      && (r.Ok? ==> |r.value| == 1 && r.value[0].id == "chunk_001" && r.value[0].startChar == 0
                    && r.value[0].endChar == |fullText| && r.value[0].text == Strings.Strip(fullText))
  {
    Strings.StripEmptyIffBlank(fullText);
    Strings.StripEmptyIffBlank(Strings.Strip(fullText));
    Strings.StripIdempotent(fullText);
  }
}
