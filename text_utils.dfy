/**
 * Text helpers used before text reaches the language model: cutting a text to
 * a context budget, and cleaning extracted PDF text (dropping NUL and
 * zero-width-space characters, squeezing runs of spaces and of newlines,
 * emptying whitespace-only lines, stripping the ends).
 */
module TextUtils {
  import Strings
  import Seqs

  /**
   * `truncate_for_context`: a text within `maxTokens * 4` characters is kept;
   * a longer one is cut to that many characters, and further back to just after
   * its last period when that period lies in the last fifth, and gets "...".
   */
  function TruncateForContext(text: string, maxTokens: int): (r: string)
    ensures |text| <= maxTokens * 4 ==> r == text
    ensures |text| > maxTokens * 4 ==>
      3 <= |r| <= |text| + 3 && r[|r| - 3..] == "..." && r[..|r| - 3] == text[..|r| - 3]
    ensures |text| > maxTokens * 4 && maxTokens >= 0 ==> |r| <= maxTokens * 4 + 3
  {
    var maxChars := maxTokens * 4;
    if |text| <= maxChars then text
    else
      var truncated := Seqs.PyPrefix(text, maxChars);
      var lastPeriod := Strings.RFindChar(truncated, '.');
      if lastPeriod as real > maxChars as real * 0.8 then truncated[..lastPeriod + 1] + "..."
      else truncated + "..."
  }

  /**
   * The cut of a long text falls just after a period exactly when the last
   * period within the budget lies beyond four fifths of it; otherwise the
   * whole budget is kept. The kept part never has a period after the cut.
   */
  lemma TruncateCut(text: string, maxTokens: int)
    requires 0 <= maxTokens * 4 < |text|
    ensures var maxChars := maxTokens * 4;
      var lastPeriod := Strings.RFindChar(text[..maxChars], '.');
      && (5 * lastPeriod > 4 * maxChars ==>
            TruncateForContext(text, maxTokens) == text[..lastPeriod + 1] + "..."
            && text[lastPeriod] == '.'
            && forall j :: lastPeriod < j < maxChars ==> text[j] != '.')
      && (5 * lastPeriod <= 4 * maxChars ==> TruncateForContext(text, maxTokens) == text[..maxChars] + "...")
  {
    var maxChars := maxTokens * 4;
    var head := text[..maxChars];
    var lastPeriod := Strings.RFindChar(head, '.');
    assert Seqs.PyPrefix(text, maxChars) == head;
    FourFifths(lastPeriod, maxChars);
    if 5 * lastPeriod > 4 * maxChars {
      assert head[..lastPeriod + 1] == text[..lastPeriod + 1];
      forall j | lastPeriod < j < maxChars ensures text[j] != '.' {
        assert head[j] == text[j];
      }
    }
  }

  /** The real-valued comparison with four fifths of the budget, in integers. */
  lemma FourFifths(p: int, m: int)
    ensures (p as real > m as real * 0.8) <==> (5 * p > 4 * m)
  {
  }

  /** `s.replace(c, '')`. */
  function RemoveChar(s: string, c: char): (r: string)
    ensures c !in r
    ensures forall i :: 0 <= i < |r| ==> r[i] in s
  {
    Seqs.Filter(s, x => x != c)
  }

  /**
   * The replacement of every run of more than `k` copies of `c` by exactly `k`
   * copies (`re.sub(' {2,}', ' ', s)` with `k == 1`, `re.sub('\n{3,}', '\n\n', s)`
   * with `k == 2`). `n` is the length of the run of `c` just before `s`.
   */
  function Squeeze(s: string, c: char, k: nat, n: nat): (r: string)
    ensures |r| <= |s|
    ensures forall i :: 0 <= i < |r| ==> r[i] in s
  {
    if s == [] then []
    else if s[0] != c then [s[0]] + Squeeze(s[1..], c, k, 0)
    else if n < k then [c] + Squeeze(s[1..], c, k, n + 1)
    else Squeeze(s[1..], c, k, n + 1)
  }

  /**
   * Reading `s` after a run of `m` copies of `c`, no run of `c` grows beyond
   * `k`: the reference definition of what squeezing achieves.
   */
  predicate RunsAtMost(s: string, c: char, k: nat, m: nat) {
    s == [] || (if s[0] == c then m + 1 <= k && RunsAtMost(s[1..], c, k, m + 1) else RunsAtMost(s[1..], c, k, 0))
  }

  /** Squeezing leaves no run of `c` longer than `k`. */
  lemma {:induction false} SqueezeRuns(s: string, c: char, k: nat, n: nat)
    requires k >= 1
    ensures RunsAtMost(Squeeze(s, c, k, n), c, k, Seqs.Min(n, k))
  {
    if s != [] {
      if s[0] != c {
        SqueezeRuns(s[1..], c, k, 0);
      } else {
        SqueezeRuns(s[1..], c, k, n + 1);
      }
    }
  }

  /** Squeezing only drops copies of `c`: every other character stays, in order. */
  lemma {:induction false} SqueezeKeepsOthers(s: string, c: char, k: nat, n: nat)
    ensures Seqs.Filter(Squeeze(s, c, k, n), x => x != c) == Seqs.Filter(s, x => x != c)
  {
    if s != [] {
      var rest := Squeeze(s[1..], c, k, if s[0] != c then 0 else n + 1);
      SqueezeKeepsOthers(s[1..], c, k, if s[0] != c then 0 else n + 1);
      if s[0] != c || n < k {
        Seqs.FilterAppend([s[0]], rest, x => x != c);
      }
    }
  }

  /** Squeezing keeps the first character when the run before it is short. */
  lemma SqueezeFirst(s: string, c: char, k: nat, n: nat)
    requires s != [] && n < k
    ensures Squeeze(s, c, k, n) != [] && Squeeze(s, c, k, n)[0] == s[0]
  {
  }

  /** A squeezed string ends like the original when that ends in another character. */
  lemma {:induction false} SqueezeLast(s: string, c: char, k: nat, n: nat)
    requires s != [] && s[|s| - 1] != c
    ensures var r := Squeeze(s, c, k, n); r != [] && r[|r| - 1] == s[|s| - 1]
  {
    if |s| > 1 {
      SqueezeLast(s[1..], c, k, if s[0] != c then 0 else n + 1);
    }
  }

  predicate NoDoubleSpace(s: string) {
    forall i :: 0 <= i < |s| - 1 ==> !(s[i] == ' ' && s[i + 1] == ' ')
  }

  /** With runs of spaces at most one long, no two spaces are adjacent. */
  lemma {:induction false} SingleRunsNoDouble(s: string, m: nat)
    requires m <= 1 && RunsAtMost(s, ' ', 1, m)
    ensures NoDoubleSpace(s)
  {
    if s != [] {
      SingleRunsNoDouble(s[1..], if s[0] == ' ' then 1 else 0);
      if |s| > 1 && s[0] == ' ' {
        assert s[1..][0] == s[1];
      }
    }
  }

  /** Squeezing another character creates no adjacent spaces. */
  lemma {:induction false} SqueezeNoDouble(s: string, c: char, k: nat, n: nat)
    requires c != ' ' && k >= 1 && NoDoubleSpace(s)
    ensures NoDoubleSpace(Squeeze(s, c, k, n))
  {
    if s != [] {
      var n' := if s[0] != c then 0 else n + 1;
      assert NoDoubleSpace(s[1..]);
      SqueezeNoDouble(s[1..], c, k, n');
      if s[0] == ' ' && |s| > 1 {
        SqueezeFirst(s[1..], c, k, 0);
      }
    }
  }

  /** What cleaning promises: no NUL, no zero-width space, no two adjacent spaces. */
  predicate Clean(s: string) {
    (forall i :: 0 <= i < |s| ==> s[i] != '\0' && s[i] != '\U{200b}') && NoDoubleSpace(s)
  }

  lemma CleanInfix(s: string, a: int, b: int)
    requires Clean(s) && 0 <= a <= b <= |s|
    ensures Clean(s[a..b])
  {
    var t := s[a..b];
    forall i | 0 <= i < |t| - 1 ensures !(t[i] == ' ' && t[i + 1] == ' ') {
      assert t[i] == s[a + i] && t[i + 1] == s[a + i + 1];
    }
  }

  lemma CleanJoinTwo(a: string, b: string)
    requires Clean(a) && Clean(b)
    ensures Clean(a + "\n" + b)
  {
    var s := a + "\n" + b;
    forall i | 0 <= i < |s| - 1 ensures !(s[i] == ' ' && s[i + 1] == ' ') {
      if i + 1 < |a| {
        assert s[i] == a[i] && s[i + 1] == a[i + 1];
      } else if i > |a| {
        assert s[i] == b[i - |a| - 1] && s[i + 1] == b[i - |a|];
      }
    }
  }

  /** Cleanliness holds of a newline-join exactly when it holds of each part. */
  lemma {:induction false} CleanJoin(parts: seq<string>)
    ensures Clean(Strings.Join(parts, "\n")) <==> forall j :: 0 <= j < |parts| ==> Clean(parts[j])
  {
    if |parts| > 1 {
      var rest := Strings.Join(parts[1..], "\n");
      var s := parts[0] + "\n" + rest;
      CleanJoin(parts[1..]);
      if Clean(s) {
        CleanInfix(s, 0, |parts[0]|);
        CleanInfix(s, |parts[0]| + 1, |s|);
        assert s[..|parts[0]|] == parts[0];
        assert s[|parts[0]| + 1..] == rest;
        forall j | 0 <= j < |parts| ensures Clean(parts[j]) {
          if j > 0 {
            assert parts[j] == parts[1..][j - 1];
          }
        }
      } else {
        if forall j :: 0 <= j < |parts| ==> Clean(parts[j]) {
          assert forall j :: 0 <= j < |parts| - 1 ==> parts[1..][j] == parts[j + 1];
          CleanJoinTwo(parts[0], rest);
        }
      }
    }
  }

  /**
   * `[line if line.strip() else '' for line in lines]`; a line strips to the
   * empty string exactly when it is blank (`Strings.StripEmptyIffBlank`).
   */
  function BlankLines(lines: seq<string>): (r: seq<string>)
    ensures |r| == |lines|
  {
    seq(|lines|, j requires 0 <= j < |lines| => if Strings.IsBlank(lines[j]) then "" else lines[j])
  }

  /** The lines after blanking: each is empty or has a non-whitespace character. */
  lemma BlankLinesFacts(lines: seq<string>)
    ensures forall j :: 0 <= j < |lines| ==> BlankLines(lines)[j] == "" || !Strings.IsBlank(BlankLines(lines)[j])
  {
  }

  /** The character-level steps of cleaning: the removals and both squeezes. */
  function Squeezed(text: string): string {
    var t := RemoveChar(RemoveChar(text, '\0'), '\U{200b}');
    Squeeze(Squeeze(t, ' ', 1, 0), '\n', 2, 0)
  }

  /** The whitespace-only lines of the squeezed text emptied, before the final strip. */
  function Blanked(text: string): string {
    Strings.Join(BlankLines(Strings.Split(Squeezed(text), '\n')), "\n")
  }

  /**
   * `clean_text` as written: no NUL, no zero-width space, no two adjacent
   * spaces, and no whitespace at either end.
   */
  function CleanText(text: string): (r: string)
    ensures Clean(r)
    ensures Strings.Strip(r) == r
  {
    BlankedIsClean(text);
    StripClean(Blanked(text));
    Strings.StripIdempotent(Blanked(text));
    Strings.Strip(Blanked(text))
  }

  lemma SqueezedIsClean(text: string)
    ensures Clean(Squeezed(text))
  {
    var t := RemoveChar(RemoveChar(text, '\0'), '\U{200b}');
    var u := Squeeze(t, ' ', 1, 0);
    SqueezeRuns(t, ' ', 1, 0);
    SingleRunsNoDouble(u, 0);
    SqueezeNoDouble(u, '\n', 2, 0);
  }

  lemma BlankedIsClean(text: string)
    ensures Clean(Blanked(text))
  {
    var lines := Strings.Split(Squeezed(text), '\n');
    SqueezedIsClean(text);
    CleanJoin(lines);
    CleanJoin(BlankLines(lines));
  }

  /** Stripping keeps a clean text clean. */
  lemma StripClean(b: string)
    requires Clean(b)
    ensures Clean(Strings.Strip(b))
  {
    var r := Strings.Strip(b);
    var i := |b| - |Strings.LStrip(b)|;
    Strings.StripWindow(b);
    CleanWindow(b, i, i + |r|, r);
  }

  /** `CleanInfix` for a string already known to be that infix. */
  lemma CleanWindow(s: string, a: int, b: int, t: string)
    requires Clean(s) && 0 <= a <= b <= |s| && t == s[a..b]
    ensures Clean(t)
  {
    CleanInfix(s, a, b);
  }


  /** A string that holds no `c` is left alone by its removal. */
  lemma {:induction false} RemoveAbsent(s: string, c: char)
    requires c !in s
    ensures RemoveChar(s, c) == s
  {
    if s != [] {
      assert c !in s[1..];
      RemoveAbsent(s[1..], c);
      assert s == [s[0]] + s[1..];
    }
  }

  /** A string whose runs are already short is left alone by squeezing. */
  lemma {:induction false} SqueezeShort(s: string, c: char, k: nat, n: nat)
    requires RunsAtMost(s, c, k, n)
    ensures Squeeze(s, c, k, n) == s
  {
    if s != [] {
      SqueezeShort(s[1..], c, k, if s[0] == c then n + 1 else 0);
      assert s == [s[0]] + s[1..];
    }
  }

  lemma RunsCons(x: char, t: string, c: char, k: nat, m: nat)
    ensures RunsAtMost([x] + t, c, k, m) ==
      if x == c then m + 1 <= k && RunsAtMost(t, c, k, m + 1) else RunsAtMost(t, c, k, 0)
  {
    assert ([x] + t)[1..] == t;
  }

  /** The sample has single spaces and single newlines only. */
  lemma SampleRuns()
    ensures RunsAtMost("a\n \n \nb", ' ', 1, 0) && RunsAtMost("a\n \n \nb", '\n', 2, 0)
  {
    RunsCons('b', "", ' ', 1, 0);
    RunsCons('b', "", '\n', 2, 1);
    assert "b" == ['b'] + "";
    RunsCons('\n', "b", ' ', 1, 1);
    RunsCons('\n', "b", '\n', 2, 0);
    assert "\nb" == ['\n'] + "b";
    RunsCons(' ', "\nb", ' ', 1, 0);
    RunsCons(' ', "\nb", '\n', 2, 1);
    assert " \nb" == [' '] + "\nb";
    RunsCons('\n', " \nb", ' ', 1, 1);
    RunsCons('\n', " \nb", '\n', 2, 0);
    assert "\n \nb" == ['\n'] + " \nb";
    RunsCons(' ', "\n \nb", ' ', 1, 0);
    RunsCons(' ', "\n \nb", '\n', 2, 1);
    assert " \n \nb" == [' '] + "\n \nb";
    RunsCons('\n', " \n \nb", ' ', 1, 0);
    RunsCons('\n', " \n \nb", '\n', 2, 0);
    assert "\n \n \nb" == ['\n'] + " \n \nb";
    RunsCons('a', "\n \n \nb", ' ', 1, 0);
    RunsCons('a', "\n \n \nb", '\n', 2, 0);
    assert "a\n \n \nb" == ['a'] + "\n \n \nb";
  }

  lemma SampleSqueezed()
    ensures Squeezed("a\n \n \nb") == "a\n \n \nb"
  {
    var s := "a\n \n \nb";
    assert '\0' !in s && '\U{200b}' !in s;
    RemoveAbsent(s, '\0');
    RemoveAbsent(s, '\U{200b}');
    SampleRuns();
    SqueezeShort(s, ' ', 1, 0);
    SqueezeShort(s, '\n', 2, 0);
  }

  /** One step of splitting at a character other than the separator. */
  lemma SplitOther(c: char, t: string, sep: char, first: string, more: seq<string>)
    requires c != sep && Strings.Split(t, sep) == [first] + more
    ensures Strings.Split([c] + t, sep) == [[c] + first] + more
  {
    assert ([c] + t)[1..] == t;
  }

  /** One step of splitting at the separator. */
  lemma SplitAtSep(t: string, sep: char)
    ensures Strings.Split([sep] + t, sep) == [""] + Strings.Split(t, sep)
  {
    assert ([sep] + t)[1..] == t;
  }

  lemma SampleSplitTail()
    ensures Strings.Split(" \nb", '\n') == [" ", "b"]
  {
    assert Strings.Split("", '\n') == [""];
    SplitOther('b', "", '\n', "", []);
    assert "b" == ['b'] + "";
    assert [['b'] + ""] + [] == ["b"];
    SplitAtSep("b", '\n');
    assert "\nb" == ['\n'] + "b";
    SplitOther(' ', "\nb", '\n', "", ["b"]);
    assert " \nb" == [' '] + "\nb";
    assert [' '] + "" == " ";
    assert [[' '] + ""] + ["b"] == [" ", "b"];
  }

  lemma SampleSplitMiddle()
    ensures Strings.Split(" \n \nb", '\n') == [" ", " ", "b"]
  {
    SampleSplitTail();
    SplitAtSep(" \nb", '\n');
    assert "\n \nb" == ['\n'] + " \nb";
    SplitOther(' ', "\n \nb", '\n', "", [" ", "b"]);
    assert " \n \nb" == [' '] + "\n \nb";
    assert [' '] + "" == " ";
    assert [[' '] + ""] + [" ", "b"] == [" ", " ", "b"];
  }

  lemma SampleSplit()
    ensures Strings.Split("a\n \n \nb", '\n') == ["a", " ", " ", "b"]
  {
    SampleSplitMiddle();
    SplitAtSep(" \n \nb", '\n');
    assert "\n \n \nb" == ['\n'] + " \n \nb";
    SplitOther('a', "\n \n \nb", '\n', "", [" ", " ", "b"]);
    assert "a\n \n \nb" == ['a'] + "\n \n \nb";
    assert ['a'] + "" == "a";
    assert [['a'] + ""] + [" ", " ", "b"] == ["a", " ", " ", "b"];
  }

  lemma SampleBlankLines()
    ensures BlankLines(["a", " ", " ", "b"]) == ["a", "", "", "b"]
  {
    var bl := BlankLines(["a", " ", " ", "b"]);
    assert !Strings.IsSpace("a"[0]) && !Strings.IsSpace("b"[0]) && Strings.IsSpace(" "[0]);
    assert bl[0] == "a" && bl[1] == "" && bl[2] == "" && bl[3] == "b";
  }

  lemma SampleJoin()
    ensures Strings.Join(BlankLines(["a", " ", " ", "b"]), "\n") == "a\n\n\nb"
  {
    SampleBlankLines();
    Strings.JoinCons("", ["b"], "\n");
    assert ["", "b"] == [""] + ["b"];
    Strings.JoinCons("", ["", "b"], "\n");
    assert ["", "", "b"] == [""] + ["", "b"];
    Strings.JoinCons("a", ["", "", "b"], "\n");
    assert ["a", "", "", "b"] == ["a"] + ["", "", "b"];
  }

  lemma SampleBlanked()
    ensures Blanked("a\n \n \nb") == "a\n\n\nb"
  {
    SampleJoin();
    SampleSqueezed();
    SampleSplit();
  }

  lemma SampleRunsTooLong()
    ensures !RunsAtMost("a\n\n\nb", '\n', 2, 0)
  {
    RunsCons('\n', "b", '\n', 2, 2);
    assert "\nb" == ['\n'] + "b";
    RunsCons('\n', "\nb", '\n', 2, 1);
    assert "\n\nb" == ['\n'] + "\nb";
    RunsCons('\n', "\n\nb", '\n', 2, 0);
    assert "\n\n\nb" == ['\n'] + "\n\nb";
    RunsCons('a', "\n\n\nb", '\n', 2, 0);
    assert "a\n\n\nb" == ['a'] + "\n\n\nb";
  }

  /**
   * As written, the newline squeeze runs before the whitespace-only lines are
   * emptied, so lines holding only spaces between paragraphs give back runs of
   * three or more newlines.
   */
  lemma CleanTextLeavesNewlineRuns()
    ensures CleanText("a\n \n \nb") == "a\n\n\nb"
    ensures !RunsAtMost(CleanText("a\n \n \nb"), '\n', 2, 0)
  {
    var r := "a\n\n\nb";
    assert !Strings.IsSpace(r[0]) && !Strings.IsSpace(r[|r| - 1]);
    Strings.StripOfStripped(r);
    SampleRunsTooLong();
    SampleBlanked();
  }

  /**
   * `clean_text` with the newline squeeze moved after the line blanking and
   * the strip: it keeps every promise of the original and also leaves no more
   * than two newlines in a row.
   */
  function CleanTextFixed(text: string): (r: string)
    ensures Clean(r)
    ensures RunsAtMost(r, '\n', 2, 0)
    ensures Strings.Strip(r) == r
  {
    var s := CleanText(text);
    SqueezeRuns(s, '\n', 2, 0);
    SqueezeClean(s);
    SqueezeStripped(s);
    Squeeze(s, '\n', 2, 0)
  }


  lemma SqueezeClean(s: string)
    requires Clean(s)
    ensures Clean(Squeeze(s, '\n', 2, 0))
  {
    SqueezeNoDouble(s, '\n', 2, 0);
    var r := Squeeze(s, '\n', 2, 0);
    forall i | 0 <= i < |r| ensures r[i] != '\0' && r[i] != '\U{200b}' {
      assert r[i] in s;
    }
  }

  lemma SqueezeStripped(s: string)
    requires Strings.Strip(s) == s
    ensures Strings.Strip(Squeeze(s, '\n', 2, 0)) == Squeeze(s, '\n', 2, 0)
  {
    if s != [] {
      Strings.StripIsInfix(s);
      SqueezeFirst(s, '\n', 2, 0);
      SqueezeLast(s, '\n', 2, 0);
      Strings.StripOfStripped(Squeeze(s, '\n', 2, 0));
    }
  }
}
