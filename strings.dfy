/**
 * String operations that the Python and TypeScript sources take from their
 * standard libraries: whitespace stripping, ASCII case mapping, substring
 * search, splitting and joining, and decimal formatting of integers.
 */
module Strings {
  import opened Wrappers

  /** Python's `str.isspace()` characters, which `str.strip()` and `str.split()` remove. */
  predicate IsSpace(c: char) {
    c == ' ' || ('\t' <= c <= '\r') || ('\U{1c}' <= c <= '\U{1f}') || c == '\U{85}' || c == '\U{a0}'
    || c == '\U{1680}' || ('\U{2000}' <= c <= '\U{200a}') || c == '\U{2028}' || c == '\U{2029}'
    || c == '\U{202f}' || c == '\U{205f}' || c == '\U{3000}'
  }

  /** True when every character is whitespace (so `s.strip()` is empty). */
  predicate IsBlank(s: string) {
    forall i :: 0 <= i < |s| ==> IsSpace(s[i])
  }

  /** `s.lstrip()`: drops the leading whitespace. */
  function LStrip(s: string): (r: string)
    ensures |r| <= |s| && r == s[|s| - |r|..]
    ensures r == [] || !IsSpace(r[0])
    ensures forall i :: 0 <= i < |s| - |r| ==> IsSpace(s[i])
  {
    if s == [] || !IsSpace(s[0]) then s else LStrip(s[1..])
  }

  /** `s.rstrip()`: drops the trailing whitespace. */
  function RStrip(s: string): (r: string)
    ensures |r| <= |s| && r == s[..|r|]
    ensures r == [] || !IsSpace(r[|r| - 1])
    ensures forall i :: |r| <= i < |s| ==> IsSpace(s[i])
  {
    if s == [] || !IsSpace(s[|s| - 1]) then s else RStrip(s[..|s| - 1])
  }

  /** `s.strip()`. */
  function Strip(s: string): (r: string)
  {
    RStrip(LStrip(s))
  }

  /** `s.strip()` is the middle part of `s` between two all-whitespace margins. */
  lemma StripIsInfix(s: string)
    ensures var i, r := |s| - |LStrip(s)|, Strip(s);
      && i + |r| <= |s| && r == s[i..i + |r|]
      && (forall k :: 0 <= k < i ==> IsSpace(s[k]))
      && (forall k :: i + |r| <= k < |s| ==> IsSpace(s[k]))
    ensures Strip(s) == [] || (!IsSpace(Strip(s)[0]) && !IsSpace(Strip(s)[|Strip(s)| - 1]))
  {
    StripWindow(s);
    StripTrailingMargin(s);
    StripEnds(s);
  }

  lemma StripWindow(s: string)
    ensures var i, r := |s| - |LStrip(s)|, Strip(s);
      i + |r| <= |s| && r == s[i..i + |r|]
  {
    var l := LStrip(s);
    var r := RStrip(l);
    var i := |s| - |l|;
    assert l == s[i..] && r == l[..|r|];
  }

  lemma StripTrailingMargin(s: string)
    ensures var i, r := |s| - |LStrip(s)|, Strip(s);
      forall k :: i + |r| <= k < |s| ==> IsSpace(s[k])
  {
    var l := LStrip(s);
    var r := RStrip(l);
    var i := |s| - |l|;
    assert l == s[i..];
    forall k | i + |r| <= k < |s| ensures IsSpace(s[k]) {
      var j := k - i;
      assert |r| <= j < |l|;
      assert IsSpace(l[j]);
      assert s[k] == l[j];
    }
  }

  lemma StripEnds(s: string)
    ensures Strip(s) == [] || (!IsSpace(Strip(s)[0]) && !IsSpace(Strip(s)[|Strip(s)| - 1]))
  {
    var l := LStrip(s);
    var r := RStrip(l);
    if r != [] {
      assert r[0] == l[0];
    }
  }

  /** A string strips to nothing exactly when it is all whitespace. */
  lemma StripEmptyIffBlank(s: string)
    ensures Strip(s) == [] <==> IsBlank(s)
  {
    var l := LStrip(s);
    if Strip(s) == [] {
      assert l == [];
    } else {
      StripWindow(s);
      StripEnds(s);
      var r := Strip(s);
      var i := |s| - |l|;
      assert s[i] == r[0];
    }
  }

  /** A string without leading or trailing whitespace is its own strip. */
  lemma StripOfStripped(s: string)
    requires s == [] || (!IsSpace(s[0]) && !IsSpace(s[|s| - 1]))
    ensures Strip(s) == s
  {
  }

  /** Stripping twice is stripping once. */
  lemma StripIdempotent(s: string)
    ensures Strip(Strip(s)) == Strip(s)
  {
    StripIsInfix(s);
    StripOfStripped(Strip(s));
  }

  /** ASCII upper case to lower case; every other character is left alone. */
  function Lower(c: char): (d: char)
    ensures 'A' <= c <= 'Z' ==> d as int == c as int + 32
    ensures !('A' <= c <= 'Z') ==> d == c
  {
    if 'A' <= c <= 'Z' then (c as int + 32) as char else c
  }

  /** `s.lower()` / `s.toLowerCase()`, restricted to ASCII letters. */
  function ToLower(s: string): (r: string)
    ensures |r| == |s|
    ensures forall i :: 0 <= i < |s| ==> r[i] == Lower(s[i])
  {
    seq(|s|, i requires 0 <= i < |s| => Lower(s[i]))
  }

  lemma ToLowerIdempotent(s: string)
    ensures ToLower(ToLower(s)) == ToLower(s)
  {
  }

  lemma ToLowerAppend(a: string, b: string)
    ensures ToLower(a + b) == ToLower(a) + ToLower(b)
  {
  }

  predicate StartsWith(s: string, p: string) {
    |p| <= |s| && s[..|p|] == p
  }

  predicate EndsWith(s: string, p: string) {
    |p| <= |s| && s[|s| - |p|..] == p
  }

  /** The window of `s` that starts at `i` equals `sub`. */
  predicate MatchAt(s: string, sub: string, i: int) {
    0 <= i <= |s| - |sub| && s[i..i + |sub|] == sub
  }

  /** `sub in s`: some window of `s` equals `sub`. */
  ghost predicate Occurs(s: string, sub: string) {
    exists i :: MatchAt(s, sub, i)
  }

  /** `sub in s`, computed by scanning the windows of `s` from the left. */
  function Contains(s: string, sub: string): (b: bool)
    ensures b <==> Occurs(s, sub)
    decreases |s|
  {
    if StartsWith(s, sub) then
      assert MatchAt(s, sub, 0);
      true
    else if |s| <= |sub| then
      assert forall i :: MatchAt(s, sub, i) ==> i == 0;
      false
    else
      var b := Contains(s[1..], sub);
      ShiftOccurs(s, sub);
      b
  }

  /** `any(t in s for t in terms)`: some term of the list occurs in `s`. */
  function ContainsAny(s: string, terms: seq<string>): (b: bool)
    ensures b <==> exists t :: t in terms && Occurs(s, t)
  {
    if terms == [] then false
    else Contains(s, terms[0]) || ContainsAny(s, terms[1..])
  }

  /** A window of `s` other than the first is a window of `s[1..]`. */
  lemma ShiftOccurs(s: string, sub: string)
    requires s != [] && !StartsWith(s, sub)
    ensures Occurs(s, sub) <==> Occurs(s[1..], sub)
    ensures forall i :: MatchAt(s[1..], sub, i) <==> MatchAt(s, sub, i + 1)
  {
    forall i ensures MatchAt(s[1..], sub, i) <==> MatchAt(s, sub, i + 1) {
      if 0 <= i <= |s| - 1 - |sub| {
        assert s[1..][i..i + |sub|] == s[i + 1..i + 1 + |sub|];
      }
    }
    if Occurs(s, sub) {
      var i :| MatchAt(s, sub, i);
      assert i != 0;
      assert MatchAt(s[1..], sub, i - 1);
    }
    if Occurs(s[1..], sub) {
      var i :| MatchAt(s[1..], sub, i);
      assert MatchAt(s, sub, i + 1);
    }
  }

  /** `s.find(sub)`: the first index of `sub` in `s`, or -1. */
  function Find(s: string, sub: string): (r: int)
    ensures -1 <= r
    ensures r >= 0 ==> MatchAt(s, sub, r)
    ensures r >= 0 ==> forall j :: 0 <= j < r ==> !MatchAt(s, sub, j)
    ensures r == -1 <==> !Occurs(s, sub)
    decreases |s|
  {
    if StartsWith(s, sub) then
      assert MatchAt(s, sub, 0);
      0
    else if |s| <= |sub| then
      assert forall i :: MatchAt(s, sub, i) ==> i == 0;
      -1
    else
      var t := Find(s[1..], sub);
      ShiftOccurs(s, sub);
      assert !MatchAt(s, sub, 0);
      assert forall j :: 1 <= j ==> (MatchAt(s, sub, j) <==> MatchAt(s[1..], sub, j - 1));
      if t == -1 then -1 else t + 1
  }

  /** `s.rfind(c)` for one character: the last index of `c`, or -1. */
  function RFindChar(s: string, c: char): (r: int)
    ensures -1 <= r < |s|
    ensures r >= 0 ==> s[r] == c
    ensures forall j :: r < j < |s| ==> s[j] != c
  {
    if s == [] then -1
    else if s[|s| - 1] == c then |s| - 1
    else RFindChar(s[..|s| - 1], c)
  }

  /** `sep.join(parts)`. */
  function Join(parts: seq<string>, sep: string): string
  {
    if parts == [] then ""
    else if |parts| == 1 then parts[0]
    else parts[0] + sep + Join(parts[1..], sep)
  }

  lemma JoinCons(a: string, t: seq<string>, sep: string)
    ensures Join([a] + t, sep) == if t == [] then a else a + sep + Join(t, sep)
  {
    if t != [] {
      assert ([a] + t)[1..] == t;
    }
  }

  /** A join starts with its first part. */
  lemma JoinStartsWithFirst(parts: seq<string>, sep: string)
    requires parts != []
    ensures StartsWith(Join(parts, sep), parts[0])
  {
  }

  /** `s.split(sep)` for a one-character separator: the pieces between separators. */
  function Split(s: string, sep: char): (parts: seq<string>)
    ensures |parts| >= 1
    ensures forall k :: 0 <= k < |parts| ==> sep !in parts[k]
    ensures Join(parts, [sep]) == s
  {
    if s == [] then [""]
    else
      var rest := Split(s[1..], sep);
      if s[0] == sep then
        JoinCons("", rest, [sep]);
        assert s == [sep] + s[1..];
        [""] + rest
      else
        JoinCons(rest[0], rest[1..], [sep]);
        assert rest == [rest[0]] + rest[1..];
        JoinCons([s[0]] + rest[0], rest[1..], [sep]);
        assert s == [s[0]] + s[1..];
        [[s[0]] + rest[0]] + rest[1..]
  }

  function DigitChar(d: nat): char
    requires d < 10
  {
    "0123456789"[d]
  }

  /** Python's `str(n)` for a natural number. */
  function NatToString(n: nat): (r: string)
    ensures |r| >= 1
    ensures forall i :: 0 <= i < |r| ==> '0' <= r[i] <= '9'
    decreases n
  {
    if n < 10 then [DigitChar(n)] else NatToString(n / 10) + [DigitChar(n % 10)]
  }


  /** Python's `str(i)` for any integer: a minus sign before the digits of a negative. */
  function IntToString(i: int): string
  {
    if i < 0 then "-" + NatToString(-i) else NatToString(i)
  }

  /** Python's `f"{n:03d}"` for a natural number: at least three digits, zero-padded. */
  function ZeroPad3(n: nat): (r: string)
    ensures |r| >= 3
  {
    var d := NatToString(n);
    if |d| >= 3 then d else seq(3 - |d|, _ => '0') + d
  }

  /** `len(s.split())`: the number of maximal runs of non-whitespace characters. */
  function WordCount(s: string): (n: nat)
    ensures n <= |s|
    ensures n == 0 <==> IsBlank(s)
  {
    if s == [] then 0
    else if !IsSpace(s[0]) && (|s| == 1 || IsSpace(s[1])) then 1 + WordCount(s[1..])
    else
      assert !IsSpace(s[0]) ==> !IsSpace(s[1..][0]);
      WordCount(s[1..])
  }

  /**
   * JavaScript's `x || d` and Python's `x or d` on an optional string: an absent
   * or empty value falls back to `d`.
   */
  function OrDefault(x: Option<string>, d: string): (r: string)
    ensures x.Some? && x.value != "" ==> r == x.value
    ensures x.None? || x.value == "" ==> r == d
  {
    if x.Some? && x.value != "" then x.value else d
  }
}
