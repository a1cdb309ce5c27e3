/**
 * The JavaScript string operations the components rely on: `trim`, `toLowerCase`,
 * `includes`, `indexOf`, `split`, `replace` of a first occurrence, `substring`.
 * Strings are sequences of characters; lower-casing is modelled on ASCII letters only.
 */
module Strings {
  import opened Wrappers
  import opened Seqs

  /** The characters that `String.prototype.trim` removes and that `\s` matches in a regular expression. */
  predicate IsWhitespace(c: char) {
    || c == ' ' || c == '\t' || c == '\n' || c == '\U{B}' || c == '\U{C}' || c == '\r'
    || c == '\U{A0}' || c == '\U{1680}' || ('\U{2000}' <= c <= '\U{200A}')
    || c == '\U{2028}' || c == '\U{2029}' || c == '\U{202F}' || c == '\U{205F}'
    || c == '\U{3000}' || c == '\U{FEFF}'
  }

  predicate IsDigit(c: char) {
    '0' <= c <= '9'
  }

  predicate IsUpper(c: char) {
    'A' <= c <= 'Z'
  }

  function LowerChar(c: char): char {
    if IsUpper(c) then (c as int + 32) as char else c
  }

  /** `s.toLowerCase()`. */
  function ToLower(s: string): (r: string)
    ensures |r| == |s|
    ensures forall i :: 0 <= i < |r| ==> !IsUpper(r[i])
    ensures forall i :: 0 <= i < |s| && !IsUpper(s[i]) ==> r[i] == s[i]
  {
    seq(|s|, i requires 0 <= i < |s| => LowerChar(s[i]))
  }

  lemma ToLowerIdempotent(s: string)
    ensures ToLower(ToLower(s)) == ToLower(s)
  {
  }

  /** `s.trimStart()`: drops the leading whitespace. */
  function TrimStart(s: string): (r: string)
    ensures |r| <= |s| && r == s[|s| - |r|..]
    decreases |s|
  {
    if s != [] && IsWhitespace(s[0]) then TrimStart(s[1..]) else s
  }

  /** `trimStart` removes exactly the leading whitespace. */
  lemma {:induction false} TrimStartFacts(s: string)
    ensures TrimStart(s) == [] || !IsWhitespace(TrimStart(s)[0])
    ensures forall i :: 0 <= i < |s| - |TrimStart(s)| ==> IsWhitespace(s[i])
    decreases |s|
  {
    if s != [] && IsWhitespace(s[0]) {
      TrimStartFacts(s[1..]);
    }
  }

  lemma TrimStartOfNonWhite(s: string)
    requires s == [] || !IsWhitespace(s[0])
    ensures TrimStart(s) == s
  {
  }

  /** `s.trimEnd()`: drops the trailing whitespace. */
  function TrimEnd(s: string): (r: string)
    ensures |r| <= |s| && r == s[..|r|]
    decreases |s|
  {
    if s != [] && IsWhitespace(s[|s| - 1]) then TrimEnd(s[..|s| - 1]) else s
  }

  /** `trimEnd` removes exactly the trailing whitespace. */
  lemma {:induction false} TrimEndFacts(s: string)
    ensures TrimEnd(s) == [] || !IsWhitespace(TrimEnd(s)[|TrimEnd(s)| - 1])
    ensures forall i :: |TrimEnd(s)| <= i < |s| ==> IsWhitespace(s[i])
    decreases |s|
  {
    if s != [] && IsWhitespace(s[|s| - 1]) {
      TrimEndFacts(s[..|s| - 1]);
    }
  }

  lemma TrimEndOfNonWhite(s: string)
    requires s == [] || !IsWhitespace(s[|s| - 1])
    ensures TrimEnd(s) == s
  {
  }

  /** `s.trim()`. */
  function Trim(s: string): string {
    TrimEnd(TrimStart(s))
  }

  /**
   * `trim` leaves neither end on whitespace, and it gives the empty string exactly
   * when the text is all whitespace.
   */
  lemma TrimFacts(s: string)
    ensures var r := Trim(s);
      |r| <= |s|
      && (r == [] || (!IsWhitespace(r[0]) && !IsWhitespace(r[|r| - 1])))
      && (r == [] <==> forall i :: 0 <= i < |s| ==> IsWhitespace(s[i]))
  {
    var t := TrimStart(s);
    var r := TrimEnd(t);
    TrimStartFacts(s);
    TrimEndFacts(t);
    if r != [] {
      assert r[0] == t[0];
    }
  }

  /** Text that starts and ends on something other than whitespace is its own trim. */
  lemma TrimOfNonWhite(s: string)
    requires s == [] || (!IsWhitespace(s[0]) && !IsWhitespace(s[|s| - 1]))
    ensures Trim(s) == s
  {
    TrimStartOfNonWhite(s);
    TrimEndOfNonWhite(s);
  }

  lemma TrimIdempotent(s: string)
    ensures Trim(Trim(s)) == Trim(s)
  {
    TrimFacts(s);
    TrimOfNonWhite(Trim(s));
  }

  /** `s.toLowerCase().trim()`. */
  function LowerTrimmed(s: string): string {
    Trim(ToLower(s))
  }

  lemma LowerCharKeepsWhitespace(c: char)
    ensures IsWhitespace(LowerChar(c)) == IsWhitespace(c)
  {
  }

  lemma {:induction false} TrimStartOfLower(s: string)
    ensures TrimStart(ToLower(s)) == ToLower(TrimStart(s))
    decreases |s|
  {
    if s != [] {
      LowerCharKeepsWhitespace(s[0]);
      assert ToLower(s)[0] == LowerChar(s[0]);
      if IsWhitespace(s[0]) {
        assert ToLower(s)[1..] == ToLower(s[1..]);
        TrimStartOfLower(s[1..]);
      }
    }
  }

  lemma {:induction false} TrimEndOfLower(s: string)
    ensures TrimEnd(ToLower(s)) == ToLower(TrimEnd(s))
    decreases |s|
  {
    if s != [] {
      LowerCharKeepsWhitespace(s[|s| - 1]);
      assert ToLower(s)[|s| - 1] == LowerChar(s[|s| - 1]);
      if IsWhitespace(s[|s| - 1]) {
        assert ToLower(s)[..|s| - 1] == ToLower(s[..|s| - 1]);
        TrimEndOfLower(s[..|s| - 1]);
      }
    }
  }

  /** Lower-casing and trimming can be done in either order. */
  lemma TrimOfLower(s: string)
    ensures Trim(ToLower(s)) == ToLower(Trim(s))
  {
    TrimStartOfLower(s);
    TrimEndOfLower(TrimStart(s));
  }

  /** `toLowerCase().trim()` gives the same result on text already lower-cased or trimmed. */
  lemma LowerTrimmedStable(s: string)
    ensures LowerTrimmed(ToLower(s)) == LowerTrimmed(s)
    ensures LowerTrimmed(Trim(s)) == LowerTrimmed(s)
  {
    ToLowerIdempotent(s);
    TrimOfLower(Trim(s));
    TrimOfLower(s);
    TrimIdempotent(s);
  }

  predicate StartsWith(s: string, prefix: string) {
    |prefix| <= |s| && s[..|prefix|] == prefix
  }

  predicate EndsWith(s: string, suffix: string) {
    |suffix| <= |s| && s[|s| - |suffix|..] == suffix
  }

  /** `t` occurs in `s` at position `i`. */
  predicate OccursAt(s: string, t: string, i: int) {
    0 <= i && i + |t| <= |s| && s[i..i + |t|] == t
  }

  /** An occurrence after the first position is an occurrence in the tail. */
  lemma OccursInTail(s: string, t: string, j: int)
    requires s != [] && 0 < j
    ensures OccursAt(s, t, j) <==> OccursAt(s[1..], t, j - 1)
  {
    if j + |t| <= |s| {
      assert s[1..][j - 1..j - 1 + |t|] == s[j..j + |t|];
    }
  }

  /** `s.indexOf(t)`, with `None` for JavaScript's -1. */
  function IndexOf(s: string, t: string): (r: Option<nat>)
    ensures r.Some? ==> OccursAt(s, t, r.value) && forall j :: 0 <= j < r.value ==> !OccursAt(s, t, j)
    ensures r.None? ==> forall j :: !OccursAt(s, t, j)
    decreases |s|
  {
    if |s| < |t| then None
    else if s[..|t|] == t then Some(0)
    else
      assert !OccursAt(s, t, 0);
      assert s != [];
      match IndexOf(s[1..], t)
      case None =>
        assert forall j :: !OccursAt(s, t, j) by {
          forall j | 0 < j {
            OccursInTail(s, t, j);
          }
        }
        None
      case Some(k) =>
        OccursInTail(s, t, k + 1);
        assert forall j :: 0 <= j < k + 1 ==> !OccursAt(s, t, j) by {
          forall j | 0 < j < k + 1 {
            OccursInTail(s, t, j);
          }
        }
        Some(k + 1)
  }

  /** `indexOf` finds the first occurrence. */
  lemma IndexOfFirst(s: string, t: string, i: nat)
    requires OccursAt(s, t, i)
    requires forall j :: 0 <= j < i ==> !OccursAt(s, t, j)
    ensures IndexOf(s, t) == Some(i)
  {
  }

  /** `s.includes(t)`. */
  predicate Contains(s: string, t: string)
    ensures Contains(s, t) <==> exists i :: OccursAt(s, t, i)
  {
    IndexOf(s, t).Some?
  }

  /** Joins `parts` with `sep` between neighbours (`parts.join(sep)`). */
  function Join(parts: seq<string>, sep: string): string
    decreases |parts|
  {
    if parts == [] then ""
    else if |parts| == 1 then parts[0]
    else parts[0] + sep + Join(parts[1..], sep)
  }

  /** `s.split(sep)` for a non-empty separator string. */
  function SplitOn(s: string, sep: string): (parts: seq<string>)
    requires |sep| > 0
    ensures |parts| >= 1
    ensures forall k :: 0 <= k < |parts| ==> !Contains(parts[k], sep)
    ensures Join(parts, sep) == s
    decreases |s|
  {
    match IndexOf(s, sep)
    case None => [s]
    case Some(i) =>
      var head := s[..i];
      var rest := SplitOn(s[i + |sep|..], sep);
      assert !Contains(head, sep) by {
        forall j | 0 <= j && j + |sep| <= |head| ensures !OccursAt(head, sep, j) {
          assert head[j..j + |sep|] == s[j..j + |sep|];
          assert j < i && !OccursAt(s, sep, j);
        }
      }
      assert s == head + sep + s[i + |sep|..];
      [head] + rest
  }

  /** The first piece of a split is the text before the first separator. */
  lemma SplitOnHead(s: string, sep: string, i: nat)
    requires |sep| > 0 && IndexOf(s, sep) == Some(i)
    ensures SplitOn(s, sep)[0] == s[..i]
  {
  }

  /** Splitting on one character: the text before its first occurrence, then the split of the rest. */
  lemma SplitOnFirstChar(head: string, c: char, rest: string)
    requires forall i :: 0 <= i < |head| ==> head[i] != c
    ensures SplitOn(head + [c] + rest, [c]) == [head] + SplitOn(rest, [c])
  {
    var s := head + [c] + rest;
    assert OccursAt(s, [c], |head|) by {
      assert s[|head|..|head| + 1] == [c];
    }
    forall j | 0 <= j < |head|
      ensures !OccursAt(s, [c], j)
    {
      assert s[j..j + 1] == [head[j]];
    }
    IndexOfFirst(s, [c], |head|);
    assert s[..|head|] == head;
    assert s[|head| + 1..] == rest;
  }

  /** `s.replace(pattern, replacement)` with a string pattern: only the first occurrence is replaced. */
  function ReplaceFirst(s: string, pattern: string, replacement: string): (r: string)
    ensures IndexOf(s, pattern).None? ==> r == s
    ensures IndexOf(s, pattern).Some? ==>
      var i := IndexOf(s, pattern).value;
      r == s[..i] + replacement + s[i + |pattern|..]
  {
    match IndexOf(s, pattern)
    case None => s
    case Some(i) => s[..i] + replacement + s[i + |pattern|..]
  }

  /** `s.replace(/[^\d]/g, "")`: the digits of `s`, in order. */
  function DigitsOnly(s: string): (r: string)
    ensures forall i :: 0 <= i < |r| ==> IsDigit(r[i])
    ensures IsSubsequence(r, s)
  {
    KeepIsSubsequence(s, IsDigit);
    Keep(s, IsDigit)
  }

  lemma NoDigitsInWhitespace(w: string)
    requires forall i :: 0 <= i < |w| ==> IsWhitespace(w[i])
    ensures Keep(w, IsDigit) == []
  {
    KeepNone(w, IsDigit);
  }

  lemma TrimStartStep(s: string)
    requires s != [] && IsWhitespace(s[0])
    ensures TrimStart(s) == TrimStart(s[1..])
  {
  }

  lemma DigitsOfWhitespaceHead(s: string)
    requires s != [] && IsWhitespace(s[0])
    ensures Keep(s, IsDigit) == Keep(s[1..], IsDigit)
  {
    assert s == [s[0]] + s[1..];
    NoDigitsInWhitespace([s[0]]);
    KeepConcat([s[0]], s[1..], IsDigit);
  }

  lemma {:induction false} DigitsOfTrimStart(s: string)
    ensures Keep(TrimStart(s), IsDigit) == Keep(s, IsDigit)
    decreases |s|
  {
    if s != [] && IsWhitespace(s[0]) {
      DigitsOfTrimStart(s[1..]);
      TrimStartStep(s);
      DigitsOfWhitespaceHead(s);
    }
  }

  lemma TrimEndStep(s: string)
    requires s != [] && IsWhitespace(s[|s| - 1])
    ensures TrimEnd(s) == TrimEnd(s[..|s| - 1])
  {
  }

  lemma DigitsOfWhitespaceLast(s: string)
    requires s != [] && IsWhitespace(s[|s| - 1])
    ensures Keep(s, IsDigit) == Keep(s[..|s| - 1], IsDigit)
  {
    assert !IsDigit(s[|s| - 1]);
  }

  lemma {:induction false} DigitsOfTrimEnd(s: string)
    ensures Keep(TrimEnd(s), IsDigit) == Keep(s, IsDigit)
    decreases |s|
  {
    if s != [] && IsWhitespace(s[|s| - 1]) {
      DigitsOfTrimEnd(s[..|s| - 1]);
      TrimEndStep(s);
      DigitsOfWhitespaceLast(s);
    }
  }

  /** Trimming removes no digit. */
  lemma DigitsOnlyOfTrim(s: string)
    ensures DigitsOnly(Trim(s)) == DigitsOnly(s)
  {
    DigitsOfTrimStart(s);
    DigitsOfTrimEnd(TrimStart(s));
  }

  /**
   * The truncation used for previews: a string longer than `n` becomes its first `n`
   * characters followed by "...", a shorter one is shown whole.
   */
  function Truncate(s: string, n: nat): (r: string)
    ensures |s| <= n ==> r == s
    ensures |s| > n ==> |r| == n + 3 && StartsWith(r, s[..n]) && EndsWith(r, "...")
    ensures |r| <= n + 3
  {
    if |s| > n then s[..n] + "..." else s
  }
}
