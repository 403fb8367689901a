/** Option and Result wrappers, and the .NET string operations the agent's
    code relies on (ordinal comparisons, IndexOf, Trim, Split with a count,
    Replace, ASCII case folding, decimal formatting). */
module Text {

  datatype Option<+T> = None | Some(value: T)

  datatype Result<+T, +E> = Ok(value: T) | Err(error: E)

  /** Environment.NewLine on Windows, where the program runs. */
  const NewLine: string := "\r\n"

  /** Ordinal `s.StartsWith(prefix)`. */
  predicate StartsWith(s: string, prefix: string) {
    prefix <= s
  }

  /** Ordinal `s.EndsWith(suffix)`. */
  predicate EndsWith(s: string, suffix: string) {
    |suffix| <= |s| && s[|s| - |suffix|..] == suffix
  }

  /** Ordinal `s.Contains(sub)`: `sub` occurs at some position of `s`. */
  predicate Contains(s: string, sub: string)
    decreases |s|
  {
    StartsWith(s, sub) || (|s| > 0 && Contains(s[1..], sub))
  }

  /** `s.IndexOf(c)`: the first index holding `c`, or -1. */
  function IndexOfChar(s: string, c: char): (r: int)
    ensures -1 <= r < |s|
    ensures r == -1 <==> c !in s
    ensures 0 <= r ==> s[r] == c && c !in s[..r]
  {
    if |s| == 0 then -1
    else if s[0] == c then 0
    else
      var k := IndexOfChar(s[1..], c);
      assert s[1..][..if k < 0 then 0 else k] == s[1..if k < 0 then 1 else k + 1];
      if k < 0 then -1 else k + 1
  }

  /** `char.IsWhiteSpace`: the Unicode white-space characters. */
  predicate IsWhiteSpace(c: char) {
    c == ' ' || ('\t' <= c <= '\r') || c == '\U{0085}' || c == '\U{00A0}' || c == '\U{1680}'
    || ('\U{2000}' <= c <= '\U{200A}') || c == '\U{2028}' || c == '\U{2029}' || c == '\U{202F}'
    || c == '\U{205F}' || c == '\U{3000}'
  }

  /** Removes the leading characters satisfying `drop`. */
  function TrimStartBy(s: string, drop: char -> bool): (r: string)
    ensures |r| <= |s| && r == s[|s| - |r|..]
    ensures |r| > 0 ==> !drop(r[0])
    ensures forall i :: 0 <= i < |s| - |r| ==> drop(s[i])
  {
    if |s| > 0 && drop(s[0]) then
      var t := TrimStartBy(s[1..], drop);
      assert forall i :: 1 <= i < |s| - |t| ==> s[i] == s[1..][i - 1];
      t
    else s
  }

  /** Removes the trailing characters satisfying `drop`. */
  function TrimEndBy(s: string, drop: char -> bool): (r: string)
    ensures |r| <= |s| && r == s[..|r|]
    ensures |r| > 0 ==> !drop(r[|r| - 1])
    ensures forall i :: |r| <= i < |s| ==> drop(s[i])
  {
    if |s| > 0 && drop(s[|s| - 1]) then
      var t := TrimEndBy(s[..|s| - 1], drop);
      assert forall i :: |t| <= i < |s| - 1 ==> s[i] == s[..|s| - 1][i];
      t
    else s
  }

  /** `s.Trim()`. */
  function Trim(s: string): string {
    TrimEndBy(TrimStartBy(s, IsWhiteSpace), IsWhiteSpace)
  }

  /** `s.TrimEnd()`. */
  function TrimEnd(s: string): string {
    TrimEndBy(s, IsWhiteSpace)
  }

  predicate IsQuote(c: char) {
    c == '\'' || c == '"'
  }

  /** `s.Trim('\'', '"')`. */
  function TrimQuotes(s: string): string {
    TrimEndBy(TrimStartBy(s, IsQuote), IsQuote)
  }

  /** A non-empty string with no white space at either end. */
  predicate Trimmed(s: string) {
    |s| > 0 && !IsWhiteSpace(s[0]) && !IsWhiteSpace(s[|s| - 1])
  }

  /** Trimming leaves a trimmed string as it is. */
  lemma TrimmedFixed(s: string)
    requires Trimmed(s)
    ensures Trim(s) == s
  {
    assert TrimStartBy(s, IsWhiteSpace) == s;
  }

  /** Trimming at both ends leaves no droppable character at either end. */
  lemma TrimBothEnds(s: string, drop: char -> bool)
    ensures var r := TrimEndBy(TrimStartBy(s, drop), drop);
            |r| > 0 ==> !drop(r[0]) && !drop(r[|r| - 1])
  {
    var t := TrimStartBy(s, drop);
    var r := TrimEndBy(t, drop);
    if |r| > 0 {
      assert r[0] == t[0];
    }
  }

  /** A trimmed string neither starts nor ends with white space. */
  lemma TrimProperties(s: string)
    ensures |Trim(s)| > 0 ==> !IsWhiteSpace(Trim(s)[0]) && !IsWhiteSpace(Trim(s)[|Trim(s)| - 1])
  {
    TrimBothEnds(s, IsWhiteSpace);
  }

  /** ASCII upper-case mapping, as `OrdinalIgnoreCase` compares. */
  function UpperChar(c: char): char {
    if 'a' <= c <= 'z' then (c as int - 32) as char else c
  }

  /** ASCII lower-case mapping, as `ToLower` acts on ASCII letters. */
  function LowerChar(c: char): char {
    if 'A' <= c <= 'Z' then (c as int + 32) as char else c
  }

  function ToLower(s: string): (r: string)
    ensures |r| == |s| && forall i :: 0 <= i < |s| ==> r[i] == LowerChar(s[i])
  {
    seq(|s|, i requires 0 <= i < |s| => LowerChar(s[i]))
  }

  function Fold(s: string): (r: string)
    ensures |r| == |s| && forall i :: 0 <= i < |s| ==> r[i] == UpperChar(s[i])
  {
    seq(|s|, i requires 0 <= i < |s| => UpperChar(s[i]))
  }

  /** `a.Equals(b, StringComparison.OrdinalIgnoreCase)` (ASCII letters folded). */
  predicate EqualsIgnoreCase(a: string, b: string) {
    Fold(a) == Fold(b)
  }

  /** `s.StartsWith(prefix, StringComparison.OrdinalIgnoreCase)`. */
  predicate StartsWithIgnoreCase(s: string, prefix: string) {
    |prefix| <= |s| && Fold(s[..|prefix|]) == Fold(prefix)
  }

  lemma FoldAppend(a: string, b: string)
    ensures Fold(a + b) == Fold(a) + Fold(b)
  {
  }

  /** `s.Split(new[] { sep }, count)`: at most `count` pieces, the last one keeping the rest of `s`. */
  function SplitN(s: string, sep: char, count: nat): (pieces: seq<string>)
    requires count >= 1
    ensures 1 <= |pieces| <= count
    ensures forall k :: 0 <= k < |pieces| - 1 ==> sep !in pieces[k]
    ensures |pieces| < count ==> sep !in pieces[|pieces| - 1]
    decreases count
  {
    var i := IndexOfChar(s, sep);
    if count == 1 || i < 0 then [s]
    else
      var rest := SplitN(s[i + 1..], sep, count - 1);
      assert forall k :: 1 <= k < |rest| + 1 ==> ([s[..i]] + rest)[k] == rest[k - 1];
      [s[..i]] + rest
  }

  /** Joining the pieces of a split with the separator gives the string back. */
  lemma {:induction false} SplitNJoin(s: string, sep: char, count: nat)
    requires count >= 1
    ensures Join(SplitN(s, sep, count), sep) == s
    decreases count
  {
    var i := IndexOfChar(s, sep);
    if count == 1 || i < 0 {
      assert SplitN(s, sep, count) == [s];
    } else {
      var head, tail := s[..i], s[i + 1..];
      var rest := SplitN(tail, sep, count - 1);
      SplitNJoin(tail, sep, count - 1);
      calc {
        Join(SplitN(s, sep, count), sep);
        Join([head] + rest, sep);
        { JoinCons(head, rest, sep); }
        head + [sep] + tail;
        { Around(s, i); }
        s;
      }
    }
  }

  lemma Around(s: string, i: nat)
    requires i < |s|
    ensures s[..i] + [s[i]] + s[i + 1..] == s
  {
  }

  lemma JoinCons(piece: string, rest: seq<string>, sep: char)
    requires |rest| >= 1
    ensures Join([piece] + rest, sep) == piece + [sep] + Join(rest, sep)
  {
    assert ([piece] + rest)[1..] == rest;
  }

  function Join(pieces: seq<string>, sep: char): string
    requires |pieces| >= 1
  {
    if |pieces| == 1 then pieces[0] else pieces[0] + [sep] + Join(pieces[1..], sep)
  }

  /** Splitting `a:b:rest` in three, where `a` and `b` hold no colon, gives back the three parts. */
  lemma SplitThree(a: string, b: string, rest: string, sep: char)
    requires sep !in a && sep !in b
    ensures SplitN(a + [sep] + b + [sep] + rest, sep, 3) == [a, b, rest]
  {
    var t := b + [sep] + rest;
    assert a + [sep] + b + [sep] + rest == a + [sep] + t;
    SplitStep(a, t, sep, 3);
    SplitStep(b, rest, sep, 2);
    assert SplitN(rest, sep, 1) == [rest];
    assert [a] + ([b] + [rest]) == [a, b, rest];
  }

  /** A piece free of the separator splits off first. */
  lemma SplitStep(a: string, t: string, sep: char, count: nat)
    requires sep !in a && count >= 2
    ensures SplitN(a + [sep] + t, sep, count) == [a] + SplitN(t, sep, count - 1)
  {
    var s := a + [sep] + t;
    assert s == a + ([sep] + t);
    IndexAfterFree(a, [sep] + t, sep);
    assert s[|a| + 1..] == t;
  }

  /** The first `c` of `a + t` where `a` holds none and `t` starts with one is at `|a|`. */
  lemma IndexAfterFree(a: string, t: string, c: char)
    requires c !in a && |t| > 0 && t[0] == c
    ensures IndexOfChar(a + t, c) == |a|
    ensures (a + t)[..|a|] == a
  {
    var s := a + t;
    assert s[|a|] == c;
    assert forall j :: 0 <= j < |a| ==> s[j] == a[j];
  }

  /** `s.Replace(pattern, replacement)`: every non-overlapping occurrence of `pattern`, left to right, becomes `replacement`. */
  function Replace(s: string, pattern: string, replacement: string): (r: string)
    requires |pattern| > 0
    decreases |s|
  {
    if |s| < |pattern| then s
    else if StartsWith(s, pattern) then replacement + Replace(s[|pattern|..], pattern, replacement)
    else [s[0]] + Replace(s[1..], pattern, replacement)
  }

  /** Replace leaves a string without occurrences unchanged, and otherwise puts `replacement` into it. */
  lemma {:induction false} ReplaceEffect(s: string, pattern: string, replacement: string)
    requires |pattern| > 0
    ensures !Contains(s, pattern) ==> Replace(s, pattern, replacement) == s
    ensures Contains(s, pattern) ==> Contains(Replace(s, pattern, replacement), replacement)
    decreases |s|
  {
    if |s| < |pattern| {
      if Contains(s, pattern) {
        ContainsLength(s, pattern);
      }
    } else if StartsWith(s, pattern) {
      ContainsInfix([], replacement, Replace(s[|pattern|..], pattern, replacement));
    } else {
      ReplaceEffect(s[1..], pattern, replacement);
      if Contains(s, pattern) {
        ContainsAppend([s[0]], Replace(s[1..], pattern, replacement), replacement);
      } else {
        assert !Contains(s[1..], pattern);
      }
    }
  }

  lemma {:induction false} ContainsLength(s: string, sub: string)
    requires Contains(s, sub)
    ensures |sub| <= |s|
    decreases |s|
  {
    if !StartsWith(s, sub) {
      ContainsLength(s[1..], sub);
    }
  }

  /** Whatever surrounds it, `sub` is contained in `x + sub + y`. */
  lemma {:induction false} ContainsInfix(x: string, sub: string, y: string)
    ensures Contains(x + sub + y, sub)
    decreases |x|
  {
    if |x| == 0 {
      assert x + sub + y == sub + y;
    } else {
      ContainsInfix(x[1..], sub, y);
      assert (x + sub + y)[1..] == x[1..] + sub + y;
    }
  }

  /** An occurrence in the tail is an occurrence in the whole. */
  lemma {:induction false} ContainsAppend(x: string, y: string, sub: string)
    requires Contains(y, sub)
    ensures Contains(x + y, sub)
    decreases |x|
  {
    if |x| > 0 {
      ContainsAppend(x[1..], y, sub);
      assert (x + y)[1..] == x[1..] + y;
    } else {
      assert x + y == y;
    }
  }

  /** An occurrence in the head is an occurrence in the whole. */
  lemma {:induction false} ContainsPrepend(x: string, y: string, sub: string)
    requires Contains(x, sub)
    ensures Contains(x + y, sub)
    decreases |x|
  {
    if StartsWith(x, sub) {
      assert StartsWith(x + y, sub);
    } else {
      ContainsPrepend(x[1..], y, sub);
      assert (x + y)[1..] == x[1..] + y;
    }
  }

  /** An occurrence of `sub` in an occurrence of `mid` is an occurrence in the whole. */
  lemma {:induction false} ContainsTrans(s: string, mid: string, sub: string)
    requires Contains(s, mid) && Contains(mid, sub)
    ensures Contains(s, sub)
    decreases |s|
  {
    if StartsWith(s, mid) {
      assert s == mid + s[|mid|..];
      ContainsPrepend(mid, s[|mid|..], sub);
    } else {
      ContainsTrans(s[1..], mid, sub);
    }
  }

  /** A string none of whose characters is `c` does not contain a string holding `c`. */
  lemma {:induction false} NotContainsChar(s: string, sub: string, c: char)
    requires c !in s && c in sub
    ensures !Contains(s, sub)
    decreases |s|
  {
    if |s| > 0 {
      NotContainsChar(s[1..], sub, c);
    }
  }

  function DigitChar(d: nat): char
    requires d < 10
  {
    ('0' as int + d) as char
  }

  /** Decimal digits of a natural number, most significant first, without leading zeros. */
  function NatToString(n: nat): (r: string)
    ensures |r| >= 1 && (|r| > 1 ==> r[0] != '0')
    ensures forall i :: 0 <= i < |r| ==> '0' <= r[i] <= '9'
  {
    if n < 10 then [DigitChar(n)] else NatToString(n / 10) + [DigitChar(n % 10)]
  }

  /** `int.ToString()`: a minus sign before the digits of a negative number. */
  function IntToString(n: int): string {
    if n < 0 then "-" + NatToString(-n) else NatToString(n)
  }

  /** Reading the digits back gives the number: the decimal form is faithful. */
  lemma {:induction false} NatToStringValue(n: nat)
    ensures DigitsValue(NatToString(n)) == n
  {
    if n >= 10 {
      NatToStringValue(n / 10);
      var s := NatToString(n / 10);
      assert NatToString(n) == s + [DigitChar(n % 10)];
      assert (s + [DigitChar(n % 10)])[..|s|] == s;
    }
  }

  function DigitsValue(s: string): int {
    if |s| == 0 then 0 else DigitsValue(s[..|s| - 1]) * 10 + (s[|s| - 1] as int - '0' as int)
  }

  /** `new string(' ', n)`. */
  function Spaces(n: nat): (r: string)
    ensures |r| == n && forall i :: 0 <= i < n ==> r[i] == ' '
  {
    seq(n, _ => ' ')
  }

  /** `{s,-width}`: left-aligned in a field of `width`, never cut. */
  function PadRight(s: string, width: nat): (r: string)
    ensures StartsWith(r, s) && |r| == if |s| < width then width else |s|
    ensures forall i :: |s| <= i < |r| ==> r[i] == ' '
  {
    if |s| < width then s + Spaces(width - |s|) else s
  }

  /** `{s,width}`: right-aligned in a field of `width`, never cut. */
  function PadLeft(s: string, width: nat): (r: string)
    ensures EndsWith(r, s) && |r| == if |s| < width then width else |s|
    ensures forall i :: 0 <= i < |r| - |s| ==> r[i] == ' '
  {
    if |s| < width then Spaces(width - |s|) + s else s
  }

  /** The text of `AppendLine` calls, one per line, each ended by `NewLine`. */
  function Lines(lines: seq<string>): string {
    if |lines| == 0 then "" else lines[0] + NewLine + Lines(lines[1..])
  }

  /** One line in front adds that line and a line break in front of the text. */
  lemma LinesCons(line: string, rest: seq<string>)
    ensures Lines([line] + rest) == line + NewLine + Lines(rest)
  {
    assert ([line] + rest)[1..] == rest;
  }

  /** The text of one line, a block and more lines. */
  lemma LinesConsAppend(line: string, block: seq<string>, rest: seq<string>)
    ensures Lines([line] + block + rest) == line + NewLine + Lines(block) + Lines(rest)
  {
    assert [line] + block + rest == [line] + (block + rest);
    LinesCons(line, block + rest);
    LinesAppend(block, rest);
  }

  lemma {:induction false} LinesAppend(a: seq<string>, b: seq<string>)
    ensures Lines(a + b) == Lines(a) + Lines(b)
    decreases |a|
  {
    if |a| > 0 {
      assert (a + b)[1..] == a[1..] + b;
      LinesAppend(a[1..], b);
    } else {
      assert a + b == b;
    }
  }

  /** A `StringBuilder` that is only ever appended whole lines. */
  class StringBuilder {
    var text: string

    constructor()
      ensures text == ""
    {
      text := "";
    }

    method AppendLine(line: string)
      modifies this
      ensures text == old(text) + line + NewLine
    {
      text := text + line + NewLine;
    }
  }
}
