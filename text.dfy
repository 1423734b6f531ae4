/**
 * The JavaScript string primitives the parsers and session drivers rely on: the `\s`, `\d`, `\w`
 * and `.` character classes, ASCII case folding for `/i` patterns, `includes`, `trim`,
 * `substring(0, n)`, `split('\n')`, `parseInt` on a digit run and the decimal form of a number.
 * A JavaScript string is modelled as a sequence of characters.
 */
module Text {
  import opened Wrappers

  /** ECMAScript line terminators: the characters `.` does not match. */
  predicate IsLineTerminator(c: char)
  {
    c == '\n' || c == '\r' || c == '\U{2028}' || c == '\U{2029}'
  }

  /** ECMAScript WhiteSpace and LineTerminator: the `\s` class, and what `trim()` strips. */
  predicate IsSpace(c: char)
  {
    || c == '\t' || c == '\n' || c == '\U{000B}' || c == '\U{000C}' || c == '\r' || c == ' '
    || c == '\U{00A0}' || c == '\U{1680}' || ('\U{2000}' <= c <= '\U{200A}')
    || c == '\U{2028}' || c == '\U{2029}' || c == '\U{202F}' || c == '\U{205F}'
    || c == '\U{3000}' || c == '\U{FEFF}'
  }

  /** The `\d` class. */
  predicate IsDigit(c: char)
  {
    '0' <= c <= '9'
  }

  /** The `\w` class (without the `u` flag, also under `/i`). */
  predicate IsWordChar(c: char)
  {
    ('a' <= c <= 'z') || ('A' <= c <= 'Z') || IsDigit(c) || c == '_'
  }

  /** The character classes that occur in the device-output patterns. */
  datatype CharClass = Space | Digit | Word | NotLineEnd | ColonOrSpace

  predicate InClass(c: char, k: CharClass)
  {
    match k
    case Space => IsSpace(c)
    case Digit => IsDigit(c)
    case Word => IsWordChar(c)
    case NotLineEnd => !IsLineTerminator(c)
    case ColonOrSpace => c == ':' || IsSpace(c)
  }

  /**
   * Case folding of a `/i` pattern without the `u` flag, restricted to ASCII. Every pattern of the
   * system is ASCII, and ECMAScript never folds a non-ASCII character onto an ASCII one, so for these
   * patterns the restriction loses nothing.
   */
  function FoldCase(c: char): char
  {
    if 'A' <= c <= 'Z' then (c as int + 32) as char else c
  }

  predicate SameChar(a: char, b: char, ignoreCase: bool)
  {
    if ignoreCase then FoldCase(a) == FoldCase(b) else a == b
  }

  /** `p` occurs in `s` at index `i`. */
  predicate MatchesAt(s: string, i: nat, p: string, ignoreCase: bool)
  {
    i + |p| <= |s| && forall k :: 0 <= k < |p| ==> SameChar(s[i + k], p[k], ignoreCase)
  }

  /** JavaScript `s.includes(p)`. */
  predicate Contains(s: string, p: string)
  {
    exists i :: 0 <= i <= |s| - |p| && MatchesAt(s, i, p, false)
  }

  lemma ContainsWitness(s: string, p: string, i: nat)
    requires MatchesAt(s, i, p, false)
    ensures Contains(s, p)
  {
  }

  lemma {:induction false} ContainsInConcat(a: string, b: string, p: string)
    requires Contains(a, p)
    ensures Contains(a + b, p)
  {
    var i :| 0 <= i <= |a| - |p| && MatchesAt(a, i, p, false);
    assert forall k :: 0 <= k < |p| ==> SameChar((a + b)[i + k], p[k], false);
    assert MatchesAt(a + b, i, p, false);
  }

  /** An occurrence in the second part of a concatenation is an occurrence in the whole. */
  lemma {:induction false} ContainsInSuffix(a: string, b: string, p: string)
    requires Contains(b, p)
    ensures Contains(a + b, p)
  {
    var i :| 0 <= i <= |b| - |p| && MatchesAt(b, i, p, false);
    forall k | 0 <= k < |p| ensures SameChar((a + b)[|a| + i + k], p[k], false) {
      assert (a + b)[|a| + i + k] == b[i + k];
      assert SameChar(b[i + k], p[k], false);
    }
    ContainsWitness(a + b, p, |a| + i);
  }

  /** Every character of `s[lo..hi]` is of class `k`. */
  predicate AllIn(s: string, lo: nat, hi: nat, k: CharClass)
    requires lo <= hi <= |s|
  {
    forall j {:trigger InClass(s[j], k)} :: lo <= j < hi ==> InClass(s[j], k)
  }

  /** The length of the longest run of class `k` starting at `i`: what a greedy `k*` consumes. */
  function Span(s: string, i: nat, k: CharClass): (n: nat)
    requires i <= |s|
    ensures i + n <= |s|
    ensures AllIn(s, i, i + n, k)
    ensures i + n == |s| || !InClass(s[i + n], k)
    decreases |s| - i
  {
    if i == |s| || !InClass(s[i], k) then 0 else 1 + Span(s, i + 1, k)
  }

  /** A run of class `k` of length `n` at `i` is covered by the greedy run there. */
  lemma SpanCovers(s: string, i: nat, k: CharClass, n: nat)
    requires i + n <= |s| && AllIn(s, i, i + n, k)
    ensures Span(s, i, k) >= n
  {
  }

  /** A run of class `k` of length `n` at `i`, followed by a character outside `k`, is the greedy run. */
  lemma SpanExact(s: string, i: nat, k: CharClass, n: nat)
    requires i + n < |s| && AllIn(s, i, i + n, k) && !InClass(s[i + n], k)
    ensures Span(s, i, k) == n
  {
    SpanCovers(s, i, k, n);
  }

  /** No leading and no trailing `\s` character. */
  predicate IsTrimmed(s: string)
  {
    s == [] || (!IsSpace(s[0]) && !IsSpace(s[|s| - 1]))
  }

  /** The number of `\s` characters at the end of `s`. */
  function TrailingSpaces(s: string): (n: nat)
    ensures n <= |s|
    ensures forall j :: |s| - n <= j < |s| ==> IsSpace(s[j])
    ensures n == |s| || !IsSpace(s[|s| - n - 1])
    decreases |s|
  {
    if |s| == 0 || !IsSpace(s[|s| - 1]) then 0 else 1 + TrailingSpaces(s[..|s| - 1])
  }

  /**
   * JavaScript `s.trim()`: the result is trimmed, and it is what is left of `s` once its leading and
   * its trailing `\s` characters are removed.
   */
  function Trim(s: string): (r: string)
    ensures IsTrimmed(r)
    ensures var a := Span(s, 0, Space);
            a + |r| <= |s| && r == s[a..a + |r|]
            && (forall j :: a + |r| <= j < |s| ==> IsSpace(s[j]))
  {
    var a := Span(s, 0, Space);
    if a == |s| then ""
    else
      var t := TrailingSpaces(s);
      s[a..|s| - t]
  }

  /** A string made only of `\s` characters trims to the empty string. */
  lemma {:induction false} TrimAllSpace(s: string)
    requires forall j :: 0 <= j < |s| ==> IsSpace(s[j])
    ensures Trim(s) == ""
  {
    forall j | 0 <= j < |s| ensures InClass(s[j], Space) {
      assert IsSpace(s[j]);
    }
    SpanCovers(s, 0, Space, |s|);
  }

  /** Trimming a string that has no `\s` character changes nothing. */
  lemma TrimNoSpace(s: string)
    requires forall j :: 0 <= j < |s| ==> !IsSpace(s[j])
    ensures Trim(s) == s
  {
    if |s| > 0 {
      assert !InClass(s[0], Space);
      assert Span(s, 0, Space) == 0;
    }
  }

  /** Trimming never cuts into an occurrence whose first and last characters are not `\s`. */
  lemma TrimKeepsOccurrence(s: string, p: string, i: nat)
    requires MatchesAt(s, i, p, false) && |p| > 0
    requires !IsSpace(p[0]) && !IsSpace(p[|p| - 1])
    ensures Contains(Trim(s), p)
  {
    var a := Span(s, 0, Space);
    var r := Trim(s);
    assert s[i] == p[0];
    assert !InClass(s[i], Space);
    assert s[i + |p| - 1] == p[|p| - 1];
    assert i + |p| <= a + |r|;
    assert forall k :: 0 <= k < |p| ==> SameChar(r[i - a + k], p[k], false);
    ContainsWitness(r, p, i - a);
  }

  /** JavaScript `s.substring(0, n)`. */
  function Take(s: string, n: nat): (r: string)
    ensures r <= s
    ensures |r| == if |s| <= n then |s| else n
    ensures |s| <= n ==> r == s
  {
    if |s| <= n then s else s[..n]
  }

  predicate IsDigits(d: string)
  {
    forall j :: 0 <= j < |d| ==> IsDigit(d[j])
  }

  /** A run of digit-class characters is a digit string. */
  lemma {:induction false} DigitRunIsDigits(s: string, lo: nat, hi: nat)
    requires lo <= hi <= |s| && AllIn(s, lo, hi, Digit)
    ensures IsDigits(s[lo..hi])
  {
    forall j | 0 <= j < hi - lo ensures IsDigit(s[lo..hi][j]) {
      assert InClass(s[lo + j], Digit);
    }
  }

  /** The value of a decimal digit; the model applies it to digits only. */
  function DigitValue(c: char): nat
  {
    if IsDigit(c) then c as int - '0' as int else 0
  }

  function DigitChar(n: nat): (c: char)
    requires n < 10
    ensures IsDigit(c) && DigitValue(c) == n
  {
    ('0' as int + n) as char
  }

  /** JavaScript `parseInt(d, 10)` on a run of decimal digits. */
  function DigitsValue(d: string): nat
    decreases |d|
  {
    if |d| == 0 then 0 else 10 * DigitsValue(d[..|d| - 1]) + DigitValue(d[|d| - 1])
  }

  /** JavaScript `String(n)` for a non-negative integer: its decimal digits without leading zeros. */
  function NatToDecimal(n: nat): (d: string)
    ensures IsDigits(d) && |d| >= 1
    ensures |d| > 1 ==> d[0] != '0'
    decreases n
  {
    if n < 10 then [DigitChar(n)] else NatToDecimal(n / 10) + [DigitChar(n % 10)]
  }

  /** Reading back the decimal form of `n` gives `n`. */
  lemma {:induction false} DecimalRoundTrip(n: nat)
    ensures DigitsValue(NatToDecimal(n)) == n
  {
    var d := NatToDecimal(n);
    if n >= 10 {
      DecimalRoundTrip(n / 10);
      assert d[..|d| - 1] == NatToDecimal(n / 10);
    }
  }

  /** The least `j` in `[lo, hi)` that satisfies `p`: a leftmost search. */
  function First(lo: nat, hi: nat, p: nat -> bool): (r: Option<nat>)
    ensures r.Some? ==> lo <= r.value < hi && p(r.value)
    ensures r.Some? ==> forall j :: lo <= j < r.value ==> !p(j)
    ensures r.None? ==> forall j :: lo <= j < hi ==> !p(j)
    decreases hi - lo
  {
    if lo >= hi then None else if p(lo) then Some(lo) else First(lo + 1, hi, p)
  }

  /** The greatest `j` in `[lo, hi)` that satisfies `p`: the choice of a greedy backtracking matcher. */
  function Last(lo: nat, hi: nat, p: nat -> bool): (r: Option<nat>)
    ensures r.Some? ==> lo <= r.value < hi && p(r.value)
    ensures r.Some? ==> forall j :: r.value < j < hi ==> !p(j)
    ensures r.None? ==> forall j :: lo <= j < hi ==> !p(j)
    decreases hi
  {
    if lo >= hi then None else if p(hi - 1) then Some(hi - 1) else Last(lo, hi - 1, p)
  }

  /** The line both transports write to end the CLI session. */
  const ExitLine := "exit\n"

  /** `n` exit lines, as many as the prompts or timers that wrote one. */
  function Exits(n: nat): (r: seq<string>)
    ensures |r| == n && forall k :: 0 <= k < n ==> r[k] == ExitLine
  {
    seq(n, _ => ExitLine)
  }

  /** Joins lines back with `'\n'`: the inverse of `split('\n')`. */
  function JoinLines(lines: seq<string>): string
    requires |lines| >= 1
    decreases |lines|
  {
    if |lines| == 1 then lines[0] else lines[0] + "\n" + JoinLines(lines[1..])
  }

  /** JavaScript `s.split('\n')`: never empty, no line holds `'\n'`, and joining the lines gives `s`. */
  function SplitLines(s: string): (lines: seq<string>)
    ensures |lines| >= 1
    ensures forall k :: 0 <= k < |lines| ==> '\n' !in lines[k]
    ensures JoinLines(lines) == s
    decreases |s|
  {
    if |s| == 0 then [""]
    else
      var rest := SplitLines(s[1..]);
      if s[0] == '\n' then
        assert [s[0]] + s[1..] == s;
        [""] + rest
      else
        var lines := [[s[0]] + rest[0]] + rest[1..];
        assert lines[1..] == rest[1..];
        assert JoinLines(lines) == [s[0]] + JoinLines(rest) by {
          if |rest| > 1 {
            assert JoinLines(rest) == rest[0] + "\n" + JoinLines(rest[1..]);
          }
        }
        assert [s[0]] + s[1..] == s;
        lines
  }
}
