/**
 * The fixed regular-expression shapes of the device-output parsers, each matched the way
 * JavaScript's backtracking `String.prototype.match` matches it: the leftmost start position wins,
 * and at that position every quantifier is greedy.
 */
module Patterns {
  import opened Wrappers
  import opened Text

  /**
   * The shape `prefix sep{sepMin,} (cap{capMin,}) \s* suffix`, with `prefix` compared
   * case-insensitively under `/i`. An empty `suffix` stands for a pattern that ends with the
   * capture group (the trailing `\s*` then matches the empty string and changes nothing).
   */
  datatype RunPattern = RunPattern(prefix: string, ignoreCase: bool, sep: CharClass, sepMin: nat,
                                   cap: CharClass, capMin: nat, suffix: string)

  /** Pairs of character classes that share no character (the pairs the patterns need). */
  predicate Disjoint(a: CharClass, b: CharClass)
  {
    || (a == Space && (b == Digit || b == Word))
    || (a == ColonOrSpace && (b == Digit || b == Word))
    || (a == Digit && b == Space)
    || (a == Word && b == Space)
  }

  lemma {:induction false} DisjointChar(c: char, a: CharClass, b: CharClass)
    requires Disjoint(a, b)
    ensures !(InClass(c, a) && InClass(c, b))
  {
  }

  /**
   * The shapes on which greedy matching cannot backtrack into a different reading: the separator
   * run must stop where the captured run starts, and the captured run where `\s* suffix` starts.
   */
  predicate WellFormed(pat: RunPattern)
  {
    && pat.capMin >= 1
    && Disjoint(pat.sep, pat.cap)
    && (pat.suffix != "" ==>
          && Disjoint(pat.cap, Space)
          && !pat.ignoreCase
          && !InClass(pat.suffix[0], pat.cap) && !IsSpace(pat.suffix[0]))
  }

  /**
   * `s[i..]` starts with a word of the pattern's language, read as prefix, `wl` separator
   * characters, `cl` captured characters, `tl` spaces and the suffix.
   */
  predicate DecomposesAt(s: string, i: nat, pat: RunPattern, wl: nat, cl: nat, tl: nat)
  {
    && MatchesAt(s, i, pat.prefix, pat.ignoreCase)
    && var p := i + |pat.prefix|;
       && p + wl + cl + tl <= |s|
       && wl >= pat.sepMin && cl >= pat.capMin && cl >= 1
       && AllIn(s, p, p + wl, pat.sep)
       && AllIn(s, p + wl, p + wl + cl, pat.cap)
       && AllIn(s, p + wl + cl, p + wl + cl + tl, Space)
       && MatchesAt(s, p + wl + cl + tl, pat.suffix, pat.ignoreCase)
  }

  /** Where the captured run starts when the prefix occurs at `i`. */
  function CaptureStart(s: string, i: nat, pat: RunPattern): nat
    requires MatchesAt(s, i, pat.prefix, pat.ignoreCase)
  {
    var p := i + |pat.prefix|;
    p + Span(s, p, pat.sep)
  }

  /** After the greedy captured run from `c0` and the greedy `\s*`, the suffix follows. */
  predicate SuffixFollows(s: string, c0: nat, pat: RunPattern)
  {
    && c0 <= |s|
    && var q := c0 + Span(s, c0, pat.cap);
       MatchesAt(s, q + Span(s, q, Space), pat.suffix, pat.ignoreCase)
  }

  /** The greedy reading of the pattern at `i`: every quantifier takes the longest run it can. */
  predicate RunMatchesAt(s: string, i: nat, pat: RunPattern)
  {
    && MatchesAt(s, i, pat.prefix, pat.ignoreCase)
    && var c0 := CaptureStart(s, i, pat);
       var c := Span(s, c0, pat.cap);
       && c0 - i - |pat.prefix| >= pat.sepMin
       && c >= pat.capMin && c >= 1
       && SuffixFollows(s, c0, pat)
  }

  /** The text of the capture group for the greedy reading at `i`. */
  function CaptureAt(s: string, i: nat, pat: RunPattern): (r: string)
    requires RunMatchesAt(s, i, pat)
    ensures |r| >= pat.capMin && |r| >= 1
    ensures forall j :: 0 <= j < |r| ==> InClass(r[j], pat.cap)
  {
    var c0 := CaptureStart(s, i, pat);
    s[c0..c0 + Span(s, c0, pat.cap)]
  }

  /** The greedy reading is a word of the pattern's language. */
  lemma {:induction false} GreedyIsDecomposition(s: string, i: nat, pat: RunPattern)
    requires RunMatchesAt(s, i, pat)
    ensures var p := i + |pat.prefix|;
            var c0 := CaptureStart(s, i, pat);
            var q := c0 + |CaptureAt(s, i, pat)|;
            DecomposesAt(s, i, pat, c0 - p, q - c0, Span(s, q, Space))
  {
  }

  /** In a reading of a well-formed pattern, the separator run is the greedy one. */
  lemma {:induction false} SeparatorIsGreedy(s: string, i: nat, pat: RunPattern, wl: nat, cl: nat, tl: nat)
    requires WellFormed(pat)
    requires DecomposesAt(s, i, pat, wl, cl, tl)
    ensures CaptureStart(s, i, pat) == i + |pat.prefix| + wl
  {
    var p := i + |pat.prefix|;
    assert InClass(s[p + wl], pat.cap);
    DisjointChar(s[p + wl], pat.sep, pat.cap);
    SpanExact(s, p, pat.sep, wl);
  }

  /** In a reading of a well-formed pattern with a suffix, the captured and the space runs are the greedy ones. */
  lemma {:induction false} CaptureIsGreedy(s: string, i: nat, pat: RunPattern, wl: nat, cl: nat, tl: nat)
    requires WellFormed(pat) && pat.suffix != ""
    requires DecomposesAt(s, i, pat, wl, cl, tl)
    ensures var q := i + |pat.prefix| + wl;
            Span(s, q, pat.cap) == cl && Span(s, q + cl, Space) == tl
  {
    var q := i + |pat.prefix| + wl + cl;
    var e := q + tl;
    assert s[e] == pat.suffix[0];
    assert !InClass(s[q], pat.cap) by {
      if tl > 0 {
        assert InClass(s[q], Space);
        DisjointChar(s[q], pat.cap, Space);
      }
    }
    SpanExact(s, q - cl, pat.cap, cl);
    SpanExact(s, q, Space, tl);
  }

  /** The greedy run of a reading's captured class ends where `\s* suffix` can follow it. */
  lemma {:induction false} SuffixAfterGreedy(s: string, i: nat, pat: RunPattern, wl: nat, cl: nat, tl: nat)
    requires WellFormed(pat)
    requires DecomposesAt(s, i, pat, wl, cl, tl)
    ensures var q := i + |pat.prefix| + wl;
            var c := Span(s, q, pat.cap);
            c >= cl && SuffixFollows(s, q, pat) && (pat.suffix != "" ==> c == cl)
  {
    var q := i + |pat.prefix| + wl;
    assert AllIn(s, q, q + cl, pat.cap);
    SpanCovers(s, q, pat.cap, cl);
    if pat.suffix != "" {
      CaptureIsGreedy(s, i, pat, wl, cl, tl);
      SuffixAfterRuns(s, q, pat, cl, tl);
    } else {
      EmptySuffixFollows(s, q, pat);
    }
  }

  /** Runs of `cl` captured and `tl` space characters that are the greedy ones, then the suffix. */
  lemma {:induction false} SuffixAfterRuns(s: string, q: nat, pat: RunPattern, cl: nat, tl: nat)
    requires q + cl + tl <= |s| && Span(s, q, pat.cap) == cl && Span(s, q + cl, Space) == tl
    requires MatchesAt(s, q + cl + tl, pat.suffix, pat.ignoreCase)
    ensures SuffixFollows(s, q, pat)
  {
  }

  /** An empty suffix follows anywhere. */
  lemma {:induction false} EmptySuffixFollows(s: string, q: nat, pat: RunPattern)
    requires q <= |s| && pat.suffix == ""
    ensures SuffixFollows(s, q, pat)
  {
    var c := q + Span(s, q, pat.cap);
    assert c + Span(s, c, Space) <= |s|;
  }

  /**
   * For a well-formed pattern, greedy matching at `i` succeeds exactly when some reading of the
   * pattern's language does, and the greedy capture is the longest captured run of any reading
   * (with a suffix, the only one).
   */
  lemma {:induction false} GreedyIsExact(s: string, i: nat, pat: RunPattern, wl: nat, cl: nat, tl: nat)
    requires WellFormed(pat)
    requires DecomposesAt(s, i, pat, wl, cl, tl)
    ensures RunMatchesAt(s, i, pat)
    ensures CaptureStart(s, i, pat) == i + |pat.prefix| + wl
    ensures cl <= |CaptureAt(s, i, pat)|
    ensures pat.suffix != "" ==> cl == |CaptureAt(s, i, pat)|
  {
    SeparatorIsGreedy(s, i, pat, wl, cl, tl);
    SuffixAfterGreedy(s, i, pat, wl, cl, tl);
    var q := i + |pat.prefix| + wl;
    var c := Span(s, q, pat.cap);
    assert SuffixFollows(s, q, pat);
    assert CaptureStart(s, i, pat) == q;
    assert RunMatchesAt(s, i, pat);
    assert |CaptureAt(s, i, pat)| == c;
  }

  /** The start of the leftmost match of `pat` in `s`: where `s.match(pat)` matches. */
  function FirstRun(s: string, pat: RunPattern): (r: Option<nat>)
    ensures r.Some? ==> r.value <= |s| && RunMatchesAt(s, r.value, pat)
    ensures r.Some? ==> forall j :: 0 <= j < r.value ==> !RunMatchesAt(s, j, pat)
    ensures r.None? ==> forall j :: 0 <= j <= |s| ==> !RunMatchesAt(s, j, pat)
  {
    var p := (j: nat) => RunMatchesAt(s, j, pat);
    assert forall j: nat :: p(j) == RunMatchesAt(s, j, pat);
    First(0, |s| + 1, p)
  }

  /** A greedy match at the first occurrence of the prefix is the leftmost match. */
  lemma {:induction false} FirstRunAtFirstOccurrence(s: string, pat: RunPattern, i: nat)
    requires RunMatchesAt(s, i, pat)
    requires forall j :: 0 <= j < i ==> !MatchesAt(s, j, pat.prefix, pat.ignoreCase)
    ensures FirstRun(s, pat) == Some(i)
  {
  }

  /** A maximal captured run of a reading is the greedy capture. */
  lemma {:induction false} CaptureOfMaximalReading(s: string, pat: RunPattern, i: nat, wl: nat, cl: nat, tl: nat)
    requires WellFormed(pat)
    requires DecomposesAt(s, i, pat, wl, cl, tl)
    requires var c := i + |pat.prefix| + wl + cl;
             pat.suffix != "" || c == |s| || !InClass(s[c], pat.cap)
    ensures RunMatchesAt(s, i, pat)
    ensures var c0 := i + |pat.prefix| + wl;
            CaptureAt(s, i, pat) == s[c0..c0 + cl]
  {
    GreedyIsExact(s, i, pat, wl, cl, tl);
    var c0 := i + |pat.prefix| + wl;
    if pat.suffix == "" && c0 + cl < |s| {
      SpanExact(s, c0, pat.cap, cl);
    }
  }

  /**
   * A reading of a well-formed pattern at the first occurrence of its prefix is what `match` finds:
   * the capture is that reading's captured run, provided the run is maximal (which a suffix forces).
   */
  lemma {:induction false} FindRunAtFirstOccurrence(s: string, pat: RunPattern, i: nat, wl: nat, cl: nat, tl: nat)
    requires WellFormed(pat)
    requires DecomposesAt(s, i, pat, wl, cl, tl)
    requires forall j :: 0 <= j < i ==> !MatchesAt(s, j, pat.prefix, pat.ignoreCase)
    requires var c := i + |pat.prefix| + wl + cl;
             pat.suffix != "" || c == |s| || !InClass(s[c], pat.cap)
    ensures var c0 := i + |pat.prefix| + wl;
            FindRun(s, pat) == Some(s[c0..c0 + cl])
  {
    CaptureOfMaximalReading(s, pat, i, wl, cl, tl);
    FirstRunAtFirstOccurrence(s, pat, i);
  }

  /** A maximal reading at `i` when no earlier position matches at all: `match` finds it. */
  lemma {:induction false} FindRunAtLeftmostReading(s: string, pat: RunPattern, i: nat, wl: nat, cl: nat, tl: nat)
    requires WellFormed(pat)
    requires DecomposesAt(s, i, pat, wl, cl, tl)
    requires forall j :: 0 <= j < i ==> !RunMatchesAt(s, j, pat)
    requires var c := i + |pat.prefix| + wl + cl;
             pat.suffix != "" || c == |s| || !InClass(s[c], pat.cap)
    ensures var c0 := i + |pat.prefix| + wl;
            FindRun(s, pat) == Some(s[c0..c0 + cl])
  {
    CaptureOfMaximalReading(s, pat, i, wl, cl, tl);
    assert FirstRun(s, pat) == Some(i);
  }

  /** `s.match(pat)?.[1]`: the capture of the leftmost match, if there is one. */
  function FindRun(s: string, pat: RunPattern): (r: Option<string>)
    ensures r.None? <==> FirstRun(s, pat).None?
    ensures r.Some? ==> r.value == CaptureAt(s, FirstRun(s, pat).value, pat)
  {
    match FirstRun(s, pat)
    case None => None
    case Some(i) => Some(CaptureAt(s, i, pat))
  }

  /**
   * The pattern `key\s*(.+)` under `/i` can let its group `(.+)` start at `j` in a match whose key
   * ends at `p`: only `\s` characters in between, and a character `.` accepts at `j`.
   */
  predicate ValueCanStartAt(s: string, p: nat, j: nat)
  {
    p <= j < |s| && (forall m :: p <= m < j ==> IsSpace(s[m])) && !IsLineTerminator(s[j])
  }

  /**
   * Where the group of `key\s*(.+)` starts after a key ending at `p`: `\s*` is greedy, so a
   * backtracking matcher settles on the greatest possible start. It can lie before the end of the
   * `\s` run only when that run reaches the end of the text.
   */
  function ValueStart(s: string, p: nat): (r: Option<nat>)
    requires p <= |s|
    ensures r.Some? ==> ValueCanStartAt(s, p, r.value)
    ensures r.Some? ==> forall j :: r.value < j < |s| ==> !ValueCanStartAt(s, p, j)
    ensures r.None? <==> forall j :: p <= j < |s| ==> IsLineTerminator(s[j])
  {
    var w := Span(s, p, Space);
    forall m | p <= m < p + w ensures IsSpace(s[m]) {
      assert InClass(s[m], Space);
    }
    if p + w < |s| then
      assert forall j :: p + w < j < |s| ==> !ValueCanStartAt(s, p, j) by {
        forall j | p + w < j < |s| ensures !ValueCanStartAt(s, p, j) {
          assert !IsSpace(s[p + w]);
        }
      }
      Some(p + w)
    else
      var accepts := (j: nat) => j < |s| && !IsLineTerminator(s[j]);
      assert forall j: nat :: accepts(j) == (j < |s| && !IsLineTerminator(s[j]));
      Last(p, p + w, accepts)
  }

  /** The attempt of `key\s*(.+)` (under `/i`) at `i` succeeds. */
  predicate ValueMatchesAt(s: string, i: nat, key: string)
  {
    MatchesAt(s, i, key, true) && ValueStart(s, i + |key|).Some?
  }

  /** The group `(.+)` of the attempt at `i`: from its start to the end of the line. */
  function ValueCaptureAt(s: string, i: nat, key: string): (r: string)
    requires ValueMatchesAt(s, i, key)
    ensures |r| >= 1 && forall j :: 0 <= j < |r| ==> !IsLineTerminator(r[j])
  {
    var j := ValueStart(s, i + |key|).value;
    var n := Span(s, j, NotLineEnd);
    forall m | j <= m < j + n ensures !IsLineTerminator(s[m]) {
      assert InClass(s[m], NotLineEnd);
    }
    s[j..j + n]
  }

  /** Two keys that occur so that they end at the same place lead to the same value group. */
  lemma {:induction false} ValueDependsOnKeyEnd(s: string, i: nat, key: string, i2: nat, key2: string)
    requires MatchesAt(s, i, key, true) && MatchesAt(s, i2, key2, true)
    requires i + |key| == i2 + |key2|
    ensures ValueMatchesAt(s, i, key) <==> ValueMatchesAt(s, i2, key2)
    ensures ValueMatchesAt(s, i, key) ==> ValueCaptureAt(s, i, key) == ValueCaptureAt(s, i2, key2)
  {
    var p := i + |key|;
    assert ValueStart(s, i2 + |key2|) == ValueStart(s, p);
    if ValueMatchesAt(s, i, key) {
      var v := ValueStart(s, p).value;
      ValueCaptureFrom(s, i, key, v);
      ValueCaptureFrom(s, i2, key2, v);
    }
  }

  /** The start of the leftmost match of `key\s*(.+)` under `/i`. */
  function FirstValue(s: string, key: string): (r: Option<nat>)
    ensures r.Some? ==> r.value <= |s| && ValueMatchesAt(s, r.value, key)
    ensures r.Some? ==> forall j :: 0 <= j < r.value ==> !ValueMatchesAt(s, j, key)
    ensures r.None? ==> forall j :: 0 <= j <= |s| ==> !ValueMatchesAt(s, j, key)
  {
    var p := (j: nat) => ValueMatchesAt(s, j, key);
    assert forall j: nat :: p(j) == ValueMatchesAt(s, j, key);
    First(0, |s| + 1, p)
  }

  /**
   * The leftmost match of `key\s*(.+)` is at the first occurrence of the key, unless no character
   * after that occurrence is accepted by `.`, and then there is no match at all: a later occurrence
   * never wins.
   */
  lemma {:induction false} ValueAtFirstKey(s: string, key: string, i: nat)
    requires MatchesAt(s, i, key, true)
    requires forall j :: 0 <= j < i ==> !MatchesAt(s, j, key, true)
    ensures FirstValue(s, key) == if ValueMatchesAt(s, i, key) then Some(i) else None
  {
    var r := FirstValue(s, key);
    if r.Some? && r.value != i {
      var k := r.value;
      assert k > i;
      var m := ValueStart(s, k + |key|).value;
      assert !IsLineTerminator(s[m]);
      assert ValueStart(s, i + |key|).Some?;
    }
  }

  /** `s.match(new RegExp(key + "\\s*(.+)", "i"))?.[1]`: the value group of the leftmost match. */
  function FindValue(s: string, key: string): (r: Option<string>)
    ensures r.None? <==> FirstValue(s, key).None?
    ensures r.Some? ==> r.value == ValueCaptureAt(s, FirstValue(s, key).value, key)
    ensures (forall j :: 0 <= j <= |s| ==> !MatchesAt(s, j, key, true)) ==> r.None?
  {
    match FirstValue(s, key)
    case None => None
    case Some(i) => Some(ValueCaptureAt(s, i, key))
  }

  /**
   * When the text after the first occurrence of the key starts, after `w` `\s` characters, with a
   * character that is not `\s`, the value group is the rest of that line from there.
   */
  lemma {:induction false} ValueOnKeyLine(s: string, key: string, i: nat, w: nat)
    requires MatchesAt(s, i, key, true)
    requires forall j :: 0 <= j < i ==> !MatchesAt(s, j, key, true)
    requires var p := i + |key|;
             p + w < |s| && AllIn(s, p, p + w, Space) && !IsSpace(s[p + w])
    ensures var v := i + |key| + w;
            FindValue(s, key) == Some(s[v..v + Span(s, v, NotLineEnd)])
  {
    var v := i + |key| + w;
    ValueStartAfterSpaces(s, i + |key|, w);
    ValueCaptureFrom(s, i, key, v);
    ValueAtFirstKey(s, key, i);
    assert FindValue(s, key) == Some(ValueCaptureAt(s, i, key));
  }

  /** The value group of the match at `i` runs from where it starts to the end of that line. */
  lemma {:induction false} ValueCaptureFrom(s: string, i: nat, key: string, v: nat)
    requires MatchesAt(s, i, key, true) && i + |key| <= |s| && ValueStart(s, i + |key|) == Some(v)
    ensures ValueMatchesAt(s, i, key) && v <= |s|
    ensures ValueCaptureAt(s, i, key) == s[v..v + Span(s, v, NotLineEnd)]
  {
  }

  /** A run of `w` `\s` characters ending before a character that is not one: the group starts there. */
  lemma {:induction false} ValueStartAfterSpaces(s: string, p: nat, w: nat)
    requires p + w < |s| && AllIn(s, p, p + w, Space) && !IsSpace(s[p + w])
    ensures ValueStart(s, p) == Some(p + w)
  {
    SpanExact(s, p, Space, w);
  }

  /**
   * When only `\s` characters follow the first occurrence of the key, the match either fails or
   * its value group holds only `\s` characters (backtracking lets `(.+)` take a trailing space).
   */
  lemma {:induction false} ValueAtTextEnd(s: string, key: string, i: nat)
    requires MatchesAt(s, i, key, true)
    requires forall j :: 0 <= j < i ==> !MatchesAt(s, j, key, true)
    requires forall j :: i + |key| <= j < |s| ==> IsSpace(s[j])
    ensures FindValue(s, key).Some? ==> forall j :: 0 <= j < |FindValue(s, key).value| ==> IsSpace(FindValue(s, key).value[j])
  {
    ValueAtFirstKey(s, key, i);
    if ValueMatchesAt(s, i, key) {
      ValueGroupOfSpaces(s, i, key);
      assert FindValue(s, key) == Some(ValueCaptureAt(s, i, key));
    }
  }

  /** The value group of a match after which only `\s` characters follow the key holds only those. */
  lemma {:induction false} ValueGroupOfSpaces(s: string, i: nat, key: string)
    requires ValueMatchesAt(s, i, key)
    requires forall j :: i + |key| <= j < |s| ==> IsSpace(s[j])
    ensures forall j :: 0 <= j < |ValueCaptureAt(s, i, key)| ==> IsSpace(ValueCaptureAt(s, i, key)[j])
  {
    var v := ValueStart(s, i + |key|).value;
    ValueCaptureFrom(s, i, key, v);
    var r := ValueCaptureAt(s, i, key);
    forall j | 0 <= j < |r| ensures IsSpace(r[j]) {
      assert r[j] == s[v + j];
    }
  }

  /**
   * When the first occurrences of two keys end at the same place (one key ending the other),
   * both give the same value group.
   */
  lemma {:induction false} KeysEndingTogether(s: string, i: nat, key: string, i2: nat, key2: string)
    requires MatchesAt(s, i, key, true) && forall j :: 0 <= j < i ==> !MatchesAt(s, j, key, true)
    requires MatchesAt(s, i2, key2, true) && forall j :: 0 <= j < i2 ==> !MatchesAt(s, j, key2, true)
    requires i + |key| == i2 + |key2|
    ensures FindValue(s, key) == FindValue(s, key2)
  {
    ValueAtFirstKey(s, key, i);
    ValueAtFirstKey(s, key2, i2);
    ValueDependsOnKeyEnd(s, i, key, i2, key2);
  }
}
