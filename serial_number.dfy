/**
 * The banner parsing of `getSerialNumber` (src/tools/getSerialNumber.ts): the login banner the
 * access point prints before any command becomes its serial number and model. The tool sends an
 * empty command, so the session is the banner exchange of `SshClient.BannerExchange`.
 */
module SerialNumber {
  import opened Wrappers
  import opened Text
  import opened Patterns
  import opened Types

  const BannerStart := "Ruckus "
  const BannerTag := " AP:"
  const UnknownModel := "Unknown"
  const ErrorPrefix := "Error getting serial number: "
  const NotFoundPrefix := "Serial number not found in output. Raw output: "
  const RawOutputLimit: nat := 500

  /** `/:\s*(\d{12,})/`: a colon, `\s` characters and at least twelve digits. */
  const FallbackPattern := RunPattern(":", false, Space, 0, Digit, 12, "")

  /** At `e` the text reads " AP:", then `\s` characters, then a digit. */
  predicate TagAt(s: string, e: nat)
  {
    && MatchesAt(s, e, BannerTag, false)
    && var q := e + |BannerTag|;
       q + Span(s, q, Space) < |s| && IsDigit(s[q + Span(s, q, Space)])
  }

  /**
   * Where the model group `(.+)` of `/Ruckus (.+) AP:\s*(\d+)/` ends for a "Ruckus " at `i`: `.+`
   * is greedy and stays on one line, so the match settles on the last tag of that line.
   */
  function ModelEnd(s: string, i: nat): (r: Option<nat>)
    requires MatchesAt(s, i, BannerStart, false)
    ensures var g := i + |BannerStart|;
            var l := Span(s, g, NotLineEnd);
            && (r.Some? ==> g < r.value <= g + l && TagAt(s, r.value))
            && (r.Some? ==> forall e :: r.value < e <= g + l ==> !TagAt(s, e))
            && (r.None? ==> forall e :: g < e <= g + l ==> !TagAt(s, e))
  {
    var g := i + |BannerStart|;
    var tag := (e: nat) => TagAt(s, e);
    assert forall e: nat :: tag(e) == TagAt(s, e);
    Last(g + 1, g + Span(s, g, NotLineEnd) + 1, tag)
  }

  /** The banner pattern matches at `i`. */
  predicate BannerAt(s: string, i: nat)
  {
    MatchesAt(s, i, BannerStart, false) && ModelEnd(s, i).Some?
  }

  /** The start of the leftmost banner match. */
  function FirstBanner(s: string): (r: Option<nat>)
    ensures r.Some? ==> r.value <= |s| && BannerAt(s, r.value)
    ensures r.Some? ==> forall j :: 0 <= j < r.value ==> !BannerAt(s, j)
    ensures r.None? ==> forall j :: 0 <= j <= |s| ==> !BannerAt(s, j)
  {
    var p := (j: nat) => BannerAt(s, j);
    assert forall j: nat :: p(j) == BannerAt(s, j);
    First(0, |s| + 1, p)
  }

  /** The digits `(\d+)` takes after the tag at `e`: the whole run of digits after the `\s` characters. */
  function SerialAfterTag(s: string, e: nat): (r: string)
    requires TagAt(s, e)
    ensures var q := e + |BannerTag|;
            var d := q + Span(s, q, Space);
            r == s[d..d + Span(s, d, Digit)] && |r| >= 1 && IsDigits(r)
  {
    var q := e + |BannerTag|;
    var d := q + Span(s, q, Space);
    assert InClass(s[d], Digit);
    DigitRunIsDigits(s, d, d + Span(s, d, Digit));
    s[d..d + Span(s, d, Digit)]
  }

  /** The record read from the banner match at `i`: the trimmed model group and the digits. */
  function BannerInfo(s: string, i: nat): (r: SerialInfo)
    requires BannerAt(s, i)
    ensures r.model == Trim(s[i + |BannerStart|..ModelEnd(s, i).value])
    ensures r.serial == SerialAfterTag(s, ModelEnd(s, i).value)
  {
    var e := ModelEnd(s, i).value;
    SerialInfo(SerialAfterTag(s, e), Trim(s[i + |BannerStart|..e]))
  }

  /**
   * `getSerialNumber` after the banner arrived: the banner pattern first; failing that, the
   * fallback pattern with model "Unknown"; failing both, an error showing at most the first 500
   * characters of the output. The serial is always a run of digits.
   */
  function GetSerialNumber(output: string): (r: Result<SerialInfo, string>)
    ensures FirstBanner(output).Some? ==> r == Success(BannerInfo(output, FirstBanner(output).value))
    ensures FirstBanner(output).None? && FindRun(output, FallbackPattern).Some? ==>
              r == Success(SerialInfo(FindRun(output, FallbackPattern).value, UnknownModel))
    ensures r.Failure? <==> FirstBanner(output).None? && FindRun(output, FallbackPattern).None?
    ensures r.Success? ==> |r.value.serial| >= 1 && IsDigits(r.value.serial)
    ensures r.Success? && r.value.model == UnknownModel && FirstBanner(output).None? ==> |r.value.serial| >= 12
    ensures r.Failure? ==> r.error == ErrorPrefix + NotFoundPrefix + Take(output, RawOutputLimit)
  {
    match FirstBanner(output)
    case Some(i) => Success(BannerInfo(output, i))
    case None =>
      match FindRun(output, FallbackPattern)
      case Some(d) =>
        var c0 := CaptureStart(output, FirstRun(output, FallbackPattern).value, FallbackPattern);
        DigitRunIsDigits(output, c0, c0 + |d|);
        Success(SerialInfo(d, UnknownModel))
      case None => Failure(ErrorPrefix + NotFoundPrefix + Take(output, RawOutputLimit))
  }

  /** The tag at `e` is the one the match settles on when no later tag of the line follows it. */
  lemma {:induction false} ModelEndIsLastTag(s: string, i: nat, e: nat)
    requires MatchesAt(s, i, BannerStart, false)
    requires TagAt(s, e)
    requires i + |BannerStart| < e && AllIn(s, i + |BannerStart|, e, NotLineEnd)
    requires forall e' :: e < e' <= |s| && AllIn(s, i + |BannerStart|, e', NotLineEnd) ==> !MatchesAt(s, e', BannerTag, false)
    ensures ModelEnd(s, i) == Some(e)
  {
    var g := i + |BannerStart|;
    SpanCovers(s, g, NotLineEnd, e - g);
    var r := ModelEnd(s, i);
    if r.Some? && r.value != e {
      assert AllIn(s, g, r.value, NotLineEnd);
    }
  }

  /** A banner match at the first "Ruckus " of the output is the leftmost banner match. */
  lemma {:induction false} FirstBannerAtFirstStart(s: string, i: nat)
    requires BannerAt(s, i)
    requires forall j :: 0 <= j < i ==> !MatchesAt(s, j, BannerStart, false)
    ensures FirstBanner(s) == Some(i)
  {
  }

  /**
   * A banner line read as "Ruckus ", a model that ends where the last " AP:" of the line begins,
   * `\s` characters and a maximal run of digits, at the first "Ruckus " of the output, gives that
   * serial and the trimmed model: "Ruckus T670 Multimedia Hotzone Wireless AP: 952443000155" gives
   * serial "952443000155" and model "T670 Multimedia Hotzone Wireless".
   */
  lemma {:induction false} SerialFromBannerLine(s: string, i: nat, e: nat, w: nat, n: nat)
    requires MatchesAt(s, i, BannerStart, false)
    requires forall j :: 0 <= j < i ==> !MatchesAt(s, j, BannerStart, false)
    requires MatchesAt(s, e, BannerTag, false)
    requires i + |BannerStart| < e && AllIn(s, i + |BannerStart|, e, NotLineEnd)
    requires forall e' :: e < e' <= |s| && AllIn(s, i + |BannerStart|, e', NotLineEnd) ==> !MatchesAt(s, e', BannerTag, false)
    requires var d := e + |BannerTag| + w;
             n >= 1 && d + n <= |s| && AllIn(s, e + |BannerTag|, d, Space) && AllIn(s, d, d + n, Digit)
             && (d + n == |s| || !IsDigit(s[d + n]))
    ensures var d := e + |BannerTag| + w;
            GetSerialNumber(s) == Success(SerialInfo(s[d..d + n], Trim(s[i + |BannerStart|..e])))
  {
    SerialAfterTagIs(s, e, w, n);
    ModelEndIsLastTag(s, i, e);
    FirstBannerAtFirstStart(s, i);
  }

  /** A tag followed by `w` `\s` characters and a maximal run of `n` digits: the serial is that run. */
  lemma {:induction false} SerialAfterTagIs(s: string, e: nat, w: nat, n: nat)
    requires MatchesAt(s, e, BannerTag, false)
    requires var d := e + |BannerTag| + w;
             n >= 1 && d + n <= |s| && AllIn(s, e + |BannerTag|, d, Space) && AllIn(s, d, d + n, Digit)
             && (d + n == |s| || !IsDigit(s[d + n]))
    ensures TagAt(s, e)
    ensures var d := e + |BannerTag| + w;
            SerialAfterTag(s, e) == s[d..d + n]
  {
    var q := e + |BannerTag|;
    SerialRun(s, q, w, n);
  }

  /** `\s` characters and then a maximal run of digits: both runs are the greedy ones. */
  lemma {:induction false} SerialRun(s: string, q: nat, w: nat, n: nat)
    requires n >= 1 && q + w + n <= |s| && AllIn(s, q, q + w, Space) && AllIn(s, q + w, q + w + n, Digit)
    requires q + w + n == |s| || !IsDigit(s[q + w + n])
    ensures Span(s, q, Space) == w && Span(s, q + w, Digit) == n
  {
    var d := q + w;
    assert InClass(s[d], Digit);
    assert !InClass(s[d], Space);
    SpanExact(s, q, Space, w);
    if d + n < |s| {
      assert !InClass(s[d + n], Digit);
      SpanExact(s, d, Digit, n);
    } else {
      SpanCovers(s, d, Digit, n);
    }
  }

  /**
   * Output without a banner whose leftmost colon-digits reading is at `i`, with a maximal run of
   * at least twelve digits, gives those digits with model "Unknown".
   */
  lemma {:induction false} SerialFromFallback(s: string, i: nat, w: nat, n: nat)
    requires forall j :: 0 <= j <= |s| ==> !BannerAt(s, j)
    requires DecomposesAt(s, i, FallbackPattern, w, n, 0)
    requires forall j :: 0 <= j < i ==> !RunMatchesAt(s, j, FallbackPattern)
    requires var e := i + 1 + w + n; e == |s| || !IsDigit(s[e])
    ensures var c := i + 1 + w;
            GetSerialNumber(s) == Success(SerialInfo(s[c..c + n], UnknownModel))
  {
    assert |FallbackPattern.prefix| == 1;
    FallbackRun(s, i, w, n);
  }

  /** The leftmost colon-digits reading, with a maximal digit run, is the capture of the fallback pattern. */
  lemma {:induction false} FallbackRun(s: string, i: nat, w: nat, n: nat)
    requires DecomposesAt(s, i, FallbackPattern, w, n, 0)
    requires forall j :: 0 <= j < i ==> !RunMatchesAt(s, j, FallbackPattern)
    requires var e := i + |FallbackPattern.prefix| + w + n; e == |s| || !IsDigit(s[e])
    ensures var c := i + |FallbackPattern.prefix| + w;
            FindRun(s, FallbackPattern) == Some(s[c..c + n])
  {
    var e := i + |FallbackPattern.prefix| + w + n;
    if e < |s| {
      assert !InClass(s[e], Digit);
    }
    FindRunAtLeftmostReading(s, FallbackPattern, i, w, n, 0);
  }
}
