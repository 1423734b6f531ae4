/**
 * `parseAdmissionControl` and the `getClientAdmissionControl` record
 * (src/tools/getClientAdmissionControl.ts): the output of `get admctl <radio>` becomes whether
 * admission control is on and its three thresholds, each 0 when its line is missing.
 */
module ClientAdmissionControl {
  import opened Wrappers
  import opened Text
  import opened Patterns

  /**
   * The text `\d+\.?\d*` captures, as the value of its digits before the point and the digits
   * after it: `Decimal(5, "5")` is 5.5, `Decimal(5, "")` is 5 (captured as "5" or "5.").
   */
  datatype Decimal = Decimal(whole: nat, fraction: string)

  /** One radio's admission-control settings. */
  datatype AdmissionControl = AdmissionControl(
    enabled: bool,
    radioLoadThreshold: nat,
    clientCountThreshold: nat,
    clientThroughputThreshold: Decimal)

  /** The `ClientAdmissionControlInfo` record: radios wifi0 and wifi1. */
  datatype ClientAdmissionControlInfo = ClientAdmissionControlInfo(wifi0: AdmissionControl, wifi1: AdmissionControl)

  const DisabledLine := "Client Admission Control: Disabled"
  const EvidenceMarker := "Client Admission Control"
  const ErrorPrefix := "Error getting client admission control info: "
  const NoEvidenceMessage := "Unable to parse client admission control information"

  /** `/Radio Load threshold:\s*(\d+)\s*%/`. */
  const RadioLoadPattern := RunPattern("Radio Load threshold:", false, Space, 0, Digit, 1, "%")

  /** `/Client Count threshold:\s*(\d+)\s*clients/`. */
  const ClientCountPattern := RunPattern("Client Count threshold:", false, Space, 0, Digit, 1, "clients")

  /** `prefix\s*(\d+\.?\d*)\s*suffix`, a label and a unit around a decimal number. */
  datatype NumberPattern = NumberPattern(prefix: string, suffix: string)

  /** `/Client throughput threshold:\s*(\d+\.?\d*)\s*Mbps/`. */
  const ThroughputPattern := NumberPattern("Client throughput threshold:", "Mbps")

  lemma PatternsAreWellFormed()
    ensures WellFormed(RadioLoadPattern) && WellFormed(ClientCountPattern)
  {
  }

  /** `parseInt` of a digit capture, or 0 when the pattern does not match. */
  function NumberOrZero(s: string, pat: RunPattern): (n: nat)
    requires pat.cap == Digit
    ensures FindRun(s, pat).None? ==> n == 0
    ensures FindRun(s, pat).Some? ==> IsDigits(FindRun(s, pat).value) && n == DigitsValue(FindRun(s, pat).value)
  {
    match FindRun(s, pat)
    case None => 0
    case Some(d) =>
      assert IsDigits(d) by {
        forall j | 0 <= j < |d| ensures IsDigit(d[j]) {
          assert InClass(d[j], Digit);
        }
      }
      DigitsValue(d)
  }

  /** Where `\d+\.?\d*` ends when its leading digit run ends at `q`. */
  function NumberEnd(s: string, q: nat): (e: nat)
    requires q <= |s|
    ensures q <= e <= |s|
  {
    if q < |s| && s[q] == '.' then q + 1 + Span(s, q + 1, Digit) else q
  }

  /** The `m` digits after the point that follows a digit run ending at `q`, or none without a point. */
  function FractionAt(s: string, q: nat, point: bool, m: nat): string
    requires point ==> q + 1 + m <= |s|
  {
    if point then s[q + 1..q + 1 + m] else ""
  }

  /** Where the number starts when the label ends at `p`: after the `\s*`. */
  function NumberStart(s: string, p: nat): nat
    requires p <= |s|
  {
    p + Span(s, p, Space)
  }

  /** Where the digit run `\d+` ends when the label ends at `p`. */
  function DigitsEnd(s: string, p: nat): (q: nat)
    requires p <= |s|
    ensures NumberStart(s, p) <= q <= |s|
  {
    NumberStart(s, p) + Span(s, NumberStart(s, p), Digit)
  }

  /** Where the suffix must start when the label ends at `p`: after the number and the `\s*`. */
  function SuffixStart(s: string, p: nat): (q: nat)
    requires p <= |s|
    ensures DigitsEnd(s, p) <= q <= |s|
  {
    var e := NumberEnd(s, DigitsEnd(s, p));
    e + Span(s, e, Space)
  }

  /**
   * After a label ending at `p`, the greedy reading of `\s*(\d+\.?\d*)\s*` and then `suffix`
   * succeeds. The classes that follow each other are disjoint, so backtracking finds no other
   * reading.
   */
  predicate NumberFollows(s: string, p: nat, suffix: string)
  {
    p <= |s| && DigitsEnd(s, p) > NumberStart(s, p) && MatchesAt(s, SuffixStart(s, p), suffix, false)
  }

  /** The number pattern matches at `i`. */
  predicate NumberMatchesAt(s: string, i: nat, pat: NumberPattern)
  {
    MatchesAt(s, i, pat.prefix, false) && NumberFollows(s, i + |pat.prefix|, pat.suffix)
  }

  /**
   * The number `\d+\.?\d*` reads at `d`: its leading digits, then, when a point follows, the
   * digits after the point (possibly none).
   */
  function NumberAt(s: string, d: nat): (r: Decimal)
    requires d <= |s|
    ensures var n := Span(s, d, Digit);
            IsDigits(s[d..d + n]) && r.whole == DigitsValue(s[d..d + n])
            && IsDigits(r.fraction)
            && (d + n < |s| && s[d + n] == '.' ==> r.fraction == s[d + n + 1..d + n + 1 + Span(s, d + n + 1, Digit)])
            && (d + n == |s| || s[d + n] != '.' ==> r.fraction == "")
  {
    var n := Span(s, d, Digit);
    var e := NumberEnd(s, d + n);
    DigitRunIsDigits(s, d, d + n);
    var fraction := if e == d + n then "" else s[d + n + 1..e];
    assert IsDigits(fraction) by {
      if e != d + n {
        DigitRunIsDigits(s, d + n + 1, e);
      }
    }
    Decimal(DigitsValue(s[d..d + n]), fraction)
  }

  /** The number captured by a match at `i`: the one after the label and the `\s*`. */
  function NumberCaptureAt(s: string, i: nat, pat: NumberPattern): Decimal
    requires i + |pat.prefix| <= |s|
  {
    NumberAt(s, NumberStart(s, i + |pat.prefix|))
  }

  /** The start of the leftmost match of the number pattern. */
  function FirstNumber(s: string, pat: NumberPattern): (r: Option<nat>)
    ensures r.Some? ==> r.value <= |s| && NumberMatchesAt(s, r.value, pat)
    ensures r.Some? ==> forall j :: 0 <= j < r.value ==> !NumberMatchesAt(s, j, pat)
    ensures r.None? ==> forall j :: 0 <= j <= |s| ==> !NumberMatchesAt(s, j, pat)
  {
    var p := (j: nat) => NumberMatchesAt(s, j, pat);
    assert forall j: nat :: p(j) == NumberMatchesAt(s, j, pat);
    First(0, |s| + 1, p)
  }

  /**
   * One radio's settings. Admission control counts as enabled unless the output says
   * "Client Admission Control: Disabled", so output without that line at all reads as enabled;
   * each threshold is the leftmost match of its pattern, and 0 without one. It never fails.
   */
  function ParseAdmissionControl(text: string): (r: AdmissionControl)
    ensures r.enabled <==> !Contains(text, DisabledLine)
    ensures r.radioLoadThreshold == NumberOrZero(text, RadioLoadPattern)
    ensures r.clientCountThreshold == NumberOrZero(text, ClientCountPattern)
    ensures r.clientThroughputThreshold
            == if FirstNumber(text, ThroughputPattern).None? then Decimal(0, "")
               else NumberCaptureAt(text, FirstNumber(text, ThroughputPattern).value, ThroughputPattern)
  {
    AdmissionControl(
      !Contains(text, DisabledLine),
      NumberOrZero(text, RadioLoadPattern),
      NumberOrZero(text, ClientCountPattern),
      match FirstNumber(text, ThroughputPattern)
      case None => Decimal(0, "")
      case Some(i) => NumberCaptureAt(text, i, ThroughputPattern))
  }

  /**
   * `getClientAdmissionControl` after both commands answered: it fails unless both outputs mention
   * "Client Admission Control", and otherwise reports each radio parsed from its own output.
   */
  function GetClientAdmissionControl(wifi0Output: string, wifi1Output: string): (r: Result<ClientAdmissionControlInfo, string>)
    ensures r.Success? <==> Contains(wifi0Output, EvidenceMarker) && Contains(wifi1Output, EvidenceMarker)
    ensures r.Success? ==> r.value == ClientAdmissionControlInfo(ParseAdmissionControl(wifi0Output), ParseAdmissionControl(wifi1Output))
    ensures r.Failure? ==> r.error == ErrorPrefix + NoEvidenceMessage
  {
    var info := ClientAdmissionControlInfo(ParseAdmissionControl(wifi0Output), ParseAdmissionControl(wifi1Output));
    if !Contains(wifi0Output, EvidenceMarker) || !Contains(wifi1Output, EvidenceMarker) then
      Failure(ErrorPrefix + NoEvidenceMessage)
    else
      Success(info)
  }

  /**
   * A "Radio Load threshold:" line read as spaces, digits, spaces and "%" at the first occurrence
   * of that label sets the radio-load threshold to those digits, as in "Radio Load threshold: 75 %".
   */
  lemma {:induction false} RadioLoadFromFirstLabel(text: string, i: nat, spaces: nat, digits: nat, gap: nat)
    requires DecomposesAt(text, i, RadioLoadPattern, spaces, digits, gap)
    requires forall j :: 0 <= j < i ==> !MatchesAt(text, j, RadioLoadPattern.prefix, false)
    ensures var c := i + |RadioLoadPattern.prefix| + spaces;
            var d := text[c..c + digits];
            IsDigits(d) && ParseAdmissionControl(text).radioLoadThreshold == DigitsValue(d)
  {
    PatternsAreWellFormed();
    FindRunAtFirstOccurrence(text, RadioLoadPattern, i, spaces, digits, gap);
  }

  /** Likewise "Client Count threshold: 20 clients" sets the client-count threshold. */
  lemma {:induction false} ClientCountFromFirstLabel(text: string, i: nat, spaces: nat, digits: nat, gap: nat)
    requires DecomposesAt(text, i, ClientCountPattern, spaces, digits, gap)
    requires forall j :: 0 <= j < i ==> !MatchesAt(text, j, ClientCountPattern.prefix, false)
    ensures var c := i + |ClientCountPattern.prefix| + spaces;
            var d := text[c..c + digits];
            IsDigits(d) && ParseAdmissionControl(text).clientCountThreshold == DigitsValue(d)
  {
    PatternsAreWellFormed();
    FindRunAtFirstOccurrence(text, ClientCountPattern, i, spaces, digits, gap);
  }

  /**
   * "Client throughput threshold:", `\s` characters, a run of digits, optionally a point and a
   * second run of digits, `\s` characters and "Mbps", at the first occurrence of that label, sets
   * the throughput threshold to that number: "Client throughput threshold: 5.5 Mbps" gives
   * `Decimal(5, "5")`, "Client throughput threshold: 10 Mbps" gives `Decimal(10, "")`.
   */
  lemma {:induction false} ThroughputFromFirstLabel(text: string, i: nat, w: nat, n: nat, point: bool, m: nat, g: nat)
    requires MatchesAt(text, i, ThroughputPattern.prefix, false)
    requires forall j :: 0 <= j < i ==> !MatchesAt(text, j, ThroughputPattern.prefix, false)
    requires NumberReading(text, i + |ThroughputPattern.prefix|, w, n, point, m, g, ThroughputPattern.suffix)
    ensures IsDigits(text[i + |ThroughputPattern.prefix| + w..i + |ThroughputPattern.prefix| + w + n])
    ensures IsDigits(FractionAt(text, i + |ThroughputPattern.prefix| + w + n, point, m))
    ensures ParseAdmissionControl(text).clientThroughputThreshold
            == Decimal(DigitsValue(text[i + |ThroughputPattern.prefix| + w..i + |ThroughputPattern.prefix| + w + n]),
                       FractionAt(text, i + |ThroughputPattern.prefix| + w + n, point, m))
  {
    NumberFromFirstLabel(text, ThroughputPattern, i, w, n, point, m, g);
  }

  /** The example above: a label, one space, "5.5", one space and the unit. */
  lemma ThroughputExample()
    ensures ParseAdmissionControl("Client throughput threshold: 5.5 Mbps").clientThroughputThreshold == Decimal(5, "5")
  {
    var text := "Client throughput threshold: 5.5 Mbps";
    ThroughputExampleReading(text);
    ThroughputFromFirstLabel(text, 0, 1, 1, true, 1, 1);
  }

  /** Helper for `ThroughputExample`: how its text splits into the label, the runs and the unit. */
  lemma ThroughputExampleReading(text: string)
    requires text == "Client throughput threshold: 5.5 Mbps"
    ensures MatchesAt(text, 0, ThroughputPattern.prefix, false)
    ensures NumberReading(text, 0 + |ThroughputPattern.prefix|, 1, 1, true, 1, 1, ThroughputPattern.suffix)
    ensures DigitsValue(text[0 + |ThroughputPattern.prefix| + 1..0 + |ThroughputPattern.prefix| + 1 + 1]) == 5
    ensures FractionAt(text, 0 + |ThroughputPattern.prefix| + 1 + 1, true, 1) == "5"
  {
    assert |ThroughputPattern.prefix| == 28;
    assert MatchesAt(text, 0, ThroughputPattern.prefix, false);
    assert text[28] == ' ' && text[29] == '5' && text[30] == '.' && text[31] == '5' && text[32] == ' ';
    assert InClass(text[28], Space) && InClass(text[32], Space);
    assert InClass(text[29], Digit) && InClass(text[31], Digit);
    assert text[29..30] == "5" && DigitsValue(text[29..30]) == 5;
  }

  /**
   * For a unit that starts with neither `\s`, a digit nor a point, such a reading at the first
   * occurrence of the label is the leftmost match, and its capture is the number read.
   */
  lemma {:induction false} NumberFromFirstLabel(text: string, pat: NumberPattern, i: nat, w: nat, n: nat, point: bool, m: nat, g: nat)
    requires |pat.suffix| >= 1 && !InClass(pat.suffix[0], Space) && !InClass(pat.suffix[0], Digit) && pat.suffix[0] != '.'
    requires MatchesAt(text, i, pat.prefix, false)
    requires forall j :: 0 <= j < i ==> !MatchesAt(text, j, pat.prefix, false)
    requires NumberReading(text, i + |pat.prefix|, w, n, point, m, g, pat.suffix)
    ensures IsDigits(text[i + |pat.prefix| + w..i + |pat.prefix| + w + n])
    ensures IsDigits(FractionAt(text, i + |pat.prefix| + w + n, point, m))
    ensures FirstNumber(text, pat) == Some(i)
    ensures NumberCaptureAt(text, i, pat) == ReadingValue(text, i + |pat.prefix| + w, n, point, m)
  {
    NumberOfReadingAt(text, pat, i, w, n, point, m, g);
    FirstNumberAt(text, pat, i);
  }

  /** Such a reading is a match, and its capture is the number read. */
  lemma {:induction false} NumberOfReadingAt(text: string, pat: NumberPattern, i: nat, w: nat, n: nat, point: bool, m: nat, g: nat)
    requires |pat.suffix| >= 1 && !InClass(pat.suffix[0], Space) && !InClass(pat.suffix[0], Digit) && pat.suffix[0] != '.'
    requires MatchesAt(text, i, pat.prefix, false)
    requires NumberReading(text, i + |pat.prefix|, w, n, point, m, g, pat.suffix)
    ensures IsDigits(text[i + |pat.prefix| + w..i + |pat.prefix| + w + n])
    ensures IsDigits(FractionAt(text, i + |pat.prefix| + w + n, point, m))
    ensures NumberMatchesAt(text, i, pat)
    ensures NumberCaptureAt(text, i, pat) == ReadingValue(text, i + |pat.prefix| + w, n, point, m)
  {
    NumberReadingIsGreedy(text, i + |pat.prefix|, w, n, point, m, g, pat.suffix);
    NumberOfGreedyRunsAt(text, pat, i, w, n, point, m, g);
  }

  /** The same, once every run of the reading is known to be the greedy one. */
  lemma {:induction false} NumberOfGreedyRunsAt(text: string, pat: NumberPattern, i: nat, w: nat, n: nat, point: bool, m: nat, g: nat)
    requires MatchesAt(text, i, pat.prefix, false)
    requires GreedyRuns(text, i + |pat.prefix|, w, n, point, m, g, pat.suffix)
    ensures IsDigits(text[i + |pat.prefix| + w..i + |pat.prefix| + w + n])
    ensures IsDigits(FractionAt(text, i + |pat.prefix| + w + n, point, m))
    ensures NumberMatchesAt(text, i, pat)
    ensures NumberCaptureAt(text, i, pat) == ReadingValue(text, i + |pat.prefix| + w, n, point, m)
  {
    MatchOfGreedyRuns(text, pat, i, w, n, point, m, g);
    CaptureOfGreedyRuns(text, pat, i, w, n, point, m);
  }

  /** With greedy runs after the label, the pattern matches. */
  lemma {:induction false} MatchOfGreedyRuns(text: string, pat: NumberPattern, i: nat, w: nat, n: nat, point: bool, m: nat, g: nat)
    requires MatchesAt(text, i, pat.prefix, false)
    requires GreedyRuns(text, i + |pat.prefix|, w, n, point, m, g, pat.suffix)
    ensures NumberMatchesAt(text, i, pat)
  {
    GreedyRunPositions(text, pat, i, w, n, point, m, g);
  }

  /** With greedy runs of `\s` and digits after the label, the capture is the number those runs read. */
  lemma {:induction false} CaptureOfGreedyRuns(text: string, pat: NumberPattern, i: nat, w: nat, n: nat, point: bool, m: nat)
    requires i + |pat.prefix| + w <= |text| && Span(text, i + |pat.prefix|, Space) == w
    requires DigitRuns(text, i + |pat.prefix| + w, n, point, m)
    ensures IsDigits(text[i + |pat.prefix| + w..i + |pat.prefix| + w + n])
    ensures IsDigits(FractionAt(text, i + |pat.prefix| + w + n, point, m))
    ensures NumberCaptureAt(text, i, pat) == ReadingValue(text, i + |pat.prefix| + w, n, point, m)
  {
    assert NumberStart(text, i + |pat.prefix|) == i + |pat.prefix| + w;
    NumberOfReading(text, i + |pat.prefix| + w, n, point, m);
  }

  /** A match whose label is the first occurrence of the label is the leftmost match. */
  lemma {:induction false} FirstNumberAt(text: string, pat: NumberPattern, i: nat)
    requires NumberMatchesAt(text, i, pat)
    requires forall j :: 0 <= j < i ==> !MatchesAt(text, j, pat.prefix, false)
    ensures FirstNumber(text, pat) == Some(i)
  {
  }

  /** `n` digits at `d`, and when `point` a point and `m` digits: each run the greedy one. */
  predicate DigitRuns(text: string, d: nat, n: nat, point: bool, m: nat)
  {
    && d + n <= |text| && Span(text, d, Digit) == n
    && (point <==> d + n < |text| && text[d + n] == '.')
    && (point ==> d + n + 1 + m <= |text| && Span(text, d + n + 1, Digit) == m)
  }

  /** The number such runs stand for: the value of the first run, the second run as its fraction. */
  function ReadingValue(text: string, d: nat, n: nat, point: bool, m: nat): Decimal
    requires d + n <= |text| && (point ==> d + n + 1 + m <= |text|)
  {
    Decimal(DigitsValue(text[d..d + n]), FractionAt(text, d + n, point, m))
  }

  /** The number read at `d` is the one its greedy runs stand for. */
  lemma {:induction false} NumberOfReading(text: string, d: nat, n: nat, point: bool, m: nat)
    requires DigitRuns(text, d, n, point, m)
    ensures IsDigits(text[d..d + n]) && IsDigits(FractionAt(text, d + n, point, m))
    ensures NumberAt(text, d) == ReadingValue(text, d, n, point, m)
  {
    var r := NumberAt(text, d);
    assert r.fraction == FractionAt(text, d + n, point, m);
  }

  /** Where a reading with `n` digits at `d`, and when `point` a point and `m` digits, ends. */
  function ReadingEnd(d: nat, n: nat, point: bool, m: nat): nat
  {
    if point then d + n + 1 + m else d + n
  }

  /**
   * From `p`: `w` `\s` characters, `n` digits, when `point` a point and `m` digits, `g` `\s`
   * characters and `suffix`.
   */
  predicate NumberReading(text: string, p: nat, w: nat, n: nat, point: bool, m: nat, g: nat, suffix: string)
  {
    && n >= 1 && MatchesAt(text, ReadingEnd(p + w, n, point, m) + g, suffix, false)
    && AllIn(text, p, p + w, Space) && AllIn(text, p + w, p + w + n, Digit)
    && (point ==> text[p + w + n] == '.' && AllIn(text, p + w + n + 1, ReadingEnd(p + w, n, point, m), Digit))
    && AllIn(text, ReadingEnd(p + w, n, point, m), ReadingEnd(p + w, n, point, m) + g, Space)
  }

  /** `g` `\s` characters at `e`, the greedy run there, and then `suffix`. */
  predicate TrailingRun(text: string, e: nat, g: nat, suffix: string)
  {
    e + g <= |text| && Span(text, e, Space) == g && MatchesAt(text, e + g, suffix, false)
  }

  /** Such a reading in which every run is as long as the greedy one makes it. */
  predicate GreedyRuns(text: string, p: nat, w: nat, n: nat, point: bool, m: nat, g: nat, suffix: string)
  {
    && n >= 1 && p + w <= |text| && Span(text, p, Space) == w
    && DigitRuns(text, p + w, n, point, m)
    && TrailingRun(text, ReadingEnd(p + w, n, point, m), g, suffix)
  }

  /**
   * When the suffix starts with neither `\s`, a digit nor a point, every run of such a reading is
   * the greedy one.
   */
  lemma {:induction false} NumberReadingIsGreedy(text: string, p: nat, w: nat, n: nat, point: bool, m: nat, g: nat, suffix: string)
    requires |suffix| >= 1 && !InClass(suffix[0], Space) && !InClass(suffix[0], Digit) && suffix[0] != '.'
    requires NumberReading(text, p, w, n, point, m, g, suffix)
    ensures GreedyRuns(text, p, w, n, point, m, g, suffix)
  {
    var e := ReadingEnd(p + w, n, point, m);
    TrailingRunIsGreedy(text, e, g, suffix);
    DigitRunsAreGreedy(text, p + w, n, point, m);
    LeadingRunIsGreedy(text, p, w);
  }

  /** Trailing `\s` characters before a suffix that starts with none of `\s`, a digit or a point. */
  lemma {:induction false} TrailingRunIsGreedy(text: string, e: nat, g: nat, suffix: string)
    requires |suffix| >= 1 && !InClass(suffix[0], Space) && !InClass(suffix[0], Digit) && suffix[0] != '.'
    requires MatchesAt(text, e + g, suffix, false) && AllIn(text, e, e + g, Space)
    ensures TrailingRun(text, e, g, suffix)
    ensures e < |text| && !InClass(text[e], Digit) && text[e] != '.'
  {
    assert SameChar(text[e + g], suffix[0], false);
    SpanExact(text, e, Space, g);
    if g > 0 {
      assert InClass(text[e], Space);
    }
  }

  /** Digit runs followed by a character that is neither a digit nor a point. */
  lemma {:induction false} DigitRunsAreGreedy(text: string, d: nat, n: nat, point: bool, m: nat)
    requires d + n <= |text| && AllIn(text, d, d + n, Digit)
    requires point ==> d + n < |text| && text[d + n] == '.' && ReadingEnd(d, n, point, m) <= |text|
    requires point ==> AllIn(text, d + n + 1, ReadingEnd(d, n, point, m), Digit)
    requires ReadingEnd(d, n, point, m) < |text|
    requires !InClass(text[ReadingEnd(d, n, point, m)], Digit) && text[ReadingEnd(d, n, point, m)] != '.'
    ensures DigitRuns(text, d, n, point, m)
  {
    if point {
      assert !InClass(text[d + n], Digit);
      SpanExact(text, d, Digit, n);
      SpanExact(text, d + n + 1, Digit, m);
    } else {
      SpanExact(text, d, Digit, n);
    }
  }

  /** Leading `\s` characters before a digit. */
  lemma {:induction false} LeadingRunIsGreedy(text: string, p: nat, w: nat)
    requires p + w < |text| && AllIn(text, p, p + w, Space) && InClass(text[p + w], Digit)
    ensures Span(text, p, Space) == w
  {
    SpanExact(text, p, Space, w);
  }

  /** Where the greedy runs of such a reading after the label start and end. */
  lemma {:induction false} GreedyRunPositions(text: string, pat: NumberPattern, i: nat, w: nat, n: nat, point: bool, m: nat, g: nat)
    requires GreedyRuns(text, i + |pat.prefix|, w, n, point, m, g, pat.suffix)
    ensures NumberStart(text, i + |pat.prefix|) == i + |pat.prefix| + w
    ensures DigitsEnd(text, i + |pat.prefix|) == i + |pat.prefix| + w + n
    ensures SuffixStart(text, i + |pat.prefix|) == ReadingEnd(i + |pat.prefix| + w, n, point, m) + g
  {
    assert NumberStart(text, i + |pat.prefix|) == i + |pat.prefix| + w;
    assert DigitsEnd(text, i + |pat.prefix|) == i + |pat.prefix| + w + n;
    assert NumberEnd(text, i + |pat.prefix| + w + n) == ReadingEnd(i + |pat.prefix| + w, n, point, m);
  }

  /** Output that says admission control is disabled passes the evidence check of its radio. */
  lemma {:induction false} DisabledLineIsEvidence(text: string)
    requires Contains(text, DisabledLine)
    ensures Contains(text, EvidenceMarker)
    ensures !ParseAdmissionControl(text).enabled
  {
    var i :| 0 <= i <= |text| - |DisabledLine| && MatchesAt(text, i, DisabledLine, false);
    assert DisabledLine[..|EvidenceMarker|] == EvidenceMarker;
    assert forall k :: 0 <= k < |EvidenceMarker| ==> SameChar(text[i + k], EvidenceMarker[k], false) by {
      forall k | 0 <= k < |EvidenceMarker| ensures SameChar(text[i + k], EvidenceMarker[k], false) {
        assert SameChar(text[i + k], DisabledLine[k], false);
      }
    }
    ContainsWitness(text, EvidenceMarker, i);
  }
}
