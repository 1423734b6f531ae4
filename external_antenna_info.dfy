/**
 * `extractMode`, `extractGain` and the `getExternalAntennaInfo` record
 * (src/tools/getExternalAntennaInfo.ts): the outputs of `get extant <radio>` and
 * `get extantgain <radio>` become each radio's antenna mode and gain.
 */
module ExternalAntenna {
  import opened Wrappers
  import opened Text
  import opened Patterns
  import opened Types

  const Unknown := "Unknown"
  const GainKey := "External Antenna Gain:"
  const ErrorPrefix := "Error getting external antenna info: "
  const NoModeMessage := "Unable to parse external antenna information"

  /** `/External Antenna Mode:\s*(\w+)/i`. */
  const ModePattern := RunPattern("External Antenna Mode:", true, Space, 0, Word, 1, "")

  /**
   * `extractMode`: the word after the first mode label that is followed by a word, or "Unknown".
   * A word has no `\s` character, so trimming it changes nothing.
   */
  function ExtractMode(text: string): (r: string)
    ensures FindRun(text, ModePattern).None? ==> r == Unknown
    ensures FindRun(text, ModePattern).Some? ==> r == FindRun(text, ModePattern).value
    ensures r == Unknown || (|r| >= 1 && forall j :: 0 <= j < |r| ==> IsWordChar(r[j]))
  {
    match FindRun(text, ModePattern)
    case None => Unknown
    case Some(w) =>
      forall j | 0 <= j < |w| ensures IsWordChar(w[j]) && !IsSpace(w[j]) {
        assert InClass(w[j], Word);
      }
      TrimNoSpace(w);
      Trim(w)
  }

  /** `extractGain`: the trimmed rest of the line after the first gain label, or "Unknown". */
  function ExtractGain(text: string): (r: string)
    ensures FindValue(text, GainKey).None? ==> r == Unknown
    ensures FindValue(text, GainKey).Some? ==> r == Trim(FindValue(text, GainKey).value)
    ensures r == Unknown || IsTrimmed(r)
  {
    match FindValue(text, GainKey)
    case None => Unknown
    case Some(v) => Trim(v)
  }

  /**
   * `getExternalAntennaInfo` after the four commands answered: each radio's mode comes from its
   * `extant` output and its gain from its `extantgain` output; it fails only when neither mode
   * could be read.
   */
  function GetExternalAntennaInfo(wifi0Mode: string, wifi0Gain: string, wifi1Mode: string, wifi1Gain: string)
    : (r: Result<ExternalAntennaInfo, string>)
    ensures r.Failure? <==> ExtractMode(wifi0Mode) == Unknown && ExtractMode(wifi1Mode) == Unknown
    ensures r.Failure? ==> r.error == ErrorPrefix + NoModeMessage
    ensures r.Success? ==> r.value == ExternalAntennaInfo(
                             AntennaRadio(ExtractMode(wifi0Mode), ExtractGain(wifi0Gain)),
                             AntennaRadio(ExtractMode(wifi1Mode), ExtractGain(wifi1Gain)))
  {
    var info := ExternalAntennaInfo(
      AntennaRadio(ExtractMode(wifi0Mode), ExtractGain(wifi0Gain)),
      AntennaRadio(ExtractMode(wifi1Mode), ExtractGain(wifi1Gain)));
    if info.wifi0.mode == Unknown && info.wifi1.mode == Unknown then
      Failure(ErrorPrefix + NoModeMessage)
    else
      Success(info)
  }

  /**
   * A mode label followed by `\s` characters and a maximal word, at the first occurrence of the
   * label, gives that word: "External Antenna Mode: Enabled" gives "Enabled".
   */
  lemma {:induction false} ModeFromFirstLabel(text: string, i: nat, spaces: nat, letters: nat)
    requires DecomposesAt(text, i, ModePattern, spaces, letters, 0)
    requires forall j :: 0 <= j < i ==> !MatchesAt(text, j, ModePattern.prefix, true)
    requires var e := i + |ModePattern.prefix| + spaces + letters; e == |text| || !IsWordChar(text[e])
    ensures var c := i + |ModePattern.prefix| + spaces;
            ExtractMode(text) == text[c..c + letters]
  {
    FindRunAtFirstOccurrence(text, ModePattern, i, spaces, letters, 0);
  }

  /**
   * A gain label whose value starts on its own line gives the trimmed rest of that line:
   * "External Antenna Gain: 3 dBi" gives "3 dBi".
   */
  lemma {:induction false} GainFromFirstLabel(text: string, i: nat, w: nat)
    requires MatchesAt(text, i, GainKey, true)
    requires forall j :: 0 <= j < i ==> !MatchesAt(text, j, GainKey, true)
    requires var p := i + |GainKey|;
             p + w < |text| && AllIn(text, p, p + w, Space) && !IsSpace(text[p + w])
    ensures var v := i + |GainKey| + w;
            ExtractGain(text) == Trim(text[v..v + Span(text, v, NotLineEnd)])
  {
    ValueOnKeyLine(text, GainKey, i, w);
  }

  /** One radio with a readable mode is enough for a record; the other radio is then "Unknown". */
  lemma {:induction false} OneModeSuffices(wifi0Mode: string, wifi0Gain: string, wifi1Mode: string, wifi1Gain: string)
    requires FindRun(wifi0Mode, ModePattern).Some?
    requires FindRun(wifi1Mode, ModePattern).None?
    ensures GetExternalAntennaInfo(wifi0Mode, wifi0Gain, wifi1Mode, wifi1Gain).Success?
            <==> FindRun(wifi0Mode, ModePattern).value != Unknown
    ensures GetExternalAntennaInfo(wifi0Mode, wifi0Gain, wifi1Mode, wifi1Gain).Success? ==>
              GetExternalAntennaInfo(wifi0Mode, wifi0Gain, wifi1Mode, wifi1Gain).value.wifi1.mode == Unknown
  {
  }
}
