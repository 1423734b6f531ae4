/**
 * `extractValue`, `parseHeartbeatInterval` and the `getACXStatus` record
 * (src/tools/getACXStatus.ts): the output of `get acx` becomes an `AcxStatus`.
 */
module AcxStatusParser {
  import opened Wrappers
  import opened Text
  import opened Patterns
  import opened Types

  const ErrorPrefix := "Error getting ACX status: "
  const NoOutputMessage := "No output received from get acx command"
  const UnparsedPrefix := "Unable to parse ACX status. Raw output: "
  const RawOutputLimit: nat := 300

  const ServiceEnabledMarker := "ACX Service is enabled"
  const ManagedMarker := "AP is managed by ACX"
  const StateKey := "State:"
  const ConnectionStatusKey := "Connection status:"
  const ServerListKey := "Server List:"
  const ConfigUpdateStateKey := "Configuration Update State:"
  const CertValidationKey := "Controller Cert Validation Result:"

  /** `/ACX heartbeat intervals:\s*(\d+)/i`. */
  const HeartbeatPattern := RunPattern("ACX heartbeat intervals:", true, Space, 0, Digit, 1, "")

  /**
   * `extractValue(text, key)`: the trimmed group of the leftmost match of `key\s*(.+)` under `/i`,
   * or "" when there is none, in particular when the key does not occur at all.
   */
  function ExtractValue(text: string, key: string): (r: string)
    ensures IsTrimmed(r)
    ensures FindValue(text, key).None? ==> r == ""
    ensures FindValue(text, key).Some? ==> r == Trim(FindValue(text, key).value)
    ensures (forall j :: 0 <= j <= |text| ==> !MatchesAt(text, j, key, true)) ==> r == ""
  {
    match FindValue(text, key)
    case None => ""
    case Some(v) => Trim(v)
  }

  /** `parseHeartbeatInterval`: the digits of the leftmost match, or 0. */
  function ParseHeartbeatInterval(text: string): (n: nat)
    ensures FindRun(text, HeartbeatPattern).None? ==> n == 0
    ensures FindRun(text, HeartbeatPattern).Some? ==>
              IsDigits(FindRun(text, HeartbeatPattern).value) && n == DigitsValue(FindRun(text, HeartbeatPattern).value)
  {
    match FindRun(text, HeartbeatPattern)
    case None => 0
    case Some(d) =>
      DigitRunIsDigits(text, CaptureStart(text, FirstRun(text, HeartbeatPattern).value, HeartbeatPattern),
                       CaptureStart(text, FirstRun(text, HeartbeatPattern).value, HeartbeatPattern) + |d|);
      DigitsValue(d)
  }

  /** The status record read from `output`, before the check that it was understood. */
  function ParseAcxStatus(output: string): (s: AcxStatus)
    ensures s.serviceEnabled <==> Contains(output, ServiceEnabledMarker)
    ensures s.managedByAcx <==> Contains(output, ManagedMarker)
    ensures s.state == ExtractValue(output, StateKey)
    ensures s.connectionStatus == ExtractValue(output, ConnectionStatusKey)
    ensures s.serverList == ExtractValue(output, ServerListKey)
    ensures s.configUpdateState == ExtractValue(output, ConfigUpdateStateKey)
    ensures s.heartbeatInterval == ParseHeartbeatInterval(output)
    ensures s.certValidation == ExtractValue(output, CertValidationKey)
  {
    AcxStatus(
      Contains(output, ServiceEnabledMarker),
      Contains(output, ManagedMarker),
      ExtractValue(output, StateKey),
      ExtractValue(output, ConnectionStatusKey),
      ExtractValue(output, ServerListKey),
      ExtractValue(output, ConfigUpdateStateKey),
      ParseHeartbeatInterval(output),
      ExtractValue(output, CertValidationKey))
  }

  /**
   * `getACXStatus` after the command answered: empty output is an error, and so is output from
   * which neither a state nor a connection status could be read; that error shows at most the
   * first 300 characters of the output.
   */
  function GetAcxStatus(output: string): (r: Result<AcxStatus, string>)
    ensures var status := ParseAcxStatus(output);
            r.Success? <==> output != [] && (status.state != "" || status.connectionStatus != "")
    ensures r.Success? ==> r.value == ParseAcxStatus(output)
    ensures output == [] ==> r == Failure(ErrorPrefix + NoOutputMessage)
    ensures output != [] && r.Failure? ==> r.error == ErrorPrefix + UnparsedPrefix + Take(output, RawOutputLimit)
  {
    if output == [] then
      Failure(ErrorPrefix + NoOutputMessage)
    else
      var status := ParseAcxStatus(output);
      if status.state == "" && status.connectionStatus == "" then
        Failure(ErrorPrefix + UnparsedPrefix + Take(output, RawOutputLimit))
      else
        Success(status)
  }

  /**
   * When the value after the first occurrence of a key starts on the key's own line, after `w`
   * spaces, the extracted value is the rest of that line, trimmed: "State: RUN \n..." gives "RUN".
   */
  lemma {:induction false} ExtractValueOnKeyLine(text: string, key: string, i: nat, w: nat)
    requires MatchesAt(text, i, key, true)
    requires forall j :: 0 <= j < i ==> !MatchesAt(text, j, key, true)
    requires var p := i + |key|;
             p + w < |text| && AllIn(text, p, p + w, Space) && !IsSpace(text[p + w])
    ensures var v := i + |key| + w;
            ExtractValue(text, key) == Trim(text[v..v + Span(text, v, NotLineEnd)])
  {
    ValueOnKeyLine(text, key, i, w);
  }

  /**
   * When nothing but `\s` characters follows the first occurrence of a key, the value is "",
   * although the backtracking match may still succeed by capturing a trailing space.
   */
  lemma {:induction false} NoValueAtTextEnd(text: string, key: string, i: nat)
    requires MatchesAt(text, i, key, true)
    requires forall j :: 0 <= j < i ==> !MatchesAt(text, j, key, true)
    requires forall j :: i + |key| <= j < |text| ==> IsSpace(text[j])
    ensures ExtractValue(text, key) == ""
  {
    ValueAtTextEnd(text, key, i);
    if FindValue(text, key).Some? {
      TrimAllSpace(FindValue(text, key).value);
    }
  }

  /**
   * Helper for `StateReadsConfigUpdateLine`: "State:" occurs inside "Configuration Update State:",
   * 21 characters in.
   */
  lemma {:induction false} StateKeyInsideConfigKey(text: string, i: nat)
    requires MatchesAt(text, i, ConfigUpdateStateKey, true)
    ensures MatchesAt(text, i + 21, StateKey, true)
  {
    assert ConfigUpdateStateKey[21..] == StateKey;
    forall k | 0 <= k < |StateKey| ensures SameChar(text[i + 21 + k], StateKey[k], true) {
      assert SameChar(text[i + (21 + k)], ConfigUpdateStateKey[21 + k], true);
    }
  }

  /**
   * `extractValue` looks for "State:" anywhere, so when the configuration-update line comes before
   * every other "State:", the reported state is the configuration-update state.
   */
  lemma {:induction false} StateReadsConfigUpdateLine(text: string, i: nat)
    requires MatchesAt(text, i, ConfigUpdateStateKey, true)
    requires forall j :: 0 <= j < i ==> !MatchesAt(text, j, ConfigUpdateStateKey, true)
    requires forall j :: 0 <= j < i + 21 ==> !MatchesAt(text, j, StateKey, true)
    ensures ExtractValue(text, StateKey) == ExtractValue(text, ConfigUpdateStateKey)
  {
    StateKeyInsideConfigKey(text, i);
    KeysEndingTogether(text, i + 21, StateKey, i, ConfigUpdateStateKey);
  }

  /** Non-empty output that mentions neither key (in any letter case) is reported as unparsable. */
  lemma {:induction false} UnlabelledOutputFails(output: string)
    requires output != []
    requires forall j :: 0 <= j <= |output| ==> !MatchesAt(output, j, StateKey, true)
    requires forall j :: 0 <= j <= |output| ==> !MatchesAt(output, j, ConnectionStatusKey, true)
    ensures GetAcxStatus(output) == Failure(ErrorPrefix + UnparsedPrefix + Take(output, RawOutputLimit))
  {
  }

  /**
   * A heartbeat line read as the label, `\s` characters and a maximal run of digits at the first
   * occurrence of the label sets the interval to those digits.
   */
  lemma {:induction false} HeartbeatFromFirstLabel(text: string, i: nat, spaces: nat, digits: nat)
    requires DecomposesAt(text, i, HeartbeatPattern, spaces, digits, 0)
    requires forall j :: 0 <= j < i ==> !MatchesAt(text, j, HeartbeatPattern.prefix, true)
    requires var e := i + |HeartbeatPattern.prefix| + spaces + digits; e == |text| || !IsDigit(text[e])
    ensures var c := i + |HeartbeatPattern.prefix| + spaces;
            IsDigits(text[c..c + digits]) && ParseHeartbeatInterval(text) == DigitsValue(text[c..c + digits])
  {
    FindRunAtFirstOccurrence(text, HeartbeatPattern, i, spaces, digits, 0);
  }
}
