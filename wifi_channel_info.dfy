/**
 * `parseChannelInfo` and the `getWiFiChannelInfo` record (src/tools/getWiFiChannelInfo.ts): the
 * output of `get channel <radio>` becomes whether the radio is on, its channel and a status text.
 */
module WiFiChannelInfo {
  import opened Wrappers
  import opened Text
  import opened Patterns

  /** One radio's channel record; `channel` is `None` where the source has `null`. */
  datatype RadioChannel = RadioChannel(radioEnabled: bool, channel: Option<nat>, status: string)

  /** The `WiFiChannelInfo` record: exactly the radios wifi0 and wifi1. */
  datatype ChannelInfo = ChannelInfo(wifi0: RadioChannel, wifi1: RadioChannel)

  const RadioOffMarker := "Radio Off"
  const InvalidInterfaceMarker := "Invalid radio interface name"
  const OkMarker := "OK"

  const RadioOffStatus := "Radio Off (no WLAN is enabled)"
  const InvalidInterfaceStatus := "Invalid radio interface"
  const OkStatus := "OK"
  const NoChannelStatus := "OK - channel information not available"
  const UnknownStatus := "Unknown status"

  /** `/Channel[:\s]+(\d+)/i`. */
  const ChannelPattern := RunPattern("Channel", true, ColonOrSpace, 1, Digit, 1, "")

  /** The channel number `parseInt` reads from the leftmost match of the channel pattern. */
  function ChannelNumber(output: string): (n: Option<nat>)
    ensures n.Some? <==> FindRun(output, ChannelPattern).Some?
    ensures n.Some? ==> IsDigits(FindRun(output, ChannelPattern).value)
                        && n.value == DigitsValue(FindRun(output, ChannelPattern).value)
  {
    match FindRun(output, ChannelPattern)
    case None => None
    case Some(d) =>
      assert IsDigits(d) by {
        forall j | 0 <= j < |d| ensures IsDigit(d[j]) {
          assert InClass(d[j], Digit);
        }
      }
      Some(DigitsValue(d))
  }

  /**
   * The record for one radio. "Radio Off" is tested first, then the invalid-interface message;
   * a channel is reported only for a radio that is on with status OK. The interface name is
   * not used.
   */
  function ParseChannelInfo(output: string, interfaceName: string): (r: RadioChannel)
    ensures r.channel.Some? ==> r.radioEnabled && r.status == OkStatus
    ensures Contains(output, RadioOffMarker) ==> r == RadioChannel(false, None, RadioOffStatus)
    ensures !Contains(output, RadioOffMarker) && Contains(output, InvalidInterfaceMarker)
            ==> r == RadioChannel(false, None, InvalidInterfaceStatus)
    ensures r.channel == (if Contains(output, RadioOffMarker) || Contains(output, InvalidInterfaceMarker)
                          then None else ChannelNumber(output))
    ensures r.radioEnabled <==> !Contains(output, RadioOffMarker) && !Contains(output, InvalidInterfaceMarker)
                                && (ChannelNumber(output).Some? || Contains(output, OkMarker))
    ensures !Contains(output, RadioOffMarker) && !Contains(output, InvalidInterfaceMarker) ==>
              r.status == (if ChannelNumber(output).Some? then OkStatus
                           else if Contains(output, OkMarker) then NoChannelStatus
                           else UnknownStatus)
  {
    if Contains(output, RadioOffMarker) then
      RadioChannel(false, None, RadioOffStatus)
    else if Contains(output, InvalidInterfaceMarker) then
      RadioChannel(false, None, InvalidInterfaceStatus)
    else if ChannelNumber(output).Some? then
      RadioChannel(true, ChannelNumber(output), OkStatus)
    else if Contains(output, OkMarker) then
      RadioChannel(true, None, NoChannelStatus)
    else
      RadioChannel(false, None, UnknownStatus)
  }

  /** The record of `getWiFiChannelInfo`: each radio parsed from the output of its own command. */
  function GetWiFiChannelInfo(wifi0Output: string, wifi1Output: string): (r: ChannelInfo)
    ensures r.wifi0 == ParseChannelInfo(wifi0Output, "wifi0")
    ensures r.wifi1 == ParseChannelInfo(wifi1Output, "wifi1")
  {
    ChannelInfo(ParseChannelInfo(wifi0Output, "wifi0"), ParseChannelInfo(wifi1Output, "wifi1"))
  }

  /** The result of parsing one radio's output does not depend on the interface name passed. */
  lemma ChannelIgnoresInterfaceName(output: string, a: string, b: string)
    ensures ParseChannelInfo(output, a) == ParseChannelInfo(output, b)
  {
  }

  /** A radio reporting an invalid interface is kept in the record, marked as disabled. */
  lemma InvalidRadioIsKept(wifi0Output: string, wifi1Output: string)
    requires !Contains(wifi1Output, RadioOffMarker) && Contains(wifi1Output, InvalidInterfaceMarker)
    ensures GetWiFiChannelInfo(wifi0Output, wifi1Output).wifi1
            == RadioChannel(false, None, InvalidInterfaceStatus)
  {
  }

  /**
   * Output whose first (case-insensitive) "Channel" is followed by `:`/`\s` characters and a run
   * of digits, and which mentions neither "Radio Off" nor an invalid interface, reports that
   * channel with status OK; "Channel: 44 (5220 Mhz)" reports channel 44.
   */
  lemma {:induction false} ChannelFromFirstLabel(output: string, i: nat, sep: nat, digits: nat)
    requires DecomposesAt(output, i, ChannelPattern, sep, digits, 0)
    requires forall j :: 0 <= j < i ==> !MatchesAt(output, j, "Channel", true)
    requires var e := i + 7 + sep + digits; e == |output| || !IsDigit(output[e])
    requires !Contains(output, RadioOffMarker) && !Contains(output, InvalidInterfaceMarker)
    ensures var d := output[i + 7 + sep..i + 7 + sep + digits];
            IsDigits(d) && ParseChannelInfo(output, "wifi1") == RadioChannel(true, Some(DigitsValue(d)), OkStatus)
  {
    FindRunAtFirstOccurrence(output, ChannelPattern, i, sep, digits, 0);
  }
}
