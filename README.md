# ruckus-ap-ssh-mcp core, modelled in Dafny

The system is an MCP server that answers questions about a Ruckus access point by logging into its
CLI (`rkscli:`) over SSH, sending one `get …` command and parsing the text that comes back. This
project models its core in two parts.

* **The two session drivers.**
  * `RuckusSSHClient.executeCommand` (src/utils/sshClient.ts) answers the `login:` and `password`
    prompts, sends the command at the first `rkscli:` prompt and schedules `exit`. It resolves with
    everything received, on close or when its safety timer fires.
  * The Docker `executeSSHCommand` (src/utils/dockerSSH.ts) does the same through an `ssh` process
    in a container. It resolves on exit code 0 and rejects on any other code, on a start failure or
    after 45 seconds. It also holds the line-block extractor `parseTextOutput`.
  * Each driver is modelled as:
    * a value (`SshClient.Shell`, `DockerSsh.Docker`) with one transition function per event;
    * an invariant (`Consistent`) preserved by every event;
    * lemmas over event sequences (`Run`);
    * a class (`ShellSession`, `DockerSession`) with the mutable variables of the handlers. Its
      methods are proved to move the state exactly as the transition functions do, and to keep the
      invariant.
* **The device-output parsers.** `parseChannelInfo`, `parseAdmissionControl`, `extractValue`,
  `parseHeartbeatInterval`, `extractMode`, `extractGain`, the serial-banner match and the evidence
  checks that turn a parse into an error message. Each parser is a pure function over the command
  output.

How the model is built:

* **Regular expressions** are modelled in module `Patterns`, the way JavaScript's backtracking
  `String.prototype.match` evaluates them: the leftmost start wins, and at that start each
  quantifier is greedy.
  * For the shapes `prefix sep* (class+) \s* suffix`, the lemma `Patterns.GreedyIsExact` proves that
    the greedy reading is exact. The classes that follow one another are disjoint, so backtracking
    cannot find another reading.
  * `key\s*(.+)` does backtrack when only spaces follow the key. `Patterns.ValueStart` models that
    case explicitly.
* **Command outputs** do not come from a live device: they are parameters of the tool functions.

## Model

| member | source | states |
|---|---|---|
| SshClient.NewRuckusClient | src/utils/sshClient.ts:14-29 | Fails with the `AP_PASSWORD` message exactly when neither the given nor the environment password is non-empty. Host, username and password each take the given value, else the environment's, else `192.168.6.162`/`admin`/empty. `debug` is on only when given as true; `timeout` is the given one or 10000. |
| SshClient.CommandClient | src/utils/sshClient.ts:157-160 | The client of `executeSSHCommand` fails exactly when `AP_PASSWORD` is empty. It uses the default timeout, has debug on exactly when `SSH_DEBUG` is "true", and takes host and username from the environment or the defaults. |
| SshClient.SafetyDelay | src/utils/sshClient.ts:141 | The safety timer's delay is never 0: a zero timeout becomes 10000, and any other value is kept. |
| Wrappers.Settle | src/utils/sshClient.ts:89 | A promise keeps its first value: settling again changes nothing, and settling an unsettled promise gives it the outcome. |
| SshClient.Receive | src/utils/sshClient.ts:92-131 | On every chunk, the output gains the chunk. In `Login`, a chunk with `login:` writes `username\n` and moves to `Password`; any other chunk writes nothing and stays. In `Password`, `password` writes `password\n` and moves to `Authenticated`. In `Authenticated`, the first `rkscli:` chunk with an unsent non-empty command writes `command\n` and sets `commandSent`; later ones, or any if there is no command, schedule `exit` with the session's delay. In `Login`, `Password` and `Done` the timers and `commandSent` are unchanged. In `Authenticated` without a prompt, and in `Done`, only the output changes. The state moves forward by at most one; at most one line is written; earlier lines are kept. |
| SshClient.FireExit | src/utils/sshClient.ts:124-127 | The oldest scheduled timer writes `exit\n`, sets `Done` and leaves the queue; every other field is unchanged. |
| SshClient.Close | src/utils/sshClient.ts:86-90 | Close disconnects and resolves with the whole output (if not yet resolved); nothing else changes. |
| SshClient.SafetyTimeout | src/utils/sshClient.ts:135-141 | Before `Done`, it disconnects and resolves with the output so far (it never rejects). Apart from the connection, the result and its own arming, nothing changes. In `Done`, it only disarms itself. State, output and written lines never change. |
| Text.Exits | src/utils/sshClient.ts:125 | `n` copies of `exit\n`, the line both transports write to end the session. |
| SshClient.StartIsConsistent | src/utils/sshClient.ts:76-78 | The freshly opened shell satisfies the session invariant. |
| SshClient.ReceiveKeepsConsistent | src/utils/sshClient.ts:92-131 | A chunk preserves the invariant. The invariant says: the written lines are fixed by the state (so the command goes out at most once, after the password); timers are pending only once the command went out or when there is none; the resolved value is a prefix of the output. |
| SshClient.FireExitKeepsConsistent | src/utils/sshClient.ts:124-127 | An exit timer preserves the invariant, adding one `exit\n` after the handshake lines. |
| SshClient.ApplyKeepsConsistent | src/utils/sshClient.ts:86-141 | Every event (chunk, exit timer, close, safety timer) preserves the invariant. |
| SshClient.RunKeepsConsistent | src/utils/sshClient.ts:76-141 | Every event sequence from a consistent session ends consistent. |
| SshClient.RunOutput | src/utils/sshClient.ts:93-94 | The output is the initial output followed by every data chunk, in arrival order, whatever the states. |
| SshClient.RunIsMonotone | src/utils/sshClient.ts:77-78 | The state never moves backwards, `commandSent` is never reset, and a resolved value never changes. |
| SshClient.SplitLoginMarkerIsMissed | src/utils/sshClient.ts:101 | "log" then "in:" leaves the session in `Login` with nothing written, although the output reads `login:`. |
| SshClient.CommandExchange | src/utils/sshClient.ts:99-131 | Login prompt, password prompt, two prompts, the exit timer and the close write username, password, command and `exit`, in that order. The session ends `Done` and disconnected, resolved with all four chunks. |
| SshClient.BannerExchange | src/utils/sshClient.ts:122-127 | Without a command, the first prompt schedules one 1000 ms `exit` timer. Its firing writes `exit\n` after username and password and sets `Done`. |
| SshClient.TimeoutResolvesWithPartialOutput | src/utils/sshClient.ts:135-141 | A safety timeout before `Done` and before any close resolves with exactly the chunks received so far. |
| SshClient.RunAppend | src/utils/sshClient.ts:92-141 | Running one more event is applying it to the state reached. |
| SshClient.ShellSession.constructor | src/utils/sshClient.ts:76-78 | The session starts with nothing received, nothing written and the safety timer armed, with the client's credentials, the command and the safety delay. |
| SshClient.ShellSession.OnData | src/utils/sshClient.ts:92-131 | The fields updated in place become `Receive` of the old state; the invariant is kept. |
| SshClient.ShellSession.OnExitTimer | src/utils/sshClient.ts:124-127 | The fields become `FireExit` of the old state; the invariant is kept. |
| SshClient.ShellSession.OnClose | src/utils/sshClient.ts:86-90 | The fields become `Close` of the old state; the invariant is kept. |
| SshClient.ShellSession.OnSafetyTimeout | src/utils/sshClient.ts:135-141 | The fields become `SafetyTimeout` of the old state; the invariant is kept. |
| DockerSsh.DockerConfig | src/utils/dockerSSH.ts:5-16 | Fails exactly when `AP_IP` or `AP_PASSWORD` is empty. The host is checked first: an empty host gives the `AP_IP` message, even with an empty password. Otherwise the host and password are exactly the environment's, and the username is the environment's or `admin`. |
| DockerSsh.Spawn | src/utils/dockerSSH.ts:11-40 | No process starts when the settings are refused, and the error is the settings' error. Otherwise the run starts with nothing received and the timer armed. |
| DockerSsh.Receive | src/utils/dockerSSH.ts:42-67 | On every chunk, stdout gains the chunk. `Please login:` in `WaitingForLogin` writes the username and moves to `SendingUsername`. `password` in that step writes the password and moves to `SendingPassword`. There, `rkscli:` writes `command\n` and moves to `CommandSent`, or, with no command, writes `exit\n` and ends in `Authenticated`. In `CommandSent`, each `rkscli:` writes `exit\n` and stays. In `Authenticated`, or with no prompt in the later steps, nothing else changes. At most one line is written and the step never moves back. |
| DockerSsh.ReceiveError | src/utils/dockerSSH.ts:69-71 | Stderr gains the chunk; nothing else changes. |
| DockerSsh.CodeText | src/utils/dockerSSH.ts:79 | The printed exit code reads back as the code (decimal digits), or is `null` when there is no code. |
| DockerSsh.Close | src/utils/dockerSSH.ts:73-81 | Clears the timer. Code 0 resolves with all of stdout; any other code, or none, rejects with `SSH process exited with code <code>. Error: <stderr>`. Nothing else changes. |
| DockerSsh.StartFailed | src/utils/dockerSSH.ts:83-86 | Clears the timer and rejects with `Failed to start Docker process: ` and the message. |
| DockerSsh.Timeout | src/utils/dockerSSH.ts:37-40 | Kills the process and rejects with `SSH connection timeout`. |
| DockerSsh.LaunchIsConsistent | src/utils/dockerSSH.ts:32-40 | A fresh run satisfies the run invariant. |
| DockerSsh.ReceiveKeepsConsistent | src/utils/dockerSSH.ts:42-67 | A stdout chunk preserves the invariant. The invariant says: the lines written are fixed by the step (command at most once, after the password, then only `exit` lines); the timer is pending only while unsettled; a killed process was rejected for the timeout; a resolved value is a prefix of stdout. |
| DockerSsh.ApplyKeepsConsistent | src/utils/dockerSSH.ts:37-86 | Every event (stdout, stderr, exit, start error, timer) preserves the invariant. |
| DockerSsh.RunKeepsConsistent | src/utils/dockerSSH.ts:37-86 | Every event sequence from a consistent run ends consistent. |
| DockerSsh.RunOutput | src/utils/dockerSSH.ts:43-44 | Stdout is the stdout chunks in arrival order. |
| DockerSsh.RunIsMonotone | src/utils/dockerSSH.ts:34-66 | The step never moves back, the outcome settles once, and a cleared timer stays cleared. |
| DockerSsh.RunAppend | src/utils/dockerSSH.ts:42-86 | Running one more event is applying it to the state reached. |
| DockerSsh.CleanExitResolvesWithStdout | src/utils/dockerSSH.ts:73-77 | Exit code 0 on an unsettled run resolves with all stdout received and leaves the timer cleared. |
| DockerSsh.ExitMessageNamesCode | src/utils/dockerSSH.ts:79 | The rejection for a non-zero code starts with the fixed prefix and ends with all of stderr. Between them sit the code's digits, without leading zeros, and they read back as the code. |
| DockerSsh.PendingTimerRejects | src/utils/dockerSSH.ts:37-40 | While the timer is pending, its firing kills the process and rejects with the timeout message, whatever the step. |
| DockerSsh.CommandExchange | src/utils/dockerSSH.ts:47-66 | `Please login:`, a password prompt and two prompts write username, password, command and `exit`, in order; stdout is the four chunks. |
| DockerSsh.BannerExchange | src/utils/dockerSSH.ts:53-62 | Without a command, the first prompt after the password writes `exit\n` at once. The run stays in `Authenticated`, and a further chunk writes nothing. |
| DockerSsh.DockerSession.constructor | src/utils/dockerSSH.ts:30-40 | Only settings `DockerConfig` accepts start a run: fresh state, timer armed. |
| DockerSsh.DockerSession.OnStdout | src/utils/dockerSSH.ts:42-67 | The fields updated in place become `Receive` of the old state; the invariant is kept. |
| DockerSsh.DockerSession.OnStderr | src/utils/dockerSSH.ts:69-71 | The fields become `ReceiveError` of the old state; the invariant is kept. |
| DockerSsh.DockerSession.OnClose | src/utils/dockerSSH.ts:73-81 | The fields become `Close` of the old state; the invariant is kept. |
| DockerSsh.DockerSession.OnError | src/utils/dockerSSH.ts:83-86 | The fields become `StartFailed` of the old state; the invariant is kept. |
| DockerSsh.DockerSession.OnTimeout | src/utils/dockerSSH.ts:37-40 | The fields become `Timeout` of the old state; the invariant is kept. |
| DockerSsh.LineWith | src/utils/dockerSSH.ts:95-96 | The first line at or after a position that contains the pattern: it contains it, no line between does, and `None` means no later line does. |
| DockerSsh.Captured | src/utils/dockerSSH.ts:90-112 | The value `parseTextOutput` returns is trimmed, and is "" when no line contains the start pattern. |
| DockerSsh.BlockEnd | src/utils/dockerSSH.ts:103-107 | The block starting at the first start line ends after its first end line, or at the last line; it holds at least one line. |
| DockerSsh.ParseTextOutput | src/utils/dockerSSH.ts:90-112 | The `for` loop over the lines, with its `capturing` flag and `result` accumulator, returns exactly `Captured` of the lines of the output. |
| DockerSsh.ScanStep | src/utils/dockerSSH.ts:95-108 | A line after which the loop goes on keeps the loop's state: capturing exactly once the first start line is behind, holding the lines from it, none with the end pattern. |
| DockerSsh.ScanReturnsLine | src/utils/dockerSSH.ts:96-100 | Without an end pattern, the first start line, trimmed, is returned as soon as it is read. |
| DockerSsh.ScanReturnsBlock | src/utils/dockerSSH.ts:103-107 | The first end line, at or after the first start line, closes the block that is returned. |
| DockerSsh.ScanEnds | src/utils/dockerSSH.ts:111 | After the last line, the trimmed accumulator is what `parseTextOutput` returns. |
| DockerSsh.CapturedLine | src/utils/dockerSSH.ts:96-100 | Without an end pattern, the result is the first start line, trimmed. |
| DockerSsh.BlockClosedAt | src/utils/dockerSSH.ts:103-107 | With an end pattern, the result is the lines from the first start line through the first end line at or after it, each followed by a line feed, trimmed. Later start lines do not restart the block. |
| DockerSsh.BlockOpenToEnd | src/utils/dockerSSH.ts:103-111 | With an end pattern that no line from the first start line on contains, the block runs through the last line. |
| DockerSsh.TerminatedStartsWithFirst | src/utils/dockerSSH.ts:104 | The accumulated block begins with its first line and a line feed. |
| DockerSsh.CapturedHoldsStart | src/utils/dockerSSH.ts:96-99 | When some line holds the start pattern (with no `\s` at either end of the pattern), the result holds it too. |
| DockerSsh.CapturedHoldsEnd | src/utils/dockerSSH.ts:105-106 | When a line at or after the first start line holds the end pattern, the result holds it too. |
| WiFiChannelInfo.ChannelNumber | src/tools/getWiFiChannelInfo.ts:25-30 | A channel is read exactly when `/Channel[:\s]+(\d+)/i` matches; its value is `parseInt` of the digits of the leftmost match. |
| WiFiChannelInfo.ParseChannelInfo | src/tools/getWiFiChannelInfo.ts:4-50 | `Radio Off` wins over every other test. An invalid interface (without `Radio Off`) gives the disabled "Invalid radio interface" record. A channel is reported only when neither occurs, and then with `radioEnabled` and status OK. `radioEnabled` holds exactly when neither occurs and a channel or `OK` is present. When neither occurs, the status is OK with a channel, else "No channel" with `OK`, else "Unknown". |
| WiFiChannelInfo.GetWiFiChannelInfo | src/tools/getWiFiChannelInfo.ts:61-64 | The record's `wifi0` and `wifi1` entries are each parsed from their own command's output. |
| WiFiChannelInfo.ChannelIgnoresInterfaceName | src/tools/getWiFiChannelInfo.ts:4 | The result does not depend on the interface name. |
| WiFiChannelInfo.InvalidRadioIsKept | src/tools/getWiFiChannelInfo.ts:15-21 | A radio reporting an invalid interface stays in the record, marked disabled with no channel. |
| WiFiChannelInfo.ChannelFromFirstLabel | src/tools/getWiFiChannelInfo.ts:25-33 | When the first "Channel" (any letter case) is followed by `:`/`\s` characters and a maximal digit run, the record is enabled, has that number and status OK. |
| ClientAdmissionControl.NumberOrZero | src/tools/getClientAdmissionControl.ts:18-19 | `parseInt` of the leftmost match's digits, or 0 without a match. |
| ClientAdmissionControl.NumberAt | src/tools/getClientAdmissionControl.ts:14 | `\d+\.?\d*` reads its leading digits as the whole part. The digits after a point, possibly none, are the fraction; there is no fraction without a point. |
| ClientAdmissionControl.FirstNumber | src/tools/getClientAdmissionControl.ts:14 | The leftmost start of the throughput pattern; no match before it, and `None` means no match at all. |
| ClientAdmissionControl.ParseAdmissionControl | src/tools/getClientAdmissionControl.ts:4-22 | `enabled` holds exactly when the text lacks `Client Admission Control: Disabled`. Each threshold is its pattern's leftmost capture, or 0. It never fails. |
| ClientAdmissionControl.GetClientAdmissionControl | src/tools/getClientAdmissionControl.ts:33-41 | Succeeds exactly when both outputs mention `Client Admission Control`, with each radio parsed from its own output. Otherwise it fails with the fixed message. |
| ClientAdmissionControl.PatternsAreWellFormed | src/tools/getClientAdmissionControl.ts:12-13 | The radio-load and client-count patterns cannot backtrack into another reading. |
| ClientAdmissionControl.RadioLoadFromFirstLabel | src/tools/getClientAdmissionControl.ts:12 | "Radio Load threshold:", spaces, digits, spaces and `%` at the first label gives those digits' value. |
| ClientAdmissionControl.ClientCountFromFirstLabel | src/tools/getClientAdmissionControl.ts:13 | Likewise, "Client Count threshold: N clients" gives N. |
| ClientAdmissionControl.ThroughputFromFirstLabel | src/tools/getClientAdmissionControl.ts:14 | "Client throughput threshold:", `\s` characters, a maximal digit run, optionally a point and a second digit run, `\s` characters and "Mbps" at the first label gives the first run's value as the whole part and the second run (or nothing) as the fraction. |
| ClientAdmissionControl.ThroughputExample | src/tools/getClientAdmissionControl.ts:14 | "Client throughput threshold: 5.5 Mbps" gives whole part 5 and fraction "5". |
| ClientAdmissionControl.NumberOfReading | src/tools/getClientAdmissionControl.ts:14 | Maximal digit runs around a point are the whole part and the fraction `\d+\.?\d*` reads. |
| ClientAdmissionControl.NumberReadingIsGreedy | src/tools/getClientAdmissionControl.ts:14 | Before "Mbps", each run of a reading of `\s*(\d+\.?\d*)\s*` is the greedy one, so backtracking finds no other reading. |
| ClientAdmissionControl.DisabledLineIsEvidence | src/tools/getClientAdmissionControl.ts:10 | Output saying "Client Admission Control: Disabled" passes the evidence check and reads as disabled. |
| AcxStatusParser.ExtractValue | src/tools/getACXStatus.ts:4-8 | The value is the trimmed group of the leftmost `key\s*(.+)` match (any letter case), or "" without one, in particular when the key does not occur. It never has leading or trailing `\s`. |
| AcxStatusParser.ParseHeartbeatInterval | src/tools/getACXStatus.ts:10-13 | The digits of the leftmost heartbeat match, or 0. |
| AcxStatusParser.ParseAcxStatus | src/tools/getACXStatus.ts:24-33 | `serviceEnabled` and `managedByACX` hold exactly when their phrases occur (letter case exact). Every other field is its extractor's value. |
| AcxStatusParser.GetAcxStatus | src/tools/getACXStatus.ts:19-38 | Empty output fails with the no-output message. Otherwise it succeeds exactly when the state or the connection status is non-empty. The failure message embeds the output's first 300 characters. |
| AcxStatusParser.ExtractValueOnKeyLine | src/tools/getACXStatus.ts:4-8 | A key followed by spaces and a non-space character gives the rest of that line, trimmed. |
| AcxStatusParser.NoValueAtTextEnd | src/tools/getACXStatus.ts:5-7 | Only `\s` after the first key gives "", even though the match may succeed by capturing a space. |
| AcxStatusParser.StateKeyInsideConfigKey | src/tools/getACXStatus.ts:27-30 | "State:" occurs 21 characters into "Configuration Update State:". |
| AcxStatusParser.StateReadsConfigUpdateLine | src/tools/getACXStatus.ts:27-30 | When the configuration-update line precedes every other "State:", the reported state is the configuration-update state. |
| AcxStatusParser.UnlabelledOutputFails | src/tools/getACXStatus.ts:36-38 | Non-empty output with neither key fails with the raw-output message. |
| AcxStatusParser.HeartbeatFromFirstLabel | src/tools/getACXStatus.ts:11-12 | The label, spaces and a maximal digit run at its first occurrence give that interval. |
| ExternalAntenna.ExtractMode | src/tools/getExternalAntennaInfo.ts:4-7 | The word of the leftmost mode match, else "Unknown". A read mode is a non-empty run of `\w` characters. |
| ExternalAntenna.ExtractGain | src/tools/getExternalAntennaInfo.ts:9-12 | The trimmed value group of the leftmost gain match, else "Unknown". |
| ExternalAntenna.GetExternalAntennaInfo | src/tools/getExternalAntennaInfo.ts:25-39 | Fails exactly when both modes are "Unknown"; gains are never checked. Each mode comes from its `extant` output and each gain from its `extantgain` output. |
| ExternalAntenna.ModeFromFirstLabel | src/tools/getExternalAntennaInfo.ts:5 | The label, spaces and a maximal word at the first label give that word. |
| ExternalAntenna.GainFromFirstLabel | src/tools/getExternalAntennaInfo.ts:10 | A gain label whose value starts on its own line gives the trimmed rest of the line. |
| ExternalAntenna.OneModeSuffices | src/tools/getExternalAntennaInfo.ts:37-39 | With one radio's mode read and the other's not, the record succeeds exactly when the word read is not "Unknown". The other radio is then "Unknown". |
| SerialNumber.ModelEnd | src/tools/getSerialNumber.ts:11 | The greedy `(.+)` ends at the last " AP:" tag of the banner line that is followed by `\s` and a digit. |
| SerialNumber.FirstBanner | src/tools/getSerialNumber.ts:11 | The leftmost banner match start; `None` means no match. |
| SerialNumber.SerialAfterTag | src/tools/getSerialNumber.ts:11 | `(\d+)` takes the whole digit run after the tag and its spaces: at least one digit, digits only. |
| SerialNumber.BannerInfo | src/tools/getSerialNumber.ts:14-17 | The model is the trimmed middle group; the serial is the digit group. |
| SerialNumber.GetSerialNumber | src/tools/getSerialNumber.ts:11-44 | The banner match wins. Otherwise the fallback's digits come with model "Unknown". It fails exactly when both patterns fail. The serial is always a non-empty digit string, of at least 12 digits in the fallback. The error embeds the first 500 characters of the output, or all of it when shorter. |
| SerialNumber.ModelEndIsLastTag | src/tools/getSerialNumber.ts:11 | A tag with no later " AP:" on its line is where the model group ends. |
| SerialNumber.FirstBannerAtFirstStart | src/tools/getSerialNumber.ts:11 | A banner match at the first "Ruckus " is the leftmost banner match. |
| SerialNumber.SerialFromBannerLine | src/tools/getSerialNumber.ts:11-17 | "Ruckus <model> AP: <digits>" at the first "Ruckus " gives those digits and the trimmed model. |
| SerialNumber.SerialAfterTagIs | src/tools/getSerialNumber.ts:11 | After the tag, spaces and a maximal digit run, the serial is that run. |
| SerialNumber.SerialFromFallback | src/tools/getSerialNumber.ts:27-33 | Without a banner, the leftmost colon, spaces and 12 or more digits give those digits with model "Unknown". |
| SerialNumber.FallbackRun | src/tools/getSerialNumber.ts:28 | The leftmost reading of `/:\s*(\d{12,})/` with a maximal digit run is its capture. |
| Patterns.FirstRun | src/tools/getWiFiChannelInfo.ts:25 | `match` starts at the leftmost position where the greedy reading succeeds. |
| Patterns.FindRun | src/tools/getWiFiChannelInfo.ts:25 | `match(...)?.[1]` is the greedy capture at that start, or `None`. |
| Patterns.CaptureAt | src/tools/getClientAdmissionControl.ts:12 | The capture has at least the pattern's minimum length, and every character is in the capture class. |
| Patterns.GreedyIsDecomposition | src/tools/getClientAdmissionControl.ts:12-13 | The greedy reading is a word of the pattern's language. |
| Patterns.GreedyIsExact | src/tools/getClientAdmissionControl.ts:12-13 | For these patterns, greedy matching succeeds wherever some reading does. It captures the longest run of any reading, and with a suffix the only one. |
| Patterns.FindRunAtFirstOccurrence | src/tools/getACXStatus.ts:11 | A reading at the prefix's first occurrence, with a maximal capture, is what `match` returns. |
| Patterns.FindRunAtLeftmostReading | src/tools/getSerialNumber.ts:28 | The leftmost reading with a maximal capture is what `match` returns, even when the prefix occurs earlier. |
| Patterns.ValueStart | src/tools/getACXStatus.ts:5 | After `\s*` backtracks, `(.+)` starts at the last possible position. It starts before the end of the spaces only when they reach the end of the text. |
| Patterns.ValueCaptureAt | src/tools/getACXStatus.ts:5 | The group `(.+)` is non-empty and holds no line terminator. |
| Patterns.FirstValue | src/tools/getACXStatus.ts:6 | The leftmost successful start of `key\s*(.+)`. |
| Patterns.ValueAtFirstKey | src/tools/getACXStatus.ts:5-6 | The match is at the key's first occurrence, or there is none: a later occurrence never wins. |
| Patterns.FindValue | src/tools/getACXStatus.ts:6-7 | The group of the leftmost match; none when the key never occurs. |
| Patterns.ValueOnKeyLine | src/tools/getExternalAntennaInfo.ts:10 | Spaces and then a non-space character after the first key give the rest of that line. |
| Patterns.ValueAtTextEnd | src/tools/getACXStatus.ts:5 | Only `\s` after the first key gives a group of `\s` only. |
| Patterns.KeysEndingTogether | src/tools/getACXStatus.ts:27-30 | Two keys whose first occurrences end at the same place give the same value. |
| Text.Trim | src/tools/getACXStatus.ts:7 | `trim()` removes exactly the leading and trailing `\s` characters; the result is trimmed. |
| Text.TrimKeepsOccurrence | src/utils/dockerSSH.ts:111 | Trimming keeps an occurrence that neither starts nor ends with `\s`. |
| Text.Take | src/tools/getACXStatus.ts:37 | `substring(0, n)` is the prefix of exactly `n` characters, or the whole text when it is shorter. |
| Text.SplitLines | src/utils/dockerSSH.ts:91 | `split('\n')` yields at least one line, no line holds a line feed, and rejoining them gives the text. |
| Text.NatToDecimal | src/utils/dockerSSH.ts:79 | A code prints as digits without leading zeros. |
| Text.DecimalRoundTrip | src/utils/dockerSSH.ts:79 | Reading the printed digits back gives the number. |

## Left out

- The ssh2 `connect`/`shell` calls, `stream.end`, `disconnect` and their failure messages ("SSH connection failed", "Failed to start shell", "Not connected"). These are foreign-library I/O. The session starts once the shell is open.
- `spawn`, the Docker argument list, the stdin writes and `kill`. These are process I/O. Written lines are recorded in `written`, and a kill sets `killed`.
- Real timers. A timer is an event. The exit timers of one session all have the same delay, so they fire oldest first, in the order Node runs them.
- The `Promise.all` fan-out of the tools is concurrency. Each parser takes the command outputs as parameters.
- `process.env` is a parameter (`Types.Environment`), with "" standing for unset.
- Logging, the debug flag's effect, `JSON.stringify` and the MCP `{content, isError}` envelope. Tool results are `Success(record)` or `Failure(message)`, the message including the tool's error prefix.
- The `catch` paths that wrap a rejected session promise as a tool error are not modelled. The model starts from the output a session resolved with.
- `WiFiChannelInfo.ChannelNumber`, `ClientAdmissionControl.NumberOrZero`, `AcxStatusParser.ParseHeartbeatInterval`: `parseInt` is exact on unbounded integers. The source's double-precision rounding of very long digit runs is not modelled.
- `ClientAdmissionControl.NumberAt`: `parseFloat` is kept as the whole part and the fraction digits (`Decimal`). There is no floating point.
- `Text.Take`: JavaScript counts UTF-16 code units and the model counts characters. The two differ only for characters outside the Basic Multilingual Plane.
- `Text.SameChar`: `/i` folds ASCII letters only. Every pattern here is ASCII, and ECMAScript never folds a non-ASCII character onto an ASCII one.
- `AcxStatusParser.ExtractValue`: the key is used as literal text. The source splices it into a regular expression, which differs only for keys with metacharacters; the five keys have none.
- `SshClient.NewRuckusClient`: a non-numeric or `NaN` timeout is not modelled; integers only.
- src/index.ts (MCP server set-up), validate-env.js and test-mcp.js are not part of this model.
- Four behaviours of the code are kept as they are:
  - Markers are tested in the current chunk, not in the accumulated output.
  - A radio reporting an invalid interface stays in the channel record.
  - No frequency band is derived from the channel.
  - The SSH client's safety timeout resolves with the partial output, while the Docker timeout rejects.
