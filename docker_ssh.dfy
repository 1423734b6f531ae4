/**
 * The Docker transport of src/utils/dockerSSH.ts: `executeSSHCommand` validates its settings,
 * starts `ssh` in a container and answers the login prompts from each chunk of stdout, settling
 * its promise on close, on a start failure or after 45 seconds; `parseTextOutput` cuts a block of
 * lines out of a command's output.
 */
module DockerSsh {
  import opened Wrappers
  import opened Text
  import opened Types

  const DefaultUsername := "admin"
  const MissingHostMessage := "AP_IP environment variable is required"
  const MissingPasswordMessage := "AP_PASSWORD environment variable is required"

  const LoginMarker := "Please login:"
  const PasswordMarker := "password"
  const PromptMarker := "rkscli:"

  /** The connection timer's delay, in milliseconds. */
  const ConnectionTimeout: nat := 45000
  const TimeoutMessage := "SSH connection timeout"
  const ExitCodePrefix := "SSH process exited with code "
  const ErrorSeparator := ". Error: "
  const StartFailurePrefix := "Failed to start Docker process: "

  /**
   * The settings read before anything is started: the host is checked before the password, and
   * only the username has a default.
   */
  function DockerConfig(env: Environment): (r: Result<SshConfig, string>)
    ensures r.Failure? <==> env.apIp == "" || env.apPassword == ""
    ensures env.apIp == "" ==> r == Failure(MissingHostMessage)
    ensures env.apIp != "" && env.apPassword == "" ==> r == Failure(MissingPasswordMessage)
    ensures r.Success? ==> r.value.host == env.apIp && r.value.password == env.apPassword
    ensures r.Success? ==> r.value.username == (if env.apUsername != "" then env.apUsername else DefaultUsername)
    ensures r.Success? ==> r.value.host != "" && r.value.username != "" && r.value.password != ""
  {
    var config := SshConfig(env.apIp, if env.apUsername != "" then env.apUsername else DefaultUsername, env.apPassword);
    if config.host == "" then Failure(MissingHostMessage)
    else if config.password == "" then Failure(MissingPasswordMessage)
    else Success(config)
  }

  /** `authStep`, in the only order its values are entered. */
  datatype AuthStep = WaitingForLogin | SendingUsername | SendingPassword | Authenticated | CommandSent

  function Rank(step: AuthStep): nat
  {
    match step
    case WaitingForLogin => 0
    case SendingUsername => 1
    case SendingPassword => 2
    case Authenticated => 3
    case CommandSent => 3
  }

  /** How the promise settles. */
  datatype Outcome = Resolved(value: string) | Rejected(message: string)

  /**
   * The state of one run: `written` is every line sent to the process's stdin, in order;
   * `timerArmed` says the connection timer is still pending, `killed` that it killed the process.
   */
  datatype Docker = Docker(
    step: AuthStep,
    output: string,
    errorOutput: string,
    written: seq<string>,
    timerArmed: bool,
    killed: bool,
    outcome: Option<Outcome>)

  /** The process has been spawned and the connection timer armed. */
  function Launch(): Docker
  {
    Docker(WaitingForLogin, "", "", [], true, false, None)
  }

  /**
   * `executeSSHCommand` up to the spawn: invalid settings fail before any process exists, and
   * valid ones start a run.
   */
  function Spawn(env: Environment): (r: Result<Docker, string>)
    ensures r.Failure? <==> DockerConfig(env).Failure?
    ensures r.Failure? ==> r.error == DockerConfig(env).error
    ensures r.Success? ==> r.value == Launch()
  {
    match DockerConfig(env)
    case Failure(e) => Failure(e)
    case Success(_) => Success(Launch())
  }

  /**
   * The stdout handler. The chunk is appended whatever the step; the markers are looked for in
   * this chunk alone, and the tests form one else-if chain, so each chunk takes at most one branch
   * and writes at most one line.
   */
  function Receive(cfg: SshConfig, command: string, d: Docker, chunk: string): (r: Docker)
    ensures r.output == d.output + chunk
    ensures r.errorOutput == d.errorOutput && r.timerArmed == d.timerArmed && r.killed == d.killed && r.outcome == d.outcome
    ensures d.step == WaitingForLogin ==>
              if Contains(chunk, LoginMarker) then r.step == SendingUsername && r.written == d.written + [cfg.username + "\n"]
              else r.step == d.step && r.written == d.written
    ensures d.step == SendingUsername ==>
              if Contains(chunk, PasswordMarker) then r.step == SendingPassword && r.written == d.written + [cfg.password + "\n"]
              else r.step == d.step && r.written == d.written
    ensures d.step == SendingPassword && Contains(chunk, PromptMarker) && command != "" ==>
              r.step == CommandSent && r.written == d.written + [command + "\n"]
    ensures d.step == SendingPassword && Contains(chunk, PromptMarker) && command == "" ==>
              r.step == Authenticated && r.written == d.written + [ExitLine]
    ensures d.step == CommandSent ==>
              r.step == CommandSent && r.written == d.written + (if Contains(chunk, PromptMarker) then [ExitLine] else [])
    ensures d.step == Authenticated || (!Contains(chunk, PromptMarker) && d.step in {SendingPassword, CommandSent}) ==>
              r == d.(output := d.output + chunk)
    ensures Rank(d.step) <= Rank(r.step)
    ensures |d.written| <= |r.written| <= |d.written| + 1 && r.written[..|d.written|] == d.written
  {
    var d := d.(output := d.output + chunk);
    if d.step == WaitingForLogin && Contains(chunk, LoginMarker) then
      d.(step := SendingUsername, written := d.written + [cfg.username + "\n"])
    else if d.step == SendingUsername && Contains(chunk, PasswordMarker) then
      d.(step := SendingPassword, written := d.written + [cfg.password + "\n"])
    else if d.step == SendingPassword && Contains(chunk, PromptMarker) then
      if command != "" then d.(step := CommandSent, written := d.written + [command + "\n"])
      else d.(step := Authenticated, written := d.written + [ExitLine])
    else if d.step == CommandSent && Contains(chunk, PromptMarker) then
      d.(written := d.written + [ExitLine])
    else d
  }

  /** The stderr handler: the text is kept for the error message and nothing else happens. */
  function ReceiveError(d: Docker, chunk: string): (r: Docker)
    ensures r.errorOutput == d.errorOutput + chunk
    ensures r.(errorOutput := d.errorOutput) == d
  {
    d.(errorOutput := d.errorOutput + chunk)
  }

  /** How JavaScript prints the exit code: its decimal digits, or "null" when there is none. */
  function CodeText(code: Option<nat>): (t: string)
    ensures code.Some? ==> IsDigits(t) && DigitsValue(t) == code.value
    ensures code.None? ==> t == "null"
  {
    match code
    case None => "null"
    case Some(n) =>
      DecimalRoundTrip(n);
      NatToDecimal(n)
  }

  /** The rejection message for a non-zero or missing exit code. */
  function ExitMessage(code: Option<nat>, errorOutput: string): string
  {
    ExitCodePrefix + CodeText(code) + ErrorSeparator + errorOutput
  }

  /**
   * The close handler: the timer is cleared; exit code 0 resolves with all of stdout, any other
   * code (or none) rejects with a message naming the code and holding all of stderr.
   */
  function Close(d: Docker, code: Option<nat>): (r: Docker)
    ensures !r.timerArmed
    ensures code == Some(0) ==> r.outcome == Settle(d.outcome, Resolved(d.output))
    ensures code != Some(0) ==> r.outcome == Settle(d.outcome, Rejected(ExitMessage(code, d.errorOutput)))
    ensures r.(timerArmed := d.timerArmed, outcome := d.outcome) == d
  {
    var result := if code == Some(0) then Resolved(d.output) else Rejected(ExitMessage(code, d.errorOutput));
    d.(timerArmed := false, outcome := Settle(d.outcome, result))
  }

  /** The error handler: the process could not start; the timer is cleared and the promise rejects. */
  function StartFailed(d: Docker, message: string): (r: Docker)
    ensures !r.timerArmed && r.outcome == Settle(d.outcome, Rejected(StartFailurePrefix + message))
    ensures r.(timerArmed := d.timerArmed, outcome := d.outcome) == d
  {
    d.(timerArmed := false, outcome := Settle(d.outcome, Rejected(StartFailurePrefix + message)))
  }

  /** The connection timer fires: the process is killed and the promise rejects. */
  function Timeout(d: Docker): (r: Docker)
    requires d.timerArmed
    ensures !r.timerArmed && r.killed && r.outcome == Settle(d.outcome, Rejected(TimeoutMessage))
    ensures r.(timerArmed := true, killed := d.killed, outcome := d.outcome) == d
  {
    d.(timerArmed := false, killed := true, outcome := Settle(d.outcome, Rejected(TimeoutMessage)))
  }

  /**
   * What every run satisfies: the lines written are fixed by the step, so the command goes out at
   * most once and only after the password; the timer is pending only while the promise is
   * unsettled; a killed process has been rejected for the timeout; a resolved value is a prefix
   * of stdout.
   */
  predicate Consistent(cfg: SshConfig, command: string, d: Docker)
  {
    && (d.timerArmed ==> d.outcome.None?)
    && (d.killed ==> d.outcome == Some(Rejected(TimeoutMessage)))
    && (d.outcome.Some? && d.outcome.value.Resolved? ==> d.outcome.value.value <= d.output)
    && match d.step
       case WaitingForLogin => d.written == []
       case SendingUsername => d.written == [cfg.username + "\n"]
       case SendingPassword => d.written == [cfg.username + "\n", cfg.password + "\n"]
       case Authenticated => command == "" && d.written == [cfg.username + "\n", cfg.password + "\n", ExitLine]
       case CommandSent =>
         && command != "" && |d.written| >= 3
         && d.written == [cfg.username + "\n", cfg.password + "\n", command + "\n"] + Exits(|d.written| - 3)
  }

  lemma LaunchIsConsistent(cfg: SshConfig, command: string)
    ensures Consistent(cfg, command, Launch())
  {
  }

  lemma {:induction false} ReceiveKeepsConsistent(cfg: SshConfig, command: string, d: Docker, chunk: string)
    requires Consistent(cfg, command, d)
    ensures Consistent(cfg, command, Receive(cfg, command, d, chunk))
  {
    var r := Receive(cfg, command, d, chunk);
    if d.outcome.Some? && d.outcome.value.Resolved? {
      assert d.outcome.value.value <= d.output <= r.output;
    }
    if d.step == CommandSent && Contains(chunk, PromptMarker) {
      var n := |d.written| - 3;
      var h := [cfg.username + "\n", cfg.password + "\n", command + "\n"];
      assert r.written == h + Exits(n) + [ExitLine];
      assert Exits(n) + [ExitLine] == Exits(n + 1);
    }
    if d.step == SendingPassword && Contains(chunk, PromptMarker) && command != "" {
      assert r.written == [cfg.username + "\n", cfg.password + "\n", command + "\n"] + Exits(0);
    }
  }

  /** The events a run reacts to; `code` is `None` where the process ended on a signal. */
  datatype Event = Stdout(chunk: string) | Stderr(chunk: string) | Exited(code: Option<nat>) | SpawnError(message: string) | TimerFired

  /** One event; a cleared timer does not fire, so that event changes nothing. */
  function Apply(cfg: SshConfig, command: string, d: Docker, e: Event): Docker
  {
    match e
    case Stdout(c) => Receive(cfg, command, d, c)
    case Stderr(c) => ReceiveError(d, c)
    case Exited(code) => Close(d, code)
    case SpawnError(m) => StartFailed(d, m)
    case TimerFired => if d.timerArmed then Timeout(d) else d
  }

  function Run(cfg: SshConfig, command: string, d: Docker, events: seq<Event>): Docker
    decreases |events|
  {
    if events == [] then d else Run(cfg, command, Apply(cfg, command, d, events[0]), events[1..])
  }

  /** The text of the stdout events, in order. */
  function StdoutText(events: seq<Event>): string
    decreases |events|
  {
    if events == [] then "" else (if events[0].Stdout? then events[0].chunk else "") + StdoutText(events[1..])
  }

  lemma {:induction false} ApplyKeepsConsistent(cfg: SshConfig, command: string, d: Docker, e: Event)
    requires Consistent(cfg, command, d)
    ensures Consistent(cfg, command, Apply(cfg, command, d, e))
  {
    if e.Stdout? {
      ReceiveKeepsConsistent(cfg, command, d, e.chunk);
    }
  }

  /** Every run started by `Launch` stays consistent, whatever the events. */
  lemma {:induction false} RunKeepsConsistent(cfg: SshConfig, command: string, d: Docker, events: seq<Event>)
    requires Consistent(cfg, command, d)
    ensures Consistent(cfg, command, Run(cfg, command, d, events))
    decreases |events|
  {
    if events != [] {
      ApplyKeepsConsistent(cfg, command, d, events[0]);
      RunKeepsConsistent(cfg, command, Apply(cfg, command, d, events[0]), events[1..]);
    }
  }

  /** Stdout is every stdout chunk in arrival order. */
  lemma {:induction false} RunOutput(cfg: SshConfig, command: string, d: Docker, events: seq<Event>)
    ensures Run(cfg, command, d, events).output == d.output + StdoutText(events)
    decreases |events|
  {
    if events != [] {
      var next := Apply(cfg, command, d, events[0]);
      assert next.output == d.output + (if events[0].Stdout? then events[0].chunk else "");
      RunOutput(cfg, command, next, events[1..]);
    }
  }

  /** The step never moves backwards and the promise settles once. */
  lemma {:induction false} RunIsMonotone(cfg: SshConfig, command: string, d: Docker, events: seq<Event>)
    ensures Rank(d.step) <= Rank(Run(cfg, command, d, events).step)
    ensures d.outcome.Some? ==> Run(cfg, command, d, events).outcome == d.outcome
    ensures !d.timerArmed ==> !Run(cfg, command, d, events).timerArmed
    decreases |events|
  {
    if events != [] {
      RunIsMonotone(cfg, command, Apply(cfg, command, d, events[0]), events[1..]);
    }
  }

  lemma {:induction false} RunAppend(cfg: SshConfig, command: string, d: Docker, events: seq<Event>, e: Event)
    ensures Run(cfg, command, d, events + [e]) == Apply(cfg, command, Run(cfg, command, d, events), e)
    decreases |events|
  {
    if events == [] {
      assert [e][1..] == [];
    } else {
      assert (events + [e])[1..] == events[1..] + [e];
      RunAppend(cfg, command, Apply(cfg, command, d, events[0]), events[1..], e);
    }
  }

  /**
   * A close with exit code 0, before anything else settled the run, resolves with all of
   * stdout; and the timer can then no longer fire.
   */
  lemma {:induction false} CleanExitResolvesWithStdout(cfg: SshConfig, command: string, events: seq<Event>)
    requires Consistent(cfg, command, Run(cfg, command, Launch(), events))
    requires Run(cfg, command, Launch(), events).outcome.None?
    ensures var d := Run(cfg, command, Launch(), events + [Exited(Some(0))]);
            d.outcome == Some(Resolved(StdoutText(events))) && !d.timerArmed
  {
    RunOutput(cfg, command, Launch(), events);
    assert Launch().output + StdoutText(events) == StdoutText(events);
    RunAppend(cfg, command, Launch(), events, Exited(Some(0)));
  }

  /**
   * A non-zero exit code can be read back from the rejection, which ends with all of stderr;
   * exit code 0 is never rejected by a close.
   */
  lemma {:induction false} ExitMessageNamesCode(n: nat, errorOutput: string)
    requires n != 0
    ensures var m := ExitMessage(Some(n), errorOutput);
            var digits := m[|ExitCodePrefix|..|m| - |ErrorSeparator| - |errorOutput|];
            && m[..|ExitCodePrefix|] == ExitCodePrefix
            && m[|m| - |errorOutput|..] == errorOutput
            && IsDigits(digits) && DigitsValue(digits) == n && (|digits| > 1 ==> digits[0] != '0')
  {
    var m := ExitMessage(Some(n), errorOutput);
    var t := CodeText(Some(n));
    assert m == ExitCodePrefix + t + ErrorSeparator + errorOutput;
    assert m[|ExitCodePrefix|..|m| - |ErrorSeparator| - |errorOutput|] == t;
  }

  /**
   * While the timer is pending it can fire: the process is killed and the run rejects with the
   * timeout message, whatever the step.
   */
  lemma {:induction false} PendingTimerRejects(cfg: SshConfig, command: string, events: seq<Event>)
    requires Consistent(cfg, command, Run(cfg, command, Launch(), events))
    requires Run(cfg, command, Launch(), events).timerArmed
    ensures var d := Run(cfg, command, Launch(), events + [TimerFired]);
            d.killed && d.outcome == Some(Rejected(TimeoutMessage))
  {
    RunAppend(cfg, command, Launch(), events, TimerFired);
  }

  /**
   * The exchange with a command: "Please login:", a password prompt, a prompt (the command goes
   * out), a prompt (`exit` goes out). Four lines are written, in this order.
   */
  lemma {:induction false} CommandExchange(cfg: SshConfig, command: string, c1: string, c2: string, c3: string, c4: string)
    requires command != ""
    requires Contains(c1, LoginMarker) && Contains(c2, PasswordMarker)
    requires Contains(c3, PromptMarker) && Contains(c4, PromptMarker)
    ensures var d := Run(cfg, command, Launch(), [Stdout(c1), Stdout(c2), Stdout(c3), Stdout(c4)]);
            d.written == [cfg.username + "\n", cfg.password + "\n", command + "\n", ExitLine]
            && d.step == CommandSent && d.output == c1 + c2 + c3 + c4
  {
    var d1 := Receive(cfg, command, Launch(), c1);
    var d2 := Receive(cfg, command, d1, c2);
    var d3 := Receive(cfg, command, d2, c3);
    var d4 := Receive(cfg, command, d3, c4);
    var events := [Stdout(c1), Stdout(c2), Stdout(c3), Stdout(c4)];
    assert Run(cfg, command, d4, []) == d4;
    assert Run(cfg, command, d3, events[3..]) == d4;
    assert Run(cfg, command, d2, events[2..]) == d4;
    assert Run(cfg, command, d1, events[1..]) == d4;
  }

  /**
   * Without a command the first prompt after the password sends `exit` straight away and the
   * run ends in `Authenticated`, where later prompts write nothing.
   */
  lemma {:induction false} BannerExchange(cfg: SshConfig, c1: string, c2: string, c3: string, c4: string)
    requires Contains(c1, LoginMarker) && Contains(c2, PasswordMarker) && Contains(c3, PromptMarker)
    ensures var d := Run(cfg, "", Launch(), [Stdout(c1), Stdout(c2), Stdout(c3), Stdout(c4)]);
            d.written == [cfg.username + "\n", cfg.password + "\n", ExitLine] && d.step == Authenticated
  {
    var d1 := Receive(cfg, "", Launch(), c1);
    var d2 := Receive(cfg, "", d1, c2);
    var d3 := Receive(cfg, "", d2, c3);
    var d4 := Receive(cfg, "", d3, c4);
    var events := [Stdout(c1), Stdout(c2), Stdout(c3), Stdout(c4)];
    assert Run(cfg, "", d4, []) == d4;
    assert Run(cfg, "", d3, events[3..]) == d4;
    assert Run(cfg, "", d2, events[2..]) == d4;
    assert Run(cfg, "", d1, events[1..]) == d4;
  }

  /**
   * One `executeSSHCommand` run: the variables its handlers update in place. The settings are
   * the ones `DockerConfig` accepted.
   */
  class DockerSession {
    const config: SshConfig
    const command: string
    var step: AuthStep
    var output: string
    var errorOutput: string
    var written: seq<string>
    var timerArmed: bool
    /** The delay the connection timer is armed with when the session starts. */
    const timerDelay: nat
    var killed: bool
    var outcome: Option<Outcome>

    function View(): Docker
      reads this
    {
      Docker(step, output, errorOutput, written, timerArmed, killed, outcome)
    }

    predicate Valid()
      reads this
    {
      Consistent(config, command, View())
    }

    /** The process has been spawned and the timer armed. */
    constructor (env: Environment, command: string)
      requires DockerConfig(env).Success?
      ensures config == DockerConfig(env).value && this.command == command
      ensures timerDelay == ConnectionTimeout
      ensures View() == Launch() && Valid()
    {
      config := DockerConfig(env).value;
      this.command := command;
      timerDelay := ConnectionTimeout;
      step := WaitingForLogin;
      output := "";
      errorOutput := "";
      written := [];
      timerArmed := true;
      killed := false;
      outcome := None;
    }

    /** The stdout `data` handler. */
    method OnStdout(chunk: string)
      requires Valid()
      modifies this
      ensures View() == Receive(config, command, old(View()), chunk) && Valid()
    {
      ReceiveKeepsConsistent(config, command, View(), chunk);
      output := output + chunk;
      if step == WaitingForLogin && Contains(chunk, LoginMarker) {
        step := SendingUsername;
        written := written + [config.username + "\n"];
      } else if step == SendingUsername && Contains(chunk, PasswordMarker) {
        step := SendingPassword;
        written := written + [config.password + "\n"];
      } else if step == SendingPassword && Contains(chunk, PromptMarker) {
        step := Authenticated;
        if command != "" {
          written := written + [command + "\n"];
          step := CommandSent;
        } else {
          written := written + [ExitLine];
        }
      } else if step == CommandSent && Contains(chunk, PromptMarker) {
        written := written + [ExitLine];
      }
    }

    /** The stderr `data` handler. */
    method OnStderr(chunk: string)
      requires Valid()
      modifies this
      ensures View() == ReceiveError(old(View()), chunk) && Valid()
    {
      errorOutput := errorOutput + chunk;
    }

    /** The `close` handler. */
    method OnClose(code: Option<nat>)
      requires Valid()
      modifies this
      ensures View() == Close(old(View()), code) && Valid()
    {
      timerArmed := false;
      if code == Some(0) {
        outcome := Settle(outcome, Resolved(output));
      } else {
        outcome := Settle(outcome, Rejected(ExitMessage(code, errorOutput)));
      }
    }

    /** The `error` handler. */
    method OnError(message: string)
      requires Valid()
      modifies this
      ensures View() == StartFailed(old(View()), message) && Valid()
    {
      timerArmed := false;
      outcome := Settle(outcome, Rejected(StartFailurePrefix + message));
    }

    /** The connection timer fires. */
    method OnTimeout()
      requires Valid() && timerArmed
      modifies this
      ensures View() == Timeout(old(View())) && Valid()
    {
      killed := true;
      timerArmed := false;
      outcome := Settle(outcome, Rejected(TimeoutMessage));
    }
  }

  /** The index of the first line at or after `from` that contains `p`. */
  function LineWith(lines: seq<string>, from: nat, p: string): (r: Option<nat>)
    ensures r.Some? ==> from <= r.value < |lines| && Contains(lines[r.value], p)
    ensures r.Some? ==> forall j :: from <= j < r.value ==> !Contains(lines[j], p)
    ensures r.None? ==> forall j :: from <= j < |lines| ==> !Contains(lines[j], p)
  {
    var has := (j: nat) => j < |lines| && Contains(lines[j], p);
    assert forall j: nat :: has(j) == (j < |lines| && Contains(lines[j], p));
    First(from, |lines|, has)
  }

  /** The lines, each followed by a line feed, as `result += line + '\n'` builds them. */
  function Terminated(lines: seq<string>): string
    decreases |lines|
  {
    if lines == [] then "" else Terminated(lines[..|lines| - 1]) + lines[|lines| - 1] + "\n"
  }

  /**
   * What `parseTextOutput` returns: nothing when no line contains the start pattern; without an
   * end pattern ("" counts as none) the first such line, trimmed; otherwise the block from that
   * line through the first line at or after it that contains the end pattern (or through the last
   * line), one line per line, trimmed. Later start lines do not restart the block.
   */
  function Captured(lines: seq<string>, start: string, end: string): (r: string)
    ensures IsTrimmed(r)
    ensures LineWith(lines, 0, start).None? ==> r == ""
  {
    match LineWith(lines, 0, start)
    case None => ""
    case Some(k) =>
      if end == "" then Trim(lines[k])
      else
        Trim(Terminated(lines[k..BlockEnd(lines, k, end)]))
  }

  /** Where the block that starts at line `k` ends (exclusive): after its first end line, or at the end. */
  function BlockEnd(lines: seq<string>, k: nat, end: string): (m: nat)
    requires k < |lines|
    ensures k < m <= |lines|
  {
    match LineWith(lines, k, end)
    case None => |lines|
    case Some(e) => e + 1
  }

  /** `parseTextOutput(output, startPattern, endPattern)`, with "" for a missing end pattern. */
  method ParseTextOutput(output: string, startPattern: string, endPattern: string) returns (r: string)
    ensures r == Captured(SplitLines(output), startPattern, endPattern)
  {
    var lines := SplitLines(output);
    var capturing := false;
    var result := "";
    var i := 0;
    while i < |lines|
      invariant Scanned(lines, startPattern, endPattern, i, capturing, result)
    {
      ghost var wasCapturing, before := capturing, result;
      var line := lines[i];
      if Contains(line, startPattern) {
        capturing := true;
        if endPattern == "" {
          ScanReturnsLine(lines, startPattern, i, wasCapturing, before);
          return Trim(line);
        }
      }
      if capturing {
        result := result + line + "\n";
        if endPattern != "" && Contains(line, endPattern) {
          ScanReturnsBlock(lines, startPattern, endPattern, i, wasCapturing, before);
          return Trim(result);
        }
      }
      ScanStep(lines, startPattern, endPattern, i, wasCapturing, before);
      i := i + 1;
    }
    ScanEnds(lines, startPattern, endPattern, capturing, result);
    return Trim(result);
  }

  /**
   * The state of `parseTextOutput` before line `i`: capturing exactly once the first start line
   * is behind, never without an end pattern, and then holding the lines from the first start line,
   * none of which (before `i`) contains the end pattern.
   */
  ghost predicate Scanned(lines: seq<string>, start: string, end: string, i: nat, capturing: bool, result: string)
  {
    && i <= |lines|
    && var k := LineWith(lines, 0, start);
       && (capturing <==> k.Some? && k.value < i)
       && (end == "" ==> !capturing)
       && (!capturing ==> result == "")
       && (capturing ==> result == Terminated(lines[k.value..i]))
       && (capturing ==> LineWith(lines, k.value, end).None? || LineWith(lines, k.value, end).value >= i)
  }

  /** Without an end pattern, the first start line is returned as soon as it is read. */
  lemma {:induction false} ScanReturnsLine(lines: seq<string>, start: string, i: nat, capturing: bool, result: string)
    requires i < |lines| && Scanned(lines, start, "", i, capturing, result) && Contains(lines[i], start)
    ensures Captured(lines, start, "") == Trim(lines[i])
  {
    FirstStartLine(lines, start, i);
    CapturedLine(lines, start, i);
  }

  /** The first end line at or after the first start line closes the block returned. */
  lemma {:induction false} ScanReturnsBlock(lines: seq<string>, start: string, end: string, i: nat, capturing: bool, result: string)
    requires i < |lines| && Scanned(lines, start, end, i, capturing, result) && end != ""
    requires (capturing || Contains(lines[i], start)) && Contains(lines[i], end)
    ensures Captured(lines, start, end) == Trim(result + lines[i] + "\n")
  {
    if !capturing {
      FirstStartLine(lines, start, i);
    }
    var k := LineWith(lines, 0, start).value;
    TerminatedExtend(lines, k, i);
    BlockClosedAt(lines, start, end, k, i);
  }

  /** A line after which `parseTextOutput` goes on keeps the state. */
  lemma {:induction false} ScanStep(lines: seq<string>, start: string, end: string, i: nat, capturing: bool, result: string)
    requires i < |lines| && Scanned(lines, start, end, i, capturing, result)
    requires !(Contains(lines[i], start) && end == "")
    requires var now := capturing || Contains(lines[i], start);
             !(now && end != "" && Contains(lines[i], end))
    ensures var now := capturing || Contains(lines[i], start);
            Scanned(lines, start, end, i + 1, now, if now then result + lines[i] + "\n" else result)
  {
    var k := LineWith(lines, 0, start);
    if !capturing && Contains(lines[i], start) {
      FirstStartLine(lines, start, i);
    }
    if capturing || Contains(lines[i], start) {
      TerminatedExtend(lines, k.value, i);
    }
  }

  /** Reading every line without returning leaves the block (possibly empty) to be returned. */
  lemma {:induction false} ScanEnds(lines: seq<string>, start: string, end: string, capturing: bool, result: string)
    requires Scanned(lines, start, end, |lines|, capturing, result)
    ensures Captured(lines, start, end) == Trim(result)
  {
    if capturing {
      BlockOpenToEnd(lines, start, end, LineWith(lines, 0, start).value);
    }
  }

  /** The first line containing the pattern, when no earlier line does. */
  lemma {:induction false} FirstStartLine(lines: seq<string>, p: string, i: nat)
    requires i < |lines| && Contains(lines[i], p)
    requires LineWith(lines, 0, p).None? || LineWith(lines, 0, p).value >= i
    ensures LineWith(lines, 0, p) == Some(i)
  {
  }

  /** Appending line `i` to the block of lines `k` up to `i`. */
  lemma {:induction false} TerminatedExtend(lines: seq<string>, k: nat, i: nat)
    requires k <= i < |lines|
    ensures Terminated(lines[k..i + 1]) == Terminated(lines[k..i]) + lines[i] + "\n"
  {
    assert lines[k..i + 1][..i - k] == lines[k..i];
  }

  /** The first end line at or after `k` closes the block. */
  lemma {:induction false} EndLineReached(lines: seq<string>, k: nat, p: string, i: nat)
    requires k <= i < |lines| && Contains(lines[i], p)
    requires LineWith(lines, k, p).None? || LineWith(lines, k, p).value >= i
    ensures LineWith(lines, k, p) == Some(i) && BlockEnd(lines, k, p) == i + 1
  {
  }

  /** Without an end pattern the first start line is the text returned. */
  lemma {:induction false} CapturedLine(lines: seq<string>, start: string, k: nat)
    requires LineWith(lines, 0, start) == Some(k)
    ensures Captured(lines, start, "") == Trim(lines[k])
  {
  }

  /** The first end line `i` at or after the first start line `k` closes the block returned. */
  lemma {:induction false} BlockClosedAt(lines: seq<string>, start: string, end: string, k: nat, i: nat)
    requires LineWith(lines, 0, start) == Some(k) && end != ""
    requires k <= i < |lines| && Contains(lines[i], end)
    requires LineWith(lines, k, end).None? || LineWith(lines, k, end).value >= i
    ensures Captured(lines, start, end) == Trim(Terminated(lines[k..i + 1]))
  {
    EndLineReached(lines, k, end, i);
  }

  /** Without an end line at or after the first start line `k`, the block returned runs through the last line. */
  lemma {:induction false} BlockOpenToEnd(lines: seq<string>, start: string, end: string, k: nat)
    requires LineWith(lines, 0, start) == Some(k) && end != ""
    requires LineWith(lines, k, end).None? || LineWith(lines, k, end).value >= |lines|
    ensures Captured(lines, start, end) == Trim(Terminated(lines[k..|lines|]))
  {
  }

  /** A block of lines starts with its first line. */
  lemma {:induction false} TerminatedStartsWithFirst(lines: seq<string>)
    requires |lines| >= 1
    ensures Terminated(lines) == lines[0] + "\n" + Terminated(lines[1..])
    decreases |lines|
  {
    if |lines| > 1 {
      var init := lines[..|lines| - 1];
      TerminatedStartsWithFirst(init);
      assert init[1..] == lines[1..][..|lines| - 2];
    } else {
      assert lines[1..] == [];
    }
  }

  /**
   * The text returned holds the start pattern whenever some line does, provided the pattern does
   * not begin or end with a `\s` character (which trimming could cut off).
   */
  lemma {:induction false} CapturedHoldsStart(lines: seq<string>, start: string, end: string)
    requires LineWith(lines, 0, start).Some?
    requires |start| > 0 && !IsSpace(start[0]) && !IsSpace(start[|start| - 1])
    ensures Contains(Captured(lines, start, end), start)
  {
    var k := LineWith(lines, 0, start).value;
    var text: string;
    if end == "" {
      text := lines[k];
    } else {
      var block := lines[k..BlockEnd(lines, k, end)];
      TerminatedStartsWithFirst(block);
      ContainsInConcat(lines[k], "\n" + Terminated(block[1..]), start);
      text := Terminated(block);
      assert text == lines[k] + ("\n" + Terminated(block[1..]));
    }
    assert Captured(lines, start, end) == Trim(text);
    TrimmedContains(text, start);
  }

  /**
   * With an end pattern that some line at or after the first start line contains, the text
   * returned holds that end pattern too (same proviso on `\s` at its ends): the block stops at it.
   */
  lemma {:induction false} CapturedHoldsEnd(lines: seq<string>, start: string, end: string)
    requires LineWith(lines, 0, start).Some? && LineWith(lines, LineWith(lines, 0, start).value, end).Some?
    requires |end| > 0 && !IsSpace(end[0]) && !IsSpace(end[|end| - 1])
    ensures Contains(Captured(lines, start, end), end)
  {
    var k := LineWith(lines, 0, start).value;
    var e := LineWith(lines, k, end).value;
    BlockClosedAt(lines, start, end, k, e);
    var block := lines[k..e + 1];
    assert block[|block| - 1] == lines[e];
    LastLineInTerminated(block, end);
    TrimmedContains(Terminated(block), end);
  }

  /** A block of lines contains what its last line contains. */
  lemma {:induction false} LastLineInTerminated(block: seq<string>, p: string)
    requires |block| >= 1 && Contains(block[|block| - 1], p)
    ensures Contains(Terminated(block), p)
  {
    var last := block[|block| - 1];
    ContainsInConcat(last, "\n", p);
    ContainsInSuffix(Terminated(block[..|block| - 1]), last + "\n", p);
    assert Terminated(block) == Terminated(block[..|block| - 1]) + (last + "\n");
  }

  /** Trimming keeps an occurrence of a pattern that neither begins nor ends with a `\s` character. */
  lemma {:induction false} TrimmedContains(text: string, p: string)
    requires Contains(text, p)
    requires |p| > 0 && !IsSpace(p[0]) && !IsSpace(p[|p| - 1])
    ensures Contains(Trim(text), p)
  {
    var i :| 0 <= i <= |text| - |p| && MatchesAt(text, i, p, false);
    TrimKeepsOccurrence(text, p, i);
  }
}
