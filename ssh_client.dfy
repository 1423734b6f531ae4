/**
 * `RuckusSSHClient` (src/utils/sshClient.ts): the client settings chosen at construction, and the
 * interactive shell session of `executeCommand`, which answers the access point's login prompts
 * from the text of each chunk it receives, sends one command, schedules `exit` and resolves with
 * everything it received.
 */
module SshClient {
  import opened Wrappers
  import opened Text
  import opened Types

  const DefaultHost := "192.168.6.162"
  const DefaultUsername := "admin"
  const DefaultTimeout: int := 10000
  const MissingPasswordMessage := "AP_PASSWORD environment variable is required"

  const LoginMarker := "login:"
  const PasswordMarker := "password"
  const PromptMarker := "rkscli:"
  const CommandExitDelay: nat := 100
  const BannerExitDelay: nat := 1000

  /** `SSHClientOptions`: `None` where the caller left the option out. */
  datatype ClientOptions = ClientOptions(debug: Option<bool>, timeout: Option<int>)

  /** What a constructed client holds: its connection settings and its options. */
  datatype Settings = Settings(config: SshConfig, debug: bool, timeout: int)

  /** JavaScript `a || b` on strings: the empty string is the only false one. */
  function OrElse(a: string, b: string): string
  {
    if a != "" then a else b
  }

  /**
   * The constructor: each connection field is the given one, else the environment's, else the
   * default (only the password has the empty default), and a client without a password is refused.
   * `debug` and `timeout` default only when left out, so an explicit timeout of 0 is kept here.
   */
  function NewRuckusClient(given: SshConfig, env: Environment, options: ClientOptions): (r: Result<Settings, string>)
    ensures r.Failure? <==> given.password == "" && env.apPassword == ""
    ensures r.Failure? ==> r.error == MissingPasswordMessage
    ensures r.Success? ==> r.value.config.host != "" && r.value.config.username != "" && r.value.config.password != ""
    ensures r.Success? ==> r.value.config.host == (if given.host != "" then given.host
                                                   else if env.apIp != "" then env.apIp else DefaultHost)
    ensures r.Success? ==> r.value.config.username == (if given.username != "" then given.username
                                                       else if env.apUsername != "" then env.apUsername else DefaultUsername)
    ensures r.Success? ==> r.value.config.password == (if given.password != "" then given.password else env.apPassword)
    ensures r.Success? ==> r.value.debug == (options.debug == Some(true))
    ensures r.Success? ==> r.value.timeout == (if options.timeout.Some? then options.timeout.value else DefaultTimeout)
  {
    var config := SshConfig(
      OrElse(given.host, OrElse(env.apIp, DefaultHost)),
      OrElse(given.username, OrElse(env.apUsername, DefaultUsername)),
      OrElse(given.password, OrElse(env.apPassword, "")));
    var debug := match options.debug case Some(d) => d case None => false;
    var timeout := match options.timeout case Some(t) => t case None => DefaultTimeout;
    if config.password == "" then Failure(MissingPasswordMessage) else Success(Settings(config, debug, timeout))
  }

  /**
   * The client `executeSSHCommand` builds: nothing given but the debug flag, which is on exactly
   * when `SSH_DEBUG` is "true"; its timeout is therefore the default.
   */
  function CommandClient(env: Environment, sshDebug: string): (r: Result<Settings, string>)
    ensures r.Failure? <==> env.apPassword == ""
    ensures r.Success? ==> r.value.timeout == DefaultTimeout && (r.value.debug <==> sshDebug == "true")
    ensures r.Success? ==> r.value.config == SshConfig(OrElse(env.apIp, DefaultHost), OrElse(env.apUsername, DefaultUsername), env.apPassword)
  {
    NewRuckusClient(SshConfig("", "", ""), env, ClientOptions(Some(sshDebug == "true"), None))
  }

  /** The delay of the safety timer, `timeout || 10000`: a zero timeout means the default. */
  function SafetyDelay(timeout: int): (d: int)
    ensures d != 0
    ensures timeout != 0 ==> d == timeout
  {
    if timeout == 0 then DefaultTimeout else timeout
  }

  /** The states of the login exchange, in the only order they are entered. */
  datatype Phase = Login | Password | Authenticated | Done

  function Rank(p: Phase): nat
  {
    match p
    case Login => 0
    case Password => 1
    case Authenticated => 2
    case Done => 3
  }

  /** The fixed inputs of one session: the credentials and the command ("" for none). */
  datatype Script = Script(username: string, password: string, command: string)

  /**
   * The state of one shell session: `written` is every line sent to the stream, in order;
   * `exitTimers` the delays of the scheduled `exit` timers that have not fired, oldest first;
   * `connected` is false once cleaned up; `result` is the value the promise resolved with.
   */
  datatype Shell = Shell(
    state: Phase,
    commandSent: bool,
    output: string,
    written: seq<string>,
    exitTimers: seq<nat>,
    connected: bool,
    safetyArmed: bool,
    result: Option<string>)

  /** The session when the shell has just opened and the safety timer is armed. */
  function Start(): Shell
  {
    Shell(Login, false, "", [], [], true, true, None)
  }

  /** The delay before `exit` once the prompt is seen for the last time. */
  function ExitDelay(sc: Script): nat
  {
    if sc.command != "" then CommandExitDelay else BannerExitDelay
  }

  /**
   * The data handler. The chunk is appended to the output whatever the state; the markers are
   * looked for in this chunk alone. Each chunk writes at most one line and moves at most one
   * state forward; in `Done` it writes nothing.
   */
  function Receive(sc: Script, sh: Shell, chunk: string): (r: Shell)
    ensures r.output == sh.output + chunk
    ensures r.result == sh.result && r.connected == sh.connected && r.safetyArmed == sh.safetyArmed
    ensures sh.state == Login ==>
              if Contains(chunk, LoginMarker) then r.state == Password && r.written == sh.written + [sc.username + "\n"]
              else r.state == Login && r.written == sh.written
    ensures sh.state == Password ==>
              if Contains(chunk, PasswordMarker) then r.state == Authenticated && r.written == sh.written + [sc.password + "\n"]
              else r.state == Password && r.written == sh.written
    ensures sh.state == Authenticated ==> r.state == Authenticated
    ensures sh.state == Authenticated && Contains(chunk, PromptMarker) && sc.command != "" && !sh.commandSent ==>
              r.written == sh.written + [sc.command + "\n"] && r.commandSent && r.exitTimers == sh.exitTimers
    ensures sh.state == Authenticated && Contains(chunk, PromptMarker) && (sc.command == "" || sh.commandSent) ==>
              r.written == sh.written && r.exitTimers == sh.exitTimers + [ExitDelay(sc)]
    ensures r.commandSent != sh.commandSent ==> sh.state == Authenticated && sc.command != "" && r.commandSent
    ensures sh.state == Done || !Contains(chunk, PromptMarker) ==> r.exitTimers == sh.exitTimers
    ensures sh.state != Authenticated ==> r.exitTimers == sh.exitTimers && r.commandSent == sh.commandSent
    ensures sh.state == Authenticated && !Contains(chunk, PromptMarker) ==> r == sh.(output := sh.output + chunk)
    ensures sh.state == Done ==> r == sh.(output := sh.output + chunk)
    ensures Rank(sh.state) <= Rank(r.state) <= Rank(sh.state) + 1
    ensures |sh.written| <= |r.written| <= |sh.written| + 1 && r.written[..|sh.written|] == sh.written
  {
    var sh := sh.(output := sh.output + chunk);
    match sh.state
    case Login =>
      if Contains(chunk, LoginMarker) then sh.(written := sh.written + [sc.username + "\n"], state := Password) else sh
    case Password =>
      if Contains(chunk, PasswordMarker) then sh.(written := sh.written + [sc.password + "\n"], state := Authenticated) else sh
    case Authenticated =>
      if !Contains(chunk, PromptMarker) then sh
      else if sc.command != "" && !sh.commandSent then sh.(written := sh.written + [sc.command + "\n"], commandSent := true)
      else sh.(exitTimers := sh.exitTimers + [ExitDelay(sc)])
    case Done => sh
  }

  /** The oldest `exit` timer fires: it writes `exit` and ends the exchange. */
  function FireExit(sh: Shell): (r: Shell)
    requires |sh.exitTimers| > 0
    ensures r.state == Done && r.written == sh.written + [ExitLine] && r.exitTimers == sh.exitTimers[1..]
    ensures r.(written := sh.written, state := sh.state, exitTimers := sh.exitTimers) == sh
  {
    sh.(written := sh.written + [ExitLine], state := Done, exitTimers := sh.exitTimers[1..])
  }

  /** The stream closes: the client is cleaned up and the promise resolves with the output. */
  function Close(sh: Shell): (r: Shell)
    ensures !r.connected && r.result == Settle(sh.result, sh.output)
    ensures r.(connected := sh.connected, result := sh.result) == sh
  {
    sh.(connected := false, result := Settle(sh.result, sh.output))
  }

  /**
   * The safety timer fires: before `Done` it cleans up and resolves with the output received so
   * far (it never rejects); after `Done` it does nothing. It is never cleared.
   */
  function SafetyTimeout(sh: Shell): (r: Shell)
    ensures !r.safetyArmed
    ensures sh.state != Done ==> !r.connected && r.result == Settle(sh.result, sh.output)
    ensures sh.state != Done ==> r.(safetyArmed := sh.safetyArmed, connected := sh.connected, result := sh.result) == sh
    ensures sh.state == Done ==> r == sh.(safetyArmed := false)
    ensures r.state == sh.state && r.output == sh.output && r.written == sh.written
  {
    var sh := sh.(safetyArmed := false);
    if sh.state != Done then sh.(connected := false, result := Settle(sh.result, sh.output)) else sh
  }

  /** The lines written before any `exit`: the username, the password and, once sent, the command. */
  function Handshake(sc: Script, commandSent: bool): seq<string>
  {
    [sc.username + "\n", sc.password + "\n"] + (if commandSent then [sc.command + "\n"] else [])
  }

  /**
   * What every reachable session satisfies: the lines written so far are fixed by the state
   * (so the command is written at most once and never before the password), an exit timer is
   * pending only after the command went out or when there is none, and a resolved value is a
   * prefix of the output.
   */
  predicate Consistent(sc: Script, sh: Shell)
  {
    && (sh.commandSent ==> sc.command != "")
    && (forall k :: 0 <= k < |sh.exitTimers| ==> sh.exitTimers[k] == ExitDelay(sc))
    && (sh.result.Some? ==> sh.result.value <= sh.output)
    && match sh.state
       case Login => sh.written == [] && !sh.commandSent && sh.exitTimers == []
       case Password => sh.written == [sc.username + "\n"] && !sh.commandSent && sh.exitTimers == []
       case Authenticated =>
         && sh.written == Handshake(sc, sh.commandSent)
         && (|sh.exitTimers| > 0 ==> sc.command == "" || sh.commandSent)
       case Done =>
         && |sh.written| > |Handshake(sc, sh.commandSent)|
         && sh.written == Handshake(sc, sh.commandSent) + Exits(|sh.written| - |Handshake(sc, sh.commandSent)|)
         && (sc.command != "" ==> sh.commandSent)
  }

  lemma StartIsConsistent(sc: Script)
    ensures Consistent(sc, Start())
  {
  }

  /** A chunk keeps the session consistent. */
  lemma {:induction false} ReceiveKeepsConsistent(sc: Script, sh: Shell, chunk: string)
    requires Consistent(sc, sh)
    ensures Consistent(sc, Receive(sc, sh, chunk))
  {
    var r := Receive(sc, sh, chunk);
    if sh.result.Some? {
      assert sh.result.value <= sh.output <= r.output;
    }
    if sh.state == Done {
      assert r.written == sh.written && r.commandSent == sh.commandSent;
    }
  }

  /** Firing an exit timer keeps the session consistent: it writes one more `exit`. */
  lemma {:induction false} FireExitKeepsConsistent(sc: Script, sh: Shell)
    requires Consistent(sc, sh) && |sh.exitTimers| > 0
    ensures Consistent(sc, FireExit(sh))
  {
    var r := FireExit(sh);
    var h := Handshake(sc, sh.commandSent);
    if sh.state == Authenticated {
      assert r.written == h + Exits(1);
    } else {
      var n := |sh.written| - |h|;
      assert r.written == h + Exits(n) + [ExitLine];
      assert Exits(n) + [ExitLine] == Exits(n + 1);
    }
  }

  /** The events the session reacts to. */
  datatype Event = Data(chunk: string) | ExitTimerFired | StreamClosed | SafetyTimerFired

  /** One event; a timer that is not pending does not fire, so that event changes nothing. */
  function Apply(sc: Script, sh: Shell, e: Event): Shell
  {
    match e
    case Data(c) => Receive(sc, sh, c)
    case ExitTimerFired => if |sh.exitTimers| > 0 then FireExit(sh) else sh
    case StreamClosed => Close(sh)
    case SafetyTimerFired => if sh.safetyArmed then SafetyTimeout(sh) else sh
  }

  function Run(sc: Script, sh: Shell, events: seq<Event>): Shell
    decreases |events|
  {
    if events == [] then sh else Run(sc, Apply(sc, sh, events[0]), events[1..])
  }

  /** The text of the data events, in order. */
  function Chunks(events: seq<Event>): string
    decreases |events|
  {
    if events == [] then ""
    else (if events[0].Data? then events[0].chunk else "") + Chunks(events[1..])
  }

  lemma {:induction false} ApplyKeepsConsistent(sc: Script, sh: Shell, e: Event)
    requires Consistent(sc, sh)
    ensures Consistent(sc, Apply(sc, sh, e))
  {
    match e
    case Data(c) => ReceiveKeepsConsistent(sc, sh, c);
    case ExitTimerFired =>
      if |sh.exitTimers| > 0 {
        FireExitKeepsConsistent(sc, sh);
      }
    case StreamClosed =>
    case SafetyTimerFired =>
  }

  /** Every session reached by events from a consistent one is consistent. */
  lemma {:induction false} RunKeepsConsistent(sc: Script, sh: Shell, events: seq<Event>)
    requires Consistent(sc, sh)
    ensures Consistent(sc, Run(sc, sh, events))
    decreases |events|
  {
    if events != [] {
      ApplyKeepsConsistent(sc, sh, events[0]);
      RunKeepsConsistent(sc, Apply(sc, sh, events[0]), events[1..]);
    }
  }

  /** The output is every chunk received, in arrival order, whatever the states passed through. */
  lemma {:induction false} RunOutput(sc: Script, sh: Shell, events: seq<Event>)
    ensures Run(sc, sh, events).output == sh.output + Chunks(events)
    decreases |events|
  {
    if events != [] {
      var next := Apply(sc, sh, events[0]);
      assert next.output == sh.output + (if events[0].Data? then events[0].chunk else "");
      RunOutput(sc, next, events[1..]);
    }
  }

  /**
   * The state never moves backwards, the command-sent flag is never reset, and once the promise
   * has resolved its value does not change.
   */
  lemma {:induction false} RunIsMonotone(sc: Script, sh: Shell, events: seq<Event>)
    ensures Rank(sh.state) <= Rank(Run(sc, sh, events).state)
    ensures sh.commandSent ==> Run(sc, sh, events).commandSent
    ensures sh.result.Some? ==> Run(sc, sh, events).result == sh.result
    decreases |events|
  {
    if events != [] {
      RunIsMonotone(sc, Apply(sc, sh, events[0]), events[1..]);
    }
  }

  /**
   * A login prompt split over two chunks, "log" then "in:", is not recognised: the output holds
   * "login:" but the session still waits in `Login` and has written nothing.
   */
  lemma SplitLoginMarkerIsMissed(sc: Script)
    ensures var sh := Run(sc, Start(), [Data("log"), Data("in:")]);
            sh.output == LoginMarker && sh.state == Login && sh.written == []
  {
    assert !Contains("log", LoginMarker);
    assert !Contains("in:", LoginMarker);
  }

  /**
   * The exchange with a command: login prompt, password prompt, a prompt (the command goes out),
   * a second prompt (the `exit` timer of 100 ms is scheduled), the timer, the close. Four lines
   * are written, in this order, and the session resolves with everything received.
   */
  lemma {:induction false} CommandExchange(sc: Script, c1: string, c2: string, c3: string, c4: string)
    requires sc.command != ""
    requires Contains(c1, LoginMarker) && Contains(c2, PasswordMarker)
    requires Contains(c3, PromptMarker) && Contains(c4, PromptMarker)
    ensures var sh := Run(sc, Start(), [Data(c1), Data(c2), Data(c3), Data(c4), ExitTimerFired, StreamClosed]);
            && sh.written == [sc.username + "\n", sc.password + "\n", sc.command + "\n", ExitLine]
            && sh.state == Done && sh.result == Some(c1 + c2 + c3 + c4) && !sh.connected
  {
    var s1 := Receive(sc, Start(), c1);
    var s2 := Receive(sc, s1, c2);
    var s3 := Receive(sc, s2, c3);
    var s4 := Receive(sc, s3, c4);
    assert s4.exitTimers == [CommandExitDelay];
    var s5 := FireExit(s4);
    var s6 := Close(s5);
    assert s6.output == c1 + c2 + c3 + c4;
    var events := [Data(c1), Data(c2), Data(c3), Data(c4), ExitTimerFired, StreamClosed];
    assert Run(sc, s6, []) == s6;
    assert Run(sc, s5, events[5..]) == s6;
    assert Run(sc, s4, events[4..]) == s6;
    assert Run(sc, s3, events[3..]) == s6;
    assert Run(sc, s2, events[2..]) == s6;
    assert Run(sc, s1, events[1..]) == s6;
  }

  /**
   * Without a command (as when only the banner is wanted) the first prompt schedules `exit`
   * after 1000 ms; the lines written are the username, the password and `exit`.
   */
  lemma {:induction false} BannerExchange(sc: Script, c1: string, c2: string, c3: string)
    requires sc.command == ""
    requires Contains(c1, LoginMarker) && Contains(c2, PasswordMarker) && Contains(c3, PromptMarker)
    ensures var sh := Run(sc, Start(), [Data(c1), Data(c2), Data(c3)]);
            sh.state == Authenticated && sh.exitTimers == [BannerExitDelay]
            && sh.written == [sc.username + "\n", sc.password + "\n"]
    ensures var sh := Run(sc, Start(), [Data(c1), Data(c2), Data(c3), ExitTimerFired]);
            sh.state == Done && sh.written == [sc.username + "\n", sc.password + "\n", ExitLine]
  {
    var s1 := Receive(sc, Start(), c1);
    var s2 := Receive(sc, s1, c2);
    var s3 := Receive(sc, s2, c3);
    var s4 := FireExit(s3);
    var events := [Data(c1), Data(c2), Data(c3), ExitTimerFired];
    assert Run(sc, s3, []) == s3;
    assert Run(sc, s4, []) == s4;
    assert Run(sc, s3, events[3..]) == s4;
    assert Run(sc, s2, events[2..]) == Run(sc, s3, events[3..]);
    assert Run(sc, s1, events[1..]) == Run(sc, s2, events[2..]);
    assert [Data(c1), Data(c2), Data(c3)][1..] == [Data(c2), Data(c3)];
    assert Run(sc, s2, [Data(c3)]) == s3;
    assert Run(sc, s1, [Data(c2), Data(c3)]) == s3;
  }

  /**
   * A safety timeout before `Done` resolves with exactly the output received so far, when the
   * stream had not closed before: a stalled login still yields its partial output.
   */
  lemma {:induction false} TimeoutResolvesWithPartialOutput(sc: Script, events: seq<Event>)
    requires var sh := Run(sc, Start(), events); sh.state != Done && sh.safetyArmed && sh.result.None?
    ensures Run(sc, Start(), events + [SafetyTimerFired]).result == Some(Chunks(events))
  {
    RunOutput(sc, Start(), events);
    assert Start().output + Chunks(events) == Chunks(events);
    RunAppend(sc, Start(), events, SafetyTimerFired);
  }

  lemma {:induction false} RunAppend(sc: Script, sh: Shell, events: seq<Event>, e: Event)
    ensures Run(sc, sh, events + [e]) == Apply(sc, Run(sc, sh, events), e)
    decreases |events|
  {
    if events == [] {
      assert [e][1..] == [];
    } else {
      assert (events + [e])[1..] == events[1..] + [e];
      RunAppend(sc, Apply(sc, sh, events[0]), events[1..], e);
    }
  }

  /**
   * One `executeCommand` session: the fields the data handler, the timers and the close handler
   * update in place.
   */
  class ShellSession {
    const script: Script
    const safetyDelay: int
    var state: Phase
    var commandSent: bool
    var output: string
    var written: seq<string>
    var exitTimers: seq<nat>
    var connected: bool
    var safetyArmed: bool
    var result: Option<string>

    function View(): Shell
      reads this
    {
      Shell(state, commandSent, output, written, exitTimers, connected, safetyArmed, result)
    }

    predicate Valid()
      reads this
    {
      Consistent(script, View())
    }

    /** The shell has opened: nothing received, nothing written, the safety timer armed. */
    constructor (settings: Settings, command: string)
      ensures script == Script(settings.config.username, settings.config.password, command)
      ensures safetyDelay == SafetyDelay(settings.timeout)
      ensures View() == Start() && Valid()
    {
      script := Script(settings.config.username, settings.config.password, command);
      safetyDelay := SafetyDelay(settings.timeout);
      state := Login;
      commandSent := false;
      output := "";
      written := [];
      exitTimers := [];
      connected := true;
      safetyArmed := true;
      result := None;
      new;
      StartIsConsistent(script);
    }

    /** The `data` handler. */
    method OnData(chunk: string)
      requires Valid()
      modifies this
      ensures View() == Receive(script, old(View()), chunk) && Valid()
    {
      ReceiveKeepsConsistent(script, View(), chunk);
      output := output + chunk;
      match state {
        case Login =>
          if Contains(chunk, LoginMarker) {
            written := written + [script.username + "\n"];
            state := Password;
          }
        case Password =>
          if Contains(chunk, PasswordMarker) {
            written := written + [script.password + "\n"];
            state := Authenticated;
          }
        case Authenticated =>
          if Contains(chunk, PromptMarker) {
            if script.command != "" && !commandSent {
              written := written + [script.command + "\n"];
              commandSent := true;
            } else {
              exitTimers := exitTimers + [ExitDelay(script)];
            }
          }
        case Done =>
      }
    }

    /** The oldest scheduled `exit` timer fires. */
    method OnExitTimer()
      requires Valid() && |exitTimers| > 0
      modifies this
      ensures View() == FireExit(old(View())) && Valid()
    {
      FireExitKeepsConsistent(script, View());
      written := written + [ExitLine];
      state := Done;
      exitTimers := exitTimers[1..];
    }

    /** The `close` handler. */
    method OnClose()
      requires Valid()
      modifies this
      ensures View() == Close(old(View())) && Valid()
    {
      connected := false;
      result := Settle(result, output);
    }

    /** The safety timer fires, once. */
    method OnSafetyTimeout()
      requires Valid() && safetyArmed
      modifies this
      ensures View() == SafetyTimeout(old(View())) && Valid()
    {
      safetyArmed := false;
      if state != Done {
        connected := false;
        result := Settle(result, output);
      }
    }
  }
}
