/** web_app.py: the browser terminal. `DockerContainerManager` owns one container
    under a per-process name; the Socket.IO handlers decide which `terminal_output`
    messages a client receives and whether the engine is asked to run anything. */
module WebApp {
  import opened Text
  import opened Docker
  import Lifecycle
  import ShellApp

  const NamePrefix := "web-shell-container-"

  /** The manager's container name: the prefix and the first eight characters of the
      text of a fresh UUID. */
  function ContainerName(uuid: string): (name: string)
    ensures |name| == |NamePrefix| + (if |uuid| <= 8 then |uuid| else 8)
    ensures name[..|NamePrefix|] == NamePrefix && name[|NamePrefix|..] <= uuid
  {
    NamePrefix + Take(uuid, 8)
  }

  /** Two managers get the same name exactly when their UUIDs agree on the first
      eight characters, and no web name is the fixed name of the shell application. */
  lemma NamesFollowUuid(u1: string, u2: string)
    ensures ContainerName(u1) == ContainerName(u2) <==> Take(u1, 8) == Take(u2, 8)
    ensures ContainerName(u1) != ShellApp.ContainerName
  {
    if ContainerName(u1) == ContainerName(u2) {
      assert Take(u1, 8) == ContainerName(u1)[|NamePrefix|..];
    }
    assert ContainerName(u1)[|NamePrefix| - 1] == '-';
  }

  class DockerContainerManager {
    const containerName: string
    /** `self.container`: the SDK handle, never cleared once set. */
    var container: Option<Handle>
    /** `self.container_id`: the id text of the held container. */
    var containerId: Option<string>
    /** The engine reached through `self.client`. */
    var engine: Engine

    ghost predicate Valid()
      reads this
    {
      containerId == if container.Some? then Some(IdText(container.value.id)) else None
    }

    constructor (engine: Engine, uuid: string)
      ensures Valid()
      ensures this.engine == engine && container == None && containerName == ContainerName(uuid)
    {
      this.engine := engine;
      container := None;
      containerId := None;
      containerName := ContainerName(uuid);
    }

    /** As in the shell application; the id is recorded only when a new container
        was obtained. */
    method CreateContainer(f: Lifecycle.CreateFaults) returns (ok: bool)
      requires Valid()
      modifies this
      ensures Valid()
      ensures var r := Lifecycle.CreateContainer(old(engine), old(container), containerName, f);
              engine == r.engine && container == r.held && ok == r.ok
      ensures !ok ==> containerId == old(containerId)
    {
      var got := Get(engine, containerName, f.get);
      engine := got.engine;
      if got.result.Err? {
        if got.result.error != NotFound {
          return false;
        }
      } else {
        var existing := got.result.value;
        var failure: Option<Error> := None;
        if existing.status == Running {
          var stopped := Stop(engine, existing, f.stop);
          engine := stopped.engine;
          if stopped.result.Err? {
            failure := Some(stopped.result.error);
          }
        }
        if failure.None? {
          var removed := Remove(engine, existing, f.remove);
          engine := removed.engine;
          if removed.result.Err? {
            failure := Some(removed.result.error);
          }
        }
        if failure.Some? && failure.value != NotFound {
          return false;
        }
      }
      var run := Run(engine, containerName, Lifecycle.ShellConfig, f.run);
      engine := run.engine;
      if run.result.Err? {
        return false;
      }
      container := Some(run.result.value);
      containerId := Some(IdText(run.result.value.id));
      return true;
    }

    method StartContainer(fails: bool) returns (ok: bool)
      requires Valid()
      modifies this`engine
      ensures Valid()
      ensures var r := Lifecycle.StartContainer(old(engine), container, fails);
              engine == r.engine && ok == r.ok
    {
      if container.Some? && container.value.status != Running {
        var started := Start(engine, container.value, fails);
        engine := started.engine;
        if started.result.Err? {
          return false;
        }
      }
      return true;
    }

    /** `execute_command`: exec in the held container and turn the answer into text. */
    method ExecuteCommand(command: string, fails: bool, ran: ExecResult) returns (text: string)
      requires Valid()
      modifies this`engine
      ensures Valid()
      ensures var exec := Attempt(old(engine), container, command, fails, ran);
              engine == exec.engine && text == CommandText(container.Some?, exec.result)
    {
      if container.None? {
        return NoContainerReply;
      }
      var result := ExecRun(engine, container.value, command, fails, ran);
      engine := result.engine;
      match result.result
      case Ok(res) =>
        text := res.output;
        if res.exitCode != 0 {
          text := "[Error " + IntText(res.exitCode) + "] " + text;
        }
      case Err(err) =>
        text := "Error executing command: " + Describe(err);
    }

    /** `get_container_info`: reload and stats, errors returned rather than raised. */
    method GetContainerInfo(f: Lifecycle.InfoFaults) returns (outcome: Lifecycle.InfoOutcome)
      requires Valid()
      modifies this
      ensures Valid()
      ensures var r := Lifecycle.ContainerInfo(old(engine), old(container), f);
              engine == r.engine && container == r.held && outcome == r.outcome
    {
      if container.None? {
        return Lifecycle.NoContainer;
      }
      var reloaded := Reload(engine, container.value, f.reload);
      engine := reloaded.engine;
      if reloaded.result.Err? {
        return Lifecycle.InfoFailed(reloaded.result.error);
      }
      container := Some(reloaded.result.value);
      var stats := Stats(engine, container.value, f.stats);
      engine := stats.engine;
      if stats.result.Err? {
        return Lifecycle.InfoFailed(stats.result.error);
      }
      return Lifecycle.Shown(container.value);
    }

    method Cleanup(f: Lifecycle.CleanupFaults)
      requires Valid()
      modifies this`engine
      ensures Valid()
      ensures engine == Lifecycle.Cleanup(old(engine), container, f)
    {
      if container.Some? {
        var h := container.value;
        if h.status == Running {
          var stopped := Stop(engine, h, f.stop);
          engine := stopped.engine;
          if stopped.result.Err? {
            return;
          }
        }
        var removed := Remove(engine, h, f.remove);
        engine := removed.engine;
      }
    }
  }

  // ---------------------------------------------------------------------------
  // execute_command

  const NoContainerReply := "Error: No container available"

  /** The `exec_run` call `execute_command` makes, if it holds a container. A request
      reaches the engine only when the SDK could split the command line. */
  function Attempt(e: Engine, held: Option<Handle>, command: string, fails: bool, ran: ExecResult): (r: Docker.Reply<ExecResult>)
    ensures r.engine.containers == e.containers && r.engine.nextId == e.nextId
    ensures r.engine.log == e.log + if held.Some? && Splits(command) then [ExecCall(held.value.id, command)] else []
    ensures held.Some? && !Splits(command) ==> r.result == Err(BadCommand(SplitErrorMessage(command)))
  {
    if held.Some? then ExecRun(e, held.value, command, fails, ran) else Docker.Reply(e, Err(NotFound))
  }

  /** The text `execute_command` returns, given whether a container is held and what
      `exec_run` returned or raised. */
  function CommandText(hasContainer: bool, exec: Result<ExecResult>): (r: string)
    ensures !hasContainer ==> r == NoContainerReply
    ensures hasContainer && exec.Ok? ==>
              |exec.value.output| <= |r| && r[|r| - |exec.value.output|..] == exec.value.output
    ensures hasContainer && exec.Ok? && exec.value.exitCode != 0 ==> |r| > 7 && r[..7] == "[Error "
    ensures hasContainer && exec.Err? ==> |r| >= 25 && r[..25] == "Error executing command: "
  {
    if !hasContainer then NoContainerReply
    else match exec
      case Ok(res) =>
        if res.exitCode != 0 then "[Error " + IntText(res.exitCode) + "] " + res.output else res.output
      case Err(err) => "Error executing command: " + Describe(err)
  }

  /** A zero exit code passes the output through untouched; any other code is put in
      front of it, where it can be read back. */
  lemma ReplyCarriesExitCode(code: int, output: string)
    ensures code == 0 ==> CommandText(true, Ok(ExecResult(0, output))) == output
    ensures code != 0 ==>
              var r := CommandText(true, Ok(ExecResult(code, output)));
              |r| >= 10 + |output| && r[..7] == "[Error " && r[|r| - |output|..] == output
              && r[|r| - |output| - 2..|r| - |output|] == "] "
              && ParseInt(r[7..|r| - |output| - 2]) == code
  {
    if code != 0 {
      var r := CommandText(true, Ok(ExecResult(code, output)));
      var t := IntText(code);
      assert r == "[Error " + t + "] " + output;
      assert r[7..|r| - |output| - 2] == t;
      IntTextRoundTrip(code);
    }
  }

  /** Once the container is gone or no longer running, a command fails with an
      explicit error text instead of doing nothing. */
  lemma ExecAfterTeardownFails(e: Engine, h: Handle, command: string, fails: bool, ran: ExecResult)
    requires !Current(e, h) || e.containers[h.name].status != Running
    ensures var r := CommandText(true, ExecRun(e, h, command, fails, ran).result);
            |r| > 25 && r[..25] == "Error executing command: "
  {
  }

  /** A command line `shlex.split` rejects is answered with the split error and never
      reaches the engine. */
  lemma UnsplittableCommandReported(e: Engine, h: Handle, command: string, fails: bool, ran: ExecResult)
    requires !Splits(command)
    ensures var a := Attempt(e, Some(h), command, fails, ran);
            a.engine == e && CommandText(true, a.result) == "Error executing command: " + SplitErrorMessage(command)
  {
  }

  /** `echo it's` is such a command line: the client reads back the missing closing
      quotation, and the engine receives nothing. */
  lemma ApostropheCommandReported(e: Engine, h: Handle, fails: bool, ran: ExecResult)
    ensures var a := Attempt(e, Some(h), "echo it's", fails, ran);
            a.engine == e && CommandText(true, a.result) == "Error executing command: No closing quotation"
  {
    ApostropheDoesNotSplit();
  }

  // ---------------------------------------------------------------------------
  // handle_terminal_input

  /** The `data` of a `terminal_input` event: a dict with a string `command`, a dict
      without one, or something on which `.get(...).strip()` raises (the text is
      `str(e)`). */
  datatype Payload = Command(text: string) | NoCommand | Malformed(reason: string)

  /** The `terminal_output` messages emitted, in order; whether `disconnect()` was
      called; and the command given to `exec_run`, if any. */
  datatype Reaction = Reaction(emitted: seq<string>, disconnect: bool, executed: Option<string>)

  const Prompt := "$ "
  const ExitNotice := "Exiting shell...\r\n"

  /** `data.get('command', '').strip()`; the default `''` strips to itself. */
  function CommandOf(p: Payload): (r: string)
    ensures r == [] || (!IsSpace(r[0]) && !IsSpace(r[|r| - 1]))
    ensures r == [] <==> !p.Command? || AllSpace(p.text)
  {
    match p
    case Command(text) => Strip(text)
    case _ => ""
  }

  /** `command.lower() in ['exit', 'quit']`. */
  predicate IsExitKeyword(command: string): (b: bool)
    ensures b ==> |command| == 4 && forall i | 0 <= i < 4 :: !IsSpace(command[i])
  {
    Lower(command) == "exit" || Lower(command) == "quit"
  }

  /** The reply to an executed command, if it is not empty, then the prompt. */
  function ReplyLines(output: string): (r: seq<string>)
    ensures r != [] && r[|r| - 1] == Prompt
    ensures output == [] <==> r == [Prompt]
    ensures output != [] ==> |r| == 2 && |r[0]| == |output| + 2 && r[0][..|output|] == output && r[0][|output|..] == "\r\n"
  {
    (if output != [] then [output + "\r\n"] else []) + [Prompt]
  }

  function TerminalReaction(payload: Payload, hasContainer: bool, exec: Result<ExecResult>): (r: Reaction)
    ensures r.disconnect ==> r.emitted == [ExitNotice] && r.executed == None
    ensures !r.disconnect ==> 1 <= |r.emitted| <= 2 && r.emitted[|r.emitted| - 1] == Prompt
    ensures r.executed.Some? ==> hasContainer && r.executed.value == CommandOf(payload) && r.executed.value != []
  {
    if payload.Malformed? then Reaction(["Error: " + payload.reason + "\r\n", Prompt], false, None)
    else
      var command := CommandOf(payload);
      if command == [] then Reaction([Prompt], false, None)
      else if IsExitKeyword(command) then Reaction([ExitNotice], true, None)
      else
        Reaction(ReplyLines(CommandText(hasContainer, exec)), false, if hasContainer then Some(command) else None)
  }

  /** Input on which reading the command raises is answered with `Error: `, the
      exception's text and CRLF, then the prompt; nothing is executed and the client
      stays connected. */
  lemma MalformedInputReported(reason: string, hasContainer: bool, exec: Result<ExecResult>)
    ensures var r := TerminalReaction(Malformed(reason), hasContainer, exec);
            r == Reaction(["Error: " + reason + "\r\n", Prompt], false, None)
            && r.emitted[0][7..|r.emitted[0]| - 2] == reason
  {
  }

  /** An empty or all-whitespace line only re-sends the prompt; nothing is executed. */
  lemma BlankInputOnlyPrompts(payload: Payload, hasContainer: bool, exec: Result<ExecResult>)
    requires payload == NoCommand || (payload.Command? && AllSpace(payload.text))
    ensures TerminalReaction(payload, hasContainer, exec) == Reaction([Prompt], false, None)
  {
    if payload.Command? {
      StripBlank(payload.text);
    }
  }

  /** `IsExitKeyword` accepts exactly the two words in any mix of cases; such a word
      is four letters long and has no whitespace at its ends. */
  lemma ExitKeywordSpelling(word: string)
    ensures IsExitKeyword(word) <==> SpelledInAnyCase(word, "exit") || SpelledInAnyCase(word, "quit")
    ensures IsExitKeyword(word) ==> |word| == 4 && !IsSpace(word[0]) && !IsSpace(word[3])
  {
    assert IsLowerWord("exit") && IsLowerWord("quit");
    LowerMatchesAnyCase(word, "exit");
    LowerMatchesAnyCase(word, "quit");
  }

  /** "exit" or "quit", in any mix of cases and with any surrounding whitespace, sends
      the farewell, disconnects, and neither prompts nor executes. */
  lemma ExitKeywordDisconnects(pre: string, word: string, post: string, hasContainer: bool, exec: Result<ExecResult>)
    requires AllSpace(pre) && AllSpace(post)
    requires SpelledInAnyCase(word, "exit") || SpelledInAnyCase(word, "quit")
    ensures TerminalReaction(Command(pre + word + post), hasContainer, exec) == Reaction([ExitNotice], true, None)
  {
    ExitKeywordSpelling(word);
    StripPadding(pre, word, post);
    assert CommandOf(Command(pre + word + post)) == word;
  }

  /** Disconnecting happens only for those keywords. */
  lemma DisconnectOnlyOnExitKeyword(payload: Payload, hasContainer: bool, exec: Result<ExecResult>)
    requires TerminalReaction(payload, hasContainer, exec).disconnect
    ensures payload.Command?
    ensures SpelledInAnyCase(Strip(payload.text), "exit") || SpelledInAnyCase(Strip(payload.text), "quit")
  {
    assert payload.Command? && IsExitKeyword(CommandOf(payload));
    ExitKeywordSpelling(CommandOf(payload));
  }

  /** Any other command reaches `exec_run` once, stripped; its reply is sent when it
      is not empty, and the prompt always follows. */
  lemma OtherCommandRunsOnce(text: string, exec: Result<ExecResult>)
    requires Strip(text) != [] && !IsExitKeyword(Strip(text))
    ensures var r := TerminalReaction(Command(text), true, exec);
            var output := CommandText(true, exec);
            r.executed == Some(Strip(text)) && !r.disconnect
            && r.emitted == (if output == [] then [Prompt] else [output + "\r\n", Prompt])
  {
    var command := CommandOf(Command(text));
    assert TerminalReaction(Command(text), true, exec) == Reaction(ReplyLines(CommandText(true, exec)), false, Some(command));
  }

  /** A command that exits non-zero is always reported, with its code, before the prompt. */
  lemma FailedCommandIsReported(text: string, code: int, output: string)
    requires Strip(text) != [] && !IsExitKeyword(Strip(text)) && code != 0
    ensures TerminalReaction(Command(text), true, Ok(ExecResult(code, output))).emitted
              == ["[Error " + IntText(code) + "] " + output + "\r\n", Prompt]
  {
  }

  /** Without a container the command is not executed and the client is told so. */
  lemma NoContainerNoExec(text: string, exec: Result<ExecResult>)
    requires Strip(text) != [] && !IsExitKeyword(Strip(text))
    ensures TerminalReaction(Command(text), false, exec) == Reaction([NoContainerReply + "\r\n", Prompt], false, None)
  {
  }

  /** `handle_terminal_input`: the exec request, if the command is executed and can
      be split, is the only request the engine receives, so no path stops or removes
      the container. */
  method HandleTerminalInput(m: DockerContainerManager, payload: Payload, fails: bool, ran: ExecResult)
    returns (emitted: seq<string>, disconnect: bool)
    requires m.Valid()
    modifies m`engine
    ensures m.Valid()
    ensures m.engine.containers == old(m.engine.containers) && m.engine.nextId == old(m.engine.nextId)
    ensures var exec := Attempt(old(m.engine), m.container, CommandOf(payload), fails, ran);
            var r := TerminalReaction(payload, m.container.Some?, exec.result);
            emitted == r.emitted && disconnect == r.disconnect
            && m.engine.log == old(m.engine.log)
                 + if r.executed.Some? && Splits(r.executed.value) then [ExecCall(m.container.value.id, r.executed.value)] else []
  {
    if payload.Malformed? {
      return ["Error: " + payload.reason + "\r\n", Prompt], false;
    }
    var command := CommandOf(payload);
    if command == [] {
      return [Prompt], false;
    }
    if IsExitKeyword(command) {
      return [ExitNotice], true;
    }
    emitted := RunAndReply(m, command, fails, ran);
    disconnect := false;
  }

  /** The last step of `handle_terminal_input`: run the command and send its reply,
      if any, then the prompt. */
  method RunAndReply(m: DockerContainerManager, command: string, fails: bool, ran: ExecResult)
    returns (emitted: seq<string>)
    requires m.Valid()
    modifies m`engine
    ensures m.Valid()
    ensures var exec := Attempt(old(m.engine), m.container, command, fails, ran);
            m.engine == exec.engine && emitted == ReplyLines(CommandText(m.container.Some?, exec.result))
  {
    var output := m.ExecuteCommand(command, fails, ran);
    emitted := [];
    if output != [] {
      emitted := emitted + [output + "\r\n"];
    }
    emitted := emitted + [Prompt];
  }

  /** `handle_disconnect` only logs: the container is neither stopped nor removed. */
  method HandleDisconnect(m: DockerContainerManager)
    ensures m.engine == old(m.engine) && m.container == old(m.container)
  {
  }

  // ---------------------------------------------------------------------------
  // handle_connect

  const NotRunningNotice := "Container not running. Creating container...\r\n"
  const CreatedNotice := "Container created and started successfully!\r\n"
  const FailedNotice := "Failed to create container.\r\n"

  /** The banner's id line: the shown part is a prefix of the id, twelve characters
      long whenever the id is. */
  function IdLine(containerId: string): (r: string)
    ensures |r| == 19 + (if |containerId| < 12 then |containerId| else 12)
    ensures r[..14] == "Container ID: " && r[|r| - 5..] == "...\r\n"
    ensures r[14..|r| - 5] <= containerId
  {
    "Container ID: " + Take(containerId, 12) + "...\r\n"
  }

  /** Five messages: four complete lines, the second of them the id line, then the prompt. */
  function Banner(containerId: string): (r: seq<string>)
    ensures |r| == 5 && r[1] == IdLine(containerId) && r[4] == Prompt
    ensures forall i | 0 <= i < 4 :: |r[i]| >= 2 && r[i][|r[i]| - 2..] == "\r\n"
  {
    ["Welcome to Web Shell!\r\n",
     IdLine(containerId),
     "Resources: 256MB RAM, 1GB tmpfs storage\r\n",
     "Type your commands below. Type \"exit\" to quit.\r\n\r\n",
     Prompt]
  }

  /** `not container or container.status != 'running'`, on the snapshot. */
  predicate NeedsCreate(held: Option<Handle>): (b: bool)
    ensures !b ==> held.Some? && held.value.status == Running
    ensures held.Some? && held.value.status == Created ==> b
  {
    held.None? || held.value.status != Running
  }

  /** The messages `handle_connect` emits, given whether it had to create a container,
      whether that worked, and the id text of the container it then holds. */
  function ConnectTranscript(needsCreate: bool, created: bool, containerId: string): (r: seq<string>)
    ensures needsCreate && !created ==> r == [NotRunningNotice, FailedNotice]
    ensures !needsCreate || created ==> r != [] && r[|r| - 1] == Prompt && IdLine(containerId) in r
    ensures Prompt in r <==> !needsCreate || created
    ensures needsCreate <==> r[0] == NotRunningNotice
  {
    if !needsCreate then Banner(containerId)
    else if created then [NotRunningNotice, CreatedNotice] + Banner(containerId)
    else [NotRunningNotice, FailedNotice]
  }

  /** The banner shows the first twelve characters of the held container's id. */
  lemma BannerShowsShortId(id: Id)
    ensures IdLine(IdText(id)) == "Container ID: " + IdText(id)[..12] + "...\r\n"
    ensures |IdText(id)[..12]| == 12
  {
  }

  /** The snapshot of a freshly created container reads `created`, whatever the
      engine says about the container. */
  lemma ConnectAfterCreateRecreates(e: Engine, held: Option<Handle>, name: string, f: Lifecycle.CreateFaults)
    requires Lifecycle.CreateContainer(e, held, name, f).ok
    ensures NeedsCreate(Lifecycle.CreateContainer(e, held, name, f).held)
    ensures Lifecycle.CreateContainer(e, held, name, f).engine.containers[name].status == Running
  {
  }

  /** `handle_connect`. The result of `start_container` is not looked at, and starting
      does not refresh the snapshot: once a connection has had to create the
      container, so does the next one. */
  method HandleConnect(m: DockerContainerManager, f: Lifecycle.CreateFaults, startFails: bool) returns (emitted: seq<string>)
    requires m.Valid()
    modifies m
    ensures m.Valid()
    ensures NeedsCreate(old(m.container)) ==> NeedsCreate(m.container)
    ensures !NeedsCreate(old(m.container)) ==>
              m.engine == old(m.engine) && m.container == old(m.container)
              && emitted == ConnectTranscript(false, true, old(m.containerId).value)
    ensures NeedsCreate(old(m.container)) ==>
              var c := Lifecycle.CreateContainer(old(m.engine), old(m.container), m.containerName, f);
              m.container == c.held
              && m.engine == (if c.ok then Lifecycle.StartContainer(c.engine, c.held, startFails).engine else c.engine)
              && emitted == ConnectTranscript(true, c.ok, if c.ok then IdText(c.held.value.id) else "")
  {
    if m.container.None? || m.container.value.status != Running {
      var created := CreateAndStart(m, f, startFails);
      if created {
        emitted := [NotRunningNotice, CreatedNotice] + Banner(m.containerId.value);
        assert emitted == ConnectTranscript(true, true, m.containerId.value);
      } else {
        emitted := [NotRunningNotice, FailedNotice];
      }
    } else {
      emitted := Banner(m.containerId.value);
    }
  }

  /** The creation step of `handle_connect`: create, and start only what was created. */
  method CreateAndStart(m: DockerContainerManager, f: Lifecycle.CreateFaults, startFails: bool) returns (created: bool)
    requires m.Valid()
    modifies m
    ensures m.Valid()
    ensures var c := Lifecycle.CreateContainer(old(m.engine), old(m.container), m.containerName, f);
            created == c.ok && m.container == c.held
            && m.engine == (if c.ok then Lifecycle.StartContainer(c.engine, c.held, startFails).engine else c.engine)
  {
    created := m.CreateContainer(f);
    if created {
      var started := m.StartContainer(startFails);
    }
  }
}
