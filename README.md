# Web Shell container lifecycle and terminal dispatch, in Dafny

Web Shell gives a user a Bash shell inside a resource-limited Debian container. It
does this in two ways:

- `app.py` is a terminal application. Its `DockerShellManager` creates one
  container under the fixed name `web-shell-container`, attaches the user's
  terminal to it, and cleans it up on exit or on SIGINT/SIGTERM.
- `web_app.py` is a Flask-SocketIO server. Its `DockerContainerManager` owns a
  container named `web-shell-container-<8 characters of a UUID>`. Browser
  terminals connect over Socket.IO. Each `terminal_input` event runs one
  command through `exec_run`, and the output goes back to the browser as
  `terminal_output` messages.

The model has five modules:

- `Text` (text.dfy) holds the Python string behaviour that the handlers
  depend on: `str.strip()` with Python's whitespace set, `str.lower()` on
  ASCII, slicing with `s[:n]`, and the decimal text of an `int`. The
  decimal text is proved to read back to the number and to carry no leading
  zeros. Stripping is proved to remove exactly the whitespace padding around
  a command. Comparing a lower-cased command with a lower-case word is proved
  equivalent to matching that word letter by letter in either case. `s[:n]`
  is pinned down by its length and the prefix relation. Finally, it holds the part of POSIX-mode
  `shlex.split` that decides whether a command line is accepted: whether
  the text ends inside a quote or right after an escaping backslash.
- `Docker` (docker.dfy) models the engine as the SDK exposes it: a map from
  name to container, an id counter, and a log of every request the engine
  received. Every SDK call (`get`, `run`, `start`, `stop`, `remove`,
  `reload`, `stats`, `exec_run`) is a function from engine to engine plus a
  result. NotFound and Conflict follow from the state. A daemon failure is an
  explicit input. A container is `created`, `running`, `paused`,
  `restarting` or `exited`. The engine refuses to remove one that is running,
  paused or restarting, and refuses to start a paused one. A client-side handle
  carries a status snapshot, and only `reload()` refreshes it. `exec_run` splits a string command with
  `shlex.split` before it sends anything. When that raises, the error is
  reported and no request reaches the engine.
- `Lifecycle` (lifecycle.dfy) holds the protocol both managers share:
  clearing the name, running the container with the fixed limits, starting
  on the snapshot, the reload, and cleanup. It also holds the lemmas about
  those functions, including whole sessions.
- `ShellApp` (shell_app.dfy) has the `DockerShellManager` class. Its fields
  are the held handle and the engine. Its methods are proved equal to the
  `Lifecycle` functions. `RunApplication` is the control flow of `main`,
  including the signal handler's extra cleanup before `sys.exit(0)` unwinds
  into the `finally` clause.
- `WebApp` (web_app.dfy) has the `DockerContainerManager` class, with the
  invariant that `container_id` is the id text of the held container. It also
  has `execute_command`, and the `connect`, `terminal_input` and `disconnect`
  handlers. The handlers are methods proved against pure transcript
  functions (`TerminalReaction`, `ConnectTranscript`), and the lemmas state
  what a client sees.

A property that follows from the engine model: `containers.run(detach=True)`
returns the object that `create` filled in before `start`, so its snapshot
reads `created`. `start_container` therefore always issues a (harmless) start.
`cleanup` trusts the snapshot. Without a `reload()` in between, it skips the
stop and asks the engine to remove a running container. The engine refuses,
and the container stays (`Lifecycle.CleanupBeforeReloadLeaves`). In `app.py`
this happens whenever cleanup runs on a snapshot that `get_container_info`
did not refresh: a signal after creation but before the info step, a failed
start, or a reload that raises (`ShellApp.RunApplication`). In `web_app.py`
nothing reloads unless `/api/container/info` was requested. For the same reason, every Socket.IO
connection creates the container again (`WebApp.ConnectAfterCreateRecreates`).

## Model

| member | source | states |
|---|---|---|
| Text.IsSpace | web_app.py:334 | space, tab, newline and carriage return are whitespace, and no ASCII letter or digit is, so stripping never removes part of a command word |
| Text.TrimLeft | web_app.py:334 | the result is the suffix left after removing leading whitespace: everything dropped is whitespace and the result does not start with whitespace |
| Text.TrimRight | web_app.py:334 | the result is the prefix left after removing trailing whitespace: everything dropped is whitespace and the result does not end with whitespace |
| Text.Strip | web_app.py:334 | a stripped command neither starts nor ends with whitespace |
| Text.StripBlank | web_app.py:334-338 | stripping gives the empty command exactly when the input is all whitespace |
| Text.StripPadding | web_app.py:334 | stripping removes any whitespace padding around a command and nothing else |
| Text.Lower | web_app.py:341 | lower-casing keeps the length and maps every character through the ASCII lower-case mapping |
| Text.LowerMatchesAnyCase | web_app.py:341 | comparing `command.lower()` with a lower-case word is the same as matching that word letter by letter in either case |
| Text.Take | web_app.py:74 | `s[:n]` has length min(len(s), n) and is a prefix of `s` |
| Text.Numeral | web_app.py:174 | the numeral of a number is non-empty and, in base 10, made of decimal digits only; it has no leading zeros, and its first digit is `0` exactly for zero |
| Text.DecimalRoundTrip | web_app.py:174 | reading back the decimal numeral of a natural number gives that number |
| Text.IntText | web_app.py:174 | the decimal text of an exit code is never empty and has no leading zeros: it starts with `0` exactly for zero, and with `-` exactly for a negative code, followed by a non-zero digit |
| Text.IntTextRoundTrip | web_app.py:174 | the exit code written into `[Error <code>]` can be read back, negative codes included |
| Text.SplitErrorMessage | web_app.py:163-167 | a command line `shlex.split` rejects always comes with a non-empty reason |
| Text.ScanAppend | web_app.py:163-167 | reading a concatenation for quotes and escapes is reading its two parts one after the other |
| Text.PlainTextSplits | web_app.py:163-167 | a command line without quotes or backslashes is always accepted |
| Text.QuotedTextSplits | web_app.py:163-167 | a single-quoted run of text without a single quote inside, between accepted parts, is accepted |
| Text.UnclosedQuoteFails | web_app.py:163-167 | a single quote that is never closed is rejected with "No closing quotation" |
| Text.TrailingBackslashFails | web_app.py:163-167 | a trailing backslash outside quotes is rejected with "No escaped character" |
| Text.ApostropheDoesNotSplit | web_app.py:163-167 | `echo it's` is rejected with "No closing quotation" |
| Docker.ExecRun | web_app.py:163-167 | a command line `shlex.split` rejects raises its reason and leaves the engine untouched, and only then; otherwise exactly one exec request reaches the engine |
| Docker.IdText | web_app.py:303 | a container id is shown with at least 64 characters, so the 12-character prefix in the banner is always full |
| Lifecycle.ShellConfigLimits | app.py:124-139 | the container gets no swap beyond its 256 MiB, half of each CPU period, a single 1 GiB tmpfs at `/tmp`, a tty with stdin open, and is not removed on stop |
| Lifecycle.ClearName | app.py:102-116 | on success the name is free; NotFound from the lookup, the stop or the remove is never reported as a failure; no other container is touched; a container still under the name keeps its id and configuration, at most stopped |
| Lifecycle.CreateContainer | app.py:99-146 | on success the manager holds a handle to a fresh container with the next id and a `created` snapshot, and that container is running with the fixed image, memory, swap, CPU and tmpfs settings; on failure the held handle is kept; other containers are unchanged; id freshness is preserved |
| Lifecycle.CreateFailsOnFault | app.py:102-146 | when a container holds the name and the lookup answers, creation succeeds exactly when no stop of a running container, no remove and no `run` raises; the remove always raises for a paused or restarting holder, which is never stopped |
| Lifecycle.CreateBlockedByBusyHolder | app.py:102-146 | with no daemon errors, a paused or restarting holder makes creation return False after only the lookup and a refused remove, with every container and the held handle as they were |
| Lifecycle.ClearNameCalls | app.py:102-113 | for an existing container, the requests are exactly, in order: the lookup; stop, when its status is `running`; remove, unless that stop raised; clearing goes on exactly when neither raised and the holder is not paused or restarting |
| Lifecycle.CreateStopsOnlyRunning | app.py:102-113 | for an existing container, the requests are exactly, in order: the lookup; stop, when its status is `running`; remove, unless that stop raised; `run`, unless the stop or the remove raised or the holder is paused or restarting |
| Lifecycle.CreateWhenAbsent | app.py:114-142 | when nobody holds the name, only the lookup and `run` are requested, and creation succeeds exactly when `run` does |
| Lifecycle.CreateLookupFailure | app.py:144-146 | a lookup error other than NotFound ends creation with False, with nothing else requested and the held handle kept |
| Lifecycle.CreateSelfHeals | app.py:99-142 | with no daemon errors, creation succeeds whenever the name is free or its holder is neither paused nor restarting; the name maps to a new container whose id differs from the replaced one |
| Lifecycle.StartContainer | app.py:165-177 | no request is made without a handle or when the snapshot reads `running`; otherwise exactly one start is requested, and it succeeds exactly when the daemon answers, the container still exists and is not paused; the set of containers never changes, and the held container keeps its id and configuration, at most set running |
| Lifecycle.StartTrustsSnapshot | app.py:167 | a snapshot reading `running` yields success without asking the engine, even for a container that has exited |
| Lifecycle.StartRunsContainer | app.py:167-173 | for a held container whose snapshot is not `running`, an answered start fails only on a paused container, and leaves any container that is neither paused nor restarting running |
| Lifecycle.Cleanup | app.py:257-271 | without a container nothing happens; only the held container's entry can change: it is removed, or kept with its id and configuration, at most stopped; no error reaches the caller |
| Lifecycle.CleanupCallOrder | app.py:258-265 | the requests are exactly, in order: stop, when the snapshot reads `running`; remove, unless that stop raised |
| Lifecycle.CleanupRemoves | app.py:257-267 | when the snapshot reads `running` or the container is not running, paused or restarting, cleanup with no daemon errors removes exactly the held container |
| Lifecycle.CleanupStaleSnapshotKeeps | app.py:260-265 | a snapshot not reading `running` for a running, paused or restarting container leaves every container as it was |
| Lifecycle.CleanupStaleHandle | app.py:269-271 | a handle whose container is gone changes no container |
| Lifecycle.CleanupTwice | app.py:338-342 | the second cleanup (signal handler, then `finally`) changes nothing once the first removed the container |
| Lifecycle.ContainerInfo | app.py:294-315 | without a container nothing is requested; containers never change; a successful report shows the refreshed, current status of the held container, which the manager then keeps; with a container held, the report is shown exactly when neither `reload()` nor `stats()` raises and the container still exists; a raising reload leaves the snapshot as it was |
| Lifecycle.InfoRefreshesSnapshot | app.py:299 | `reload()` brings the held snapshot up to the engine's status |
| Lifecycle.FaultFreeSessionReclaims | app.py:417-454 | create, start, info and cleanup with no daemon errors, on a name that is free or held by a container neither paused nor restarting, leave the name free and every other container as it was |
| Lifecycle.CleanupBeforeReloadLeaves | web_app.py:213-224 | on a name that is free or held by a container neither paused nor restarting, create and start followed by cleanup without a reload leave the new container running under the name |
| ShellApp.DockerShellManager.constructor | app.py:53-73 | a new manager holds no container and uses the fixed name |
| ShellApp.DockerShellManager.CreateContainer | app.py:75-146 | the new engine, the held handle and the result are those of `Lifecycle.CreateContainer` |
| ShellApp.DockerShellManager.StartContainer | app.py:148-177 | the handle is kept; the engine and the result are those of `Lifecycle.StartContainer` |
| ShellApp.DockerShellManager.GetInteractiveShell | app.py:179-232 | the shell is launched exactly when a container is held, and success means the launch happened and exited with status 0 |
| ShellApp.DockerShellManager.Cleanup | app.py:235-271 | the handle is kept and the engine becomes `Lifecycle.Cleanup` of the old one |
| ShellApp.DockerShellManager.GetContainerInfo | app.py:273-315 | the engine, the refreshed handle and the outcome are those of `Lifecycle.ContainerInfo` |
| ShellApp.RunSteps | app.py:419-444 | the engine, the held handle, the status and whether the handler ran are those of `Steps`, which stops at the first failure or where the signal arrives |
| ShellApp.StepsExitStatus | app.py:419-428 | the steps end with status 1 exactly when creation failed, or start failed with no signal before it; the handler runs only on a real signal, never after a failure |
| ShellApp.FaultFreeRunReclaims | app.py:419-454 | with no daemon errors and a name that is free or held by a container neither paused nor restarting, a session reaching the shell ends with status 0 and the name free |
| ShellApp.BusyHolderRunFails | app.py:419-454 | a paused or restarting container under the name makes the session end with status 1 and every container as it was |
| ShellApp.StaleSnapshotRunLeaks | app.py:419-454 | when cleanup runs on the `created` snapshot (a signal before start or before the info step, a failed start, or a raising reload), the new container is left running under the name |
| ShellApp.RunApplication | app.py:318-454 | exit status 1 exactly when Docker is missing, or creation or start failed before a signal; a signal exits 0, and one arriving before `manager` exists causes no cleanup and no engine request; cleanup runs once, or twice when the handler ran; without faults a completed session frees the name unless a paused or restarting container holds it, in which case the session exits 1 and changes no container; when creation met no daemon error but cleanup ran on the `created` snapshot (a signal before start or before the info step, a failed start, or a raising reload), the new container is left running under the name |
| WebApp.ContainerName | web_app.py:74-75 | the name is the prefix followed by at most the first eight characters of the UUID text |
| WebApp.NamesFollowUuid | web_app.py:74-75 | two managers' names clash exactly when their UUIDs share the first eight characters, and never equal the terminal application's name |
| WebApp.DockerContainerManager.constructor | web_app.py:56-76 | a new manager holds no container and no id, and its name comes from the UUID |
| WebApp.DockerContainerManager.CreateContainer | web_app.py:78-130 | as `Lifecycle.CreateContainer`; `container_id` becomes the id text of the new container on success and is kept on failure |
| WebApp.DockerContainerManager.StartContainer | web_app.py:132-146 | the engine and the result are those of `Lifecycle.StartContainer`; the id invariant is kept |
| WebApp.DockerContainerManager.ExecuteCommand | web_app.py:148-179 | the engine receives exactly one exec request when a container is held and `shlex.split` accepts the command, and none otherwise; the returned text is `CommandText` of what `exec_run` returned or raised; the id invariant is kept |
| WebApp.DockerContainerManager.GetContainerInfo | web_app.py:181-204 | as `Lifecycle.ContainerInfo`, with errors returned rather than raised; the id invariant is kept |
| WebApp.DockerContainerManager.Cleanup | web_app.py:206-224 | the engine becomes `Lifecycle.Cleanup` of the old one; the id invariant is kept |
| WebApp.Attempt | web_app.py:159-167 | an exec request is logged only when a container is held and the command line splits; a held container with a command line that does not split gets the split error; no container is ever created, changed or removed by it |
| WebApp.CommandText | web_app.py:159-179 | without a container the fixed no-container text; otherwise the command's output always ends the text, a non-zero exit puts `[Error ` in front of it, and a raised error is prefixed with `Error executing command: ` |
| WebApp.ReplyCarriesExitCode | web_app.py:173-176 | exit code 0 passes the output through unchanged; any other code is written in front of the output, and parsing that text gives the code back |
| WebApp.UnsplittableCommandReported | web_app.py:163-179 | a command line `shlex.split` rejects sends nothing to the engine, and the client reads `Error executing command: ` and the split error |
| WebApp.ApostropheCommandReported | web_app.py:163-179 | `echo it's` sends nothing to the engine, and the client reads `Error executing command: No closing quotation` |
| WebApp.ExecAfterTeardownFails | web_app.py:178-179 | exec on a container that is gone or not running produces an explicit `Error executing command: ...` text |
| WebApp.CommandOf | web_app.py:334 | the command neither starts nor ends with whitespace, and it is empty exactly when the payload has no command or an all-whitespace one |
| WebApp.IsExitKeyword | web_app.py:341 | a keyword is four characters long with no whitespace in it |
| WebApp.ReplyLines | web_app.py:350-354 | the prompt always comes last; an empty output sends only the prompt; otherwise the output, ended by CRLF, comes before it |
| WebApp.TerminalReaction | web_app.py:333-358 | only disconnection lacks a trailing prompt, and it emits only the farewell; at most two messages are emitted; a command is executed only with a container, and only as the non-empty stripped input |
| WebApp.MalformedInputReported | web_app.py:356-358 | input on which reading the command raises is answered with exactly `Error: `, the exception's text and CRLF, then the prompt; nothing is executed and the client stays connected |
| WebApp.BlankInputOnlyPrompts | web_app.py:336-338 | an empty, missing or all-whitespace command only re-sends the prompt and executes nothing |
| WebApp.ExitKeywordSpelling | web_app.py:341 | the keyword test accepts exactly `exit` and `quit` in any mix of cases |
| WebApp.ExitKeywordDisconnects | web_app.py:341-344 | `exit`/`quit` in any case, with any surrounding whitespace, sends the farewell and disconnects without executing or prompting |
| WebApp.DisconnectOnlyOnExitKeyword | web_app.py:341-344 | disconnecting happens only for such a keyword |
| WebApp.OtherCommandRunsOnce | web_app.py:347-354 | any other non-blank command is executed once, stripped, and its non-empty reply and then the prompt are sent |
| WebApp.FailedCommandIsReported | web_app.py:173-174 | a non-zero exit is always reported with its code before the prompt |
| WebApp.NoContainerNoExec | web_app.py:159-160 | without a container nothing is executed and the client is told so |
| WebApp.HandleTerminalInput | web_app.py:321-358 | the messages and the disconnect are those of `TerminalReaction`; the only engine request is the exec of the executed command when it splits, so no input stops or removes the container; the id invariant is kept |
| WebApp.RunAndReply | web_app.py:347-354 | the engine is that of the one exec attempt, and the messages are the non-empty reply and then the prompt |
| WebApp.HandleDisconnect | web_app.py:311-318 | a disconnect leaves the engine and the held container as they were |
| WebApp.IdLine | web_app.py:303 | the id line shows a prefix of the id, twelve characters long whenever the id is, between `Container ID: ` and `...` and CRLF |
| WebApp.Banner | web_app.py:302-308 | five messages: four CRLF-terminated lines, the second being the id line, then the prompt |
| WebApp.NeedsCreate | web_app.py:291 | creation is skipped only for a held snapshot reading `running`; a snapshot as `run` returns it (`created`) always asks for creation |
| WebApp.ConnectTranscript | web_app.py:291-308 | a failed creation emits exactly the notice and the failure line, with no prompt; otherwise the banner ends with the prompt and shows the container id line; the creation notice appears exactly when creation was needed |
| WebApp.BannerShowsShortId | web_app.py:303 | the banner's id line shows exactly the first 12 characters of the id |
| WebApp.ConnectAfterCreateRecreates | web_app.py:291 | after a successful creation the held snapshot reads `created` while the engine's container is running, so the next connection creates the container again |
| WebApp.HandleConnect | web_app.py:280-308 | with a running snapshot nothing is requested and the banner is sent; otherwise creation and, on success, start are performed as in `Lifecycle`, and the snapshot still asks for creation afterwards; the messages are `ConnectTranscript`; the id invariant is kept |
| WebApp.CreateAndStart | web_app.py:291-294 | creation as in `Lifecycle.CreateContainer`, then a start only when creation worked; the id invariant is kept |

## Left out

- `docker pause`, `unpause` and restart policies are not modelled as operations: a paused or restarting container can only be present from the start. A restarting container is taken to ignore `start()` without error.
- The Docker SDK and daemon are modelled only through the calls listed above. A daemon failure is an explicit flag. Only the status code of an error's text is modelled, by `Docker.Describe`.
- The `stats` figures, `image`, `attrs['Created']` and the printed information are left out. `get_container_info` is modelled by its calls and its outcome.
- `check_docker_available` is the `dockerAvailable` input of `ShellApp.RunApplication`. Registering the signal handlers and `atexit` is not modelled.
- Signals are modelled only at the step boundaries of `main`, plus during the shell. A signal inside a Docker call or inside `cleanup` itself is not modelled.
- `web_app.py`'s `main`, its signal handler and `cleanup_on_exit` are not modelled as methods. The double cleanup they cause is `Lifecycle.CleanupTwice`.
- The Flask routes `/`, `/api/container/info` and `/api/container/create` are not modelled. They are thin wrappers around the manager methods above.
- Socket.IO transport, session ids, concurrency between clients and the `threading` async mode are not modelled. All clients share one manager, and the handlers are modelled one event at a time.
- `time.sleep` and every `print` are not modelled.
- `ShellApp.DockerShellManager.GetInteractiveShell`: the `docker exec -it` subprocess is the `shell` input, so what the user does in the shell is not modelled.
- What a command does inside the container is the `ran` input of `exec_run`. The model assumes that a command cannot change the container's lifecycle state.
- `exec_run` output is taken as already decoded text, so the UTF-8 decode at web_app.py:170 is not modelled.
- `Text.Lower`: lowers ASCII letters only, not the rest of Unicode. The keyword test `IsExitKeyword` still agrees with Python's, because no non-ASCII character lower-cases to one of the letters of `exit` or `quit` (the Kelvin sign, for instance, lower-cases to `k`).
- `shlex.split` is modelled only as far as whether it raises and with which message. The argument list it produces is not modelled: the exec request records the command line as given.
- `Docker.IdText` renders the engine's numeric id, not the daemon's random 64-digit hexadecimal id.
