/** The Docker engine as both managers see it through the Docker SDK: a map from
    container name to container, the next id it will hand out, and the log of the
    calls it has received. Every call takes an explicit flag saying whether the
    daemon answers it with an error of its own (I/O failure, daemon restart, ...);
    the other failures (no such container, conflicts) follow from the state. */
module Docker {
  import opened Text

  datatype Option<T> = None | Some(value: T)

  /** The states the engine reports. The calls made here only lead to `created`,
      `running` and `exited`; a container is `paused` after `docker pause` and
      `restarting` while a restart policy brings it back, both from outside. */
  datatype Status = Created | Running | Paused | Restarting | Exited

  /** The states in which the engine refuses `remove()` without `force`. */
  predicate Busy(s: Status) {
    s == Running || s == Paused || s == Restarting
  }

  /** The keyword arguments given to `containers.run`. */
  datatype RunConfig = RunConfig(
    image: string,
    detach: bool,
    stdinOpen: bool,
    tty: bool,
    memLimit: string,
    memswapLimit: string,
    cpuQuota: int,
    cpuPeriod: int,
    tmpfs: map<string, string>,
    command: string,
    autoRemove: bool)

  /** Container ids are handed out by the engine and never reused. */
  type Id = nat

  /** The 64 lower-case hexadecimal digits under which the engine shows an id. */
  function IdText(id: Id): (r: string)
    ensures |r| >= 64
  {
    var digits := Numeral(id, 16);
    if |digits| >= 64 then digits else seq(64 - |digits|, _ => '0') + digits
  }

  datatype Container = Container(id: Id, status: Status, config: RunConfig)

  /** One request received by the engine, whatever its outcome. */
  datatype Call =
    | GetCall(name: string)
    | RunCall(name: string)
    | StartCall(id: Id)
    | StopCall(id: Id)
    | RemoveCall(id: Id)
    | ReloadCall(id: Id)
    | StatsCall(id: Id)
    | ExecCall(id: Id, command: string)

  datatype Engine = Engine(containers: map<string, Container>, nextId: Id, log: seq<Call>)

  /** Every id in use was handed out before `nextId`. */
  predicate WellFormed(e: Engine) {
    forall name | name in e.containers :: e.containers[name].id < e.nextId
  }

  /** A client-side container object: which container it stands for, and the status
      read from the engine when the object was last filled in. The SDK only refreshes
      that snapshot on `reload()`. */
  datatype Handle = Handle(name: string, id: Id, status: Status)

  /** What the SDK raises: the engine's 404, 409 and 500 answers, or a `ValueError`
      raised on the client before any request is sent. */
  datatype Error = NotFound | Conflict | DaemonFailure | BadCommand(message: string)

  datatype Result<T> = Ok(value: T) | Err(error: Error)

  /** The engine after a call, and what the call returned or raised. */
  datatype Reply<T> = Reply(engine: Engine, result: Result<T>)

  /** `str(e)` for the exception the SDK raises. */
  function Describe(err: Error): string {
    match err
    case NotFound => "404 Client Error: Not Found"
    case Conflict => "409 Client Error: Conflict"
    case DaemonFailure => "500 Server Error: Internal Server Error"
    case BadCommand(message) => message
  }

  /** The handle still refers to a container that exists. */
  predicate Current(e: Engine, h: Handle) {
    h.name in e.containers && e.containers[h.name].id == h.id
  }

  /** The engine once it has recorded `call`, whatever the call then does. */
  function Receive(e: Engine, call: Call): Engine
  {
    e.(log := e.log + [call])
  }

  function WithStatus(e: Engine, name: string, status: Status): Engine
    requires name in e.containers
  {
    e.(containers := e.containers[name := e.containers[name].(status := status)])
  }

  /** `client.containers.get(name)`: a handle with a fresh snapshot, or NotFound. */
  function Get(e: Engine, name: string, fails: bool): Reply<Handle> {
    var e' := Receive(e, GetCall(name));
    if fails then Reply(e', Err(DaemonFailure))
    else if name !in e.containers then Reply(e', Err(NotFound))
    else
      var c := e.containers[name];
      Reply(e', Ok(Handle(name, c.id, c.status)))
  }

  /** `container.stop()`; a busy container (paused ones included) ends up exited, and
      stopping any other container changes nothing. */
  function Stop(e: Engine, h: Handle, fails: bool): Reply<()> {
    var e' := Receive(e, StopCall(h.id));
    if fails then Reply(e', Err(DaemonFailure))
    else if !Current(e, h) then Reply(e', Err(NotFound))
    else if Busy(e.containers[h.name].status) then Reply(WithStatus(e', h.name, Exited), Ok(()))
    else Reply(e', Ok(()))
  }

  /** `container.start()`: the engine refuses to start a paused container, and
      leaves a restarting one to its restart policy. */
  function Start(e: Engine, h: Handle, fails: bool): Reply<()> {
    var e' := Receive(e, StartCall(h.id));
    if fails then Reply(e', Err(DaemonFailure))
    else if !Current(e, h) then Reply(e', Err(NotFound))
    else if e.containers[h.name].status == Paused then Reply(e', Err(Conflict))
    else if e.containers[h.name].status == Restarting then Reply(e', Ok(()))
    else Reply(WithStatus(e', h.name, Running), Ok(()))
  }

  /** `container.remove()` without `force`: the engine refuses to remove a running,
      paused or restarting container. */
  function Remove(e: Engine, h: Handle, fails: bool): Reply<()> {
    var e' := Receive(e, RemoveCall(h.id));
    if fails then Reply(e', Err(DaemonFailure))
    else if !Current(e, h) then Reply(e', Err(NotFound))
    else if Busy(e.containers[h.name].status) then Reply(e', Err(Conflict))
    else Reply(e'.(containers := e'.containers - {h.name}), Ok(()))
  }

  /** What becomes of `containers.run`, which creates a container and then starts it. */
  datatype RunFault = RunSucceeds | CreateFails | StartFails

  /** `client.containers.run(..., detach=True)`. The handle it returns was filled in
      when the container was created, before it was started, so its snapshot reads
      `created`. If the start fails, the created container stays behind. */
  function Run(e: Engine, name: string, config: RunConfig, fault: RunFault): Reply<Handle> {
    var e' := Receive(e, RunCall(name));
    if fault == CreateFails then Reply(e', Err(DaemonFailure))
    else if name in e.containers then Reply(e', Err(Conflict))
    else
      var id := e.nextId;
      var status := if fault == StartFails then Created else Running;
      var e'' := e'.(containers := e'.containers[name := Container(id, status, config)], nextId := id + 1);
      if fault == StartFails then Reply(e'', Err(DaemonFailure))
      else Reply(e'', Ok(Handle(name, id, Created)))
  }

  /** `container.reload()`: the handle with its snapshot brought up to date. */
  function Reload(e: Engine, h: Handle, fails: bool): Reply<Handle> {
    var e' := Receive(e, ReloadCall(h.id));
    if fails then Reply(e', Err(DaemonFailure))
    else if !Current(e, h) then Reply(e', Err(NotFound))
    else Reply(e', Ok(h.(status := e.containers[h.name].status)))
  }

  /** `container.stats(stream=False)`; the figures themselves are not modelled. */
  function Stats(e: Engine, h: Handle, fails: bool): Reply<()> {
    var e' := Receive(e, StatsCall(h.id));
    if fails then Reply(e', Err(DaemonFailure))
    else if !Current(e, h) then Reply(e', Err(NotFound))
    else Reply(e', Ok(()))
  }

  /** What `exec_run` reports: the exit code and the combined output. */
  datatype ExecResult = ExecResult(exitCode: int, output: string)

  /** `container.exec_run(command)`. The SDK first splits a string command with
      `shlex.split`; when that raises, no request is sent. What the command does
      inside the container is `ran`; the engine refuses to exec in a container that
      is not running. */
  function ExecRun(e: Engine, h: Handle, command: string, fails: bool, ran: ExecResult): (r: Reply<ExecResult>)
    ensures !Splits(command) <==> r == Reply(e, Err(BadCommand(SplitErrorMessage(command))))
    ensures Splits(command) ==> r.engine == Receive(e, ExecCall(h.id, command))
  {
    var e' := Receive(e, ExecCall(h.id, command));
    if !Splits(command) then Reply(e, Err(BadCommand(SplitErrorMessage(command))))
    else if fails then Reply(e', Err(DaemonFailure))
    else if !Current(e, h) then Reply(e', Err(NotFound))
    else if e.containers[h.name].status != Running then Reply(e', Err(Conflict))
    else Reply(e', Ok(ran))
  }
}
