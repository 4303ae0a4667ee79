/** The container lifecycle protocol shared by `DockerShellManager` (app.py) and
    `DockerContainerManager` (web_app.py): what `create_container`,
    `start_container`, `cleanup` and the reload in `get_container_info` do to the
    engine and to the handle the manager holds. Both managers' methods are proved
    against these functions. */
module Lifecycle {
  import opened Docker

  /** The container both managers ask for: Debian 12.12 running `/bin/bash`
      detached with stdin and a tty, 256 MiB of memory and no swap on top, half a
      CPU, and a 1 GiB tmpfs at `/tmp`. */
  const ShellConfig: RunConfig := RunConfig(
    image := "debian:12.12",
    detach := true,
    stdinOpen := true,
    tty := true,
    memLimit := "256m",
    memswapLimit := "256m",
    cpuQuota := 50000,
    cpuPeriod := 100000,
    tmpfs := map["/tmp" := "size=1g"],
    command := "/bin/bash",
    autoRemove := false)

  /** The limits the container is created with: a swap limit equal to the memory limit
      leaves no swap on top of the 256 MiB, the quota is half of each CPU period, the
      only tmpfs is the 1 GiB one at `/tmp`, and the container outlives its stop. */
  lemma ShellConfigLimits()
    ensures ShellConfig.memswapLimit == ShellConfig.memLimit == "256m"
    ensures 2 * ShellConfig.cpuQuota == ShellConfig.cpuPeriod
    ensures ShellConfig.tmpfs.Keys == {"/tmp"} && ShellConfig.tmpfs["/tmp"] == "size=1g"
    ensures ShellConfig.detach && ShellConfig.stdinOpen && ShellConfig.tty && !ShellConfig.autoRemove
  {
  }

  /** The calls the engine received between two of its states. */
  function Issued(before: Engine, after: Engine): seq<Call>
    requires before.log <= after.log
  {
    after.log[|before.log|..]
  }

  /** Whether each engine call made by `create_container` is answered with a daemon error. */
  datatype CreateFaults = CreateFaults(get: bool, stop: bool, remove: bool, run: RunFault)

  const NoCreateFaults := CreateFaults(false, false, false, RunSucceeds)

  /** The first half of `create_container`: look the name up; if a container has it,
      stop it when its status is `running` and remove it. NotFound, whether from the
      lookup or from stop/remove, counts as "already gone". Ok means creation goes on. */
  function ClearName(e: Engine, name: string, f: CreateFaults): (r: Reply<()>)
    ensures e.log <= r.engine.log && r.engine.nextId == e.nextId
    ensures r.engine.containers - {name} == e.containers - {name}
    ensures r.result.Ok? ==> name !in r.engine.containers
    ensures r.result.Err? ==> r.result.error != NotFound
    ensures name in r.engine.containers ==>
              name in e.containers
              && (r.engine.containers[name] == e.containers[name]
                  || r.engine.containers[name] == e.containers[name].(status := Exited))
  {
    var got := Get(e, name, f.get);
    match got.result
    case Err(err) => Reply(got.engine, if err == NotFound then Ok(()) else Err(err))
    case Ok(existing) =>
      var stopped := if existing.status == Running then Stop(got.engine, existing, f.stop) else Reply(got.engine, Ok(()));
      var removed := if stopped.result.Ok? then Remove(stopped.engine, existing, f.remove) else stopped;
      if removed.result.Err? && removed.result.error == NotFound then Reply(removed.engine, Ok(())) else removed
  }

  /** The engine after `create_container`, the handle the manager then holds, and the
      boolean it returns. */
  datatype CreateResult = CreateResult(engine: Engine, held: Option<Handle>, ok: bool)

  function CreateContainer(e: Engine, held: Option<Handle>, name: string, f: CreateFaults): (r: CreateResult)
    ensures e.log <= r.engine.log
    ensures r.engine.containers - {name} == e.containers - {name}
    ensures r.ok ==> r.held == Some(Handle(name, e.nextId, Created))
    ensures r.ok ==> name in r.engine.containers && r.engine.containers[name] == Container(e.nextId, Running, ShellConfig)
    ensures !r.ok ==> r.held == held
    ensures WellFormed(e) ==> WellFormed(r.engine)
  {
    var cleared := ClearName(e, name, f);
    if cleared.result.Err? then CreateResult(cleared.engine, held, false)
    else
      var run := Run(cleared.engine, name, ShellConfig, f.run);
      if run.result.Ok? then CreateResult(run.engine, Some(run.result.value), true)
      else CreateResult(run.engine, held, false)
  }

  /** The engine after `start_container`, and the boolean it returns. */
  datatype StartResult = StartResult(engine: Engine, ok: bool)

  function StartContainer(e: Engine, held: Option<Handle>, fails: bool): (r: StartResult)
    ensures held.None? || held.value.status == Running ==> r == StartResult(e, true)
    ensures held.Some? && held.value.status != Running ==>
              r.engine.log == e.log + [StartCall(held.value.id)]
              && (r.ok <==> !fails && Current(e, held.value) && e.containers[held.value.name].status != Paused)
    ensures r.engine.nextId == e.nextId && r.engine.containers.Keys == e.containers.Keys
    ensures held.Some? ==> r.engine.containers - {held.value.name} == e.containers - {held.value.name}
    ensures held.Some? && held.value.name in e.containers ==>
              r.engine.containers[held.value.name] == e.containers[held.value.name]
              || r.engine.containers[held.value.name] == e.containers[held.value.name].(status := Running)
  {
    if held.Some? && held.value.status != Running then
      var started := Start(e, held.value, fails);
      StartResult(started.engine, started.result.Ok?)
    else StartResult(e, true)
  }

  /** Whether each engine call made by `cleanup` is answered with a daemon error. */
  datatype CleanupFaults = CleanupFaults(stop: bool, remove: bool)

  const NoCleanupFaults := CleanupFaults(false, false)

  /** The engine after `cleanup`. Nothing is raised to the caller on any path, and
      the handle is kept. */
  function Cleanup(e: Engine, held: Option<Handle>, f: CleanupFaults): (r: Engine)
    ensures held.None? ==> r == e
    ensures e.log <= r.log && r.nextId == e.nextId
    ensures held.Some? ==> r.containers - {held.value.name} == e.containers - {held.value.name}
    ensures held.Some? && held.value.name in r.containers ==>
              held.value.name in e.containers
              && (r.containers[held.value.name] == e.containers[held.value.name]
                  || r.containers[held.value.name] == e.containers[held.value.name].(status := Exited))
  {
    match held
    case None => e
    case Some(h) =>
      var stopped := if h.status == Running then Stop(e, h, f.stop) else Reply(e, Ok(()));
      if stopped.result.Err? then stopped.engine
      else Remove(stopped.engine, h, f.remove).engine
  }

  /** Whether `reload()` and `stats()` in `get_container_info` are answered with an error. */
  datatype InfoFaults = InfoFaults(reload: bool, stats: bool)

  const NoInfoFaults := InfoFaults(false, false)

  datatype InfoOutcome = NoContainer | InfoFailed(error: Error) | Shown(container: Handle)

  /** The engine after `get_container_info`, the handle as refreshed by `reload()`, and
      what is reported. */
  datatype InfoResult = InfoResult(engine: Engine, held: Option<Handle>, outcome: InfoOutcome)

  function ContainerInfo(e: Engine, held: Option<Handle>, f: InfoFaults): (r: InfoResult)
    ensures held.None? ==> r == InfoResult(e, None, NoContainer)
    ensures r.engine.containers == e.containers && r.engine.nextId == e.nextId
    ensures held.Some? ==> r.held.Some? && r.held.value.name == held.value.name && r.held.value.id == held.value.id
    ensures r.held != held ==>
              held.Some? && Current(e, held.value)
              && r.held == Some(held.value.(status := e.containers[held.value.name].status))
    ensures f.reload ==> r.held == held
    ensures held.Some? ==> (r.outcome.Shown? <==> !f.reload && !f.stats && Current(e, held.value))
    ensures r.outcome.Shown? ==>
              r.held == Some(r.outcome.container) && Current(e, r.outcome.container)
              && r.outcome.container.status == e.containers[r.outcome.container.name].status
  {
    match held
    case None => InfoResult(e, None, NoContainer)
    case Some(h) =>
      var reloaded := Reload(e, h, f.reload);
      match reloaded.result
      case Err(err) => InfoResult(reloaded.engine, held, InfoFailed(err))
      case Ok(refreshed) =>
        var stats := Stats(reloaded.engine, refreshed, f.stats);
        InfoResult(stats.engine, Some(refreshed),
                   if stats.result.Ok? then Shown(refreshed) else InfoFailed(stats.result.error))
  }

  // ---------------------------------------------------------------------------
  // create_container

  /** The requests `create_container` makes to clear a held name: the lookup; a stop
      when the container is `running`; a remove unless that stop raised. Clearing
      goes on to `run` exactly when neither raised and the holder was not paused or
      restarting. */
  lemma ClearNameCalls(e: Engine, name: string, f: CreateFaults)
    requires name in e.containers && !f.get
    ensures var r := ClearName(e, name, f);
            var old_ := e.containers[name];
            var stopRaised := old_.status == Running && f.stop;
            Issued(e, r.engine)
              == [GetCall(name)]
                 + (if old_.status == Running then [StopCall(old_.id)] else [])
                 + (if stopRaised then [] else [RemoveCall(old_.id)])
            && (r.result.Ok? <==> !stopRaised && !f.remove && old_.status != Paused && old_.status != Restarting)
  {
    var r := ClearName(e, name, f);
    var old_ := e.containers[name];
    var h := Handle(name, old_.id, old_.status);
    var got := Get(e, name, f.get);
    assert got.result == Ok(h);
    if old_.status == Running {
      var stopped := Stop(got.engine, h, f.stop);
      if f.stop {
        assert r == stopped;
        assert Issued(e, r.engine) == [GetCall(name), StopCall(old_.id)];
      } else {
        assert Issued(e, r.engine) == [GetCall(name), StopCall(old_.id), RemoveCall(old_.id)];
      }
    } else {
      assert r.engine == Remove(got.engine, h, f.remove).engine;
      assert Issued(e, r.engine) == [GetCall(name), RemoveCall(old_.id)];
    }
  }

  /** An existing container is stopped before removal exactly when the lookup
      reports it `running`; removal is attempted unless that stop raised; `run`
      follows only a removal the engine accepted, which it refuses for a paused or
      restarting container. */
  lemma CreateStopsOnlyRunning(e: Engine, held: Option<Handle>, name: string, f: CreateFaults)
    requires name in e.containers && !f.get
    ensures var r := CreateContainer(e, held, name, f);
            var old_ := e.containers[name];
            var stopRaised := old_.status == Running && f.stop;
            Issued(e, r.engine)
              == [GetCall(name)]
                 + (if old_.status == Running then [StopCall(old_.id)] else [])
                 + (if stopRaised then [] else [RemoveCall(old_.id)])
                 + (if stopRaised || f.remove || old_.status == Paused || old_.status == Restarting then []
                    else [RunCall(name)])
  {
    var cleared := ClearName(e, name, f);
    ClearNameCalls(e, name, f);
    var r := CreateContainer(e, held, name, f);
    if cleared.result.Ok? {
      var run := Run(cleared.engine, name, ShellConfig, f.run);
      assert r.engine == run.engine && run.engine.log == cleared.engine.log + [RunCall(name)];
      assert Issued(e, r.engine) == Issued(e, cleared.engine) + [RunCall(name)];
    } else {
      assert r.engine == cleared.engine;
    }
  }

  /** A name nobody holds: the lookup's NotFound is swallowed, nothing is stopped or
      removed, and the outcome is that of `containers.run`. */
  lemma CreateWhenAbsent(e: Engine, held: Option<Handle>, name: string, f: CreateFaults)
    requires name !in e.containers && !f.get
    ensures var r := CreateContainer(e, held, name, f);
            Issued(e, r.engine) == [GetCall(name), RunCall(name)]
            && (r.ok <==> f.run == RunSucceeds)
  {
  }

  /** A failed lookup other than NotFound ends `create_container` with False before
      anything else is asked of the engine. */
  lemma CreateLookupFailure(e: Engine, held: Option<Handle>, name: string, f: CreateFaults)
    requires f.get
    ensures var r := CreateContainer(e, held, name, f);
            !r.ok && r.held == held && r.engine.containers == e.containers
            && Issued(e, r.engine) == [GetCall(name)]
  {
  }

  /** For a name that is held, creation returns True exactly when neither the stop
      (made only for a running container) nor the remove nor `run` raised; the
      remove also raises for a paused or restarting holder, which is never stopped. */
  lemma CreateFailsOnFault(e: Engine, held: Option<Handle>, name: string, f: CreateFaults)
    requires name in e.containers && !f.get
    ensures var r := CreateContainer(e, held, name, f);
            var status := e.containers[name].status;
            r.ok <==> (status == Running ==> !f.stop) && !f.remove && status != Paused && status != Restarting
                      && f.run == RunSucceeds
  {
  }

  /** A container the program can clear away: none holds the name, or the one that
      does is neither paused nor restarting. */
  predicate Reclaimable(e: Engine, name: string) {
    name !in e.containers || !(e.containers[name].status == Paused || e.containers[name].status == Restarting)
  }

  /** A paused or restarting holder is never stopped, so the engine refuses its
      removal: creation returns False with the holder untouched and no `run` made. */
  lemma CreateBlockedByBusyHolder(e: Engine, held: Option<Handle>, name: string)
    requires !Reclaimable(e, name)
    ensures var r := CreateContainer(e, held, name, NoCreateFaults);
            !r.ok && r.held == held && r.engine.containers == e.containers
            && Issued(e, r.engine) == [GetCall(name), RemoveCall(e.containers[name].id)]
  {
  }

  /** With no daemon errors, creation succeeds whenever the holder of the name, if
      any, is not paused or restarting, and the new container's id differs from the
      one it replaced. */
  lemma CreateSelfHeals(e: Engine, held: Option<Handle>, name: string)
    requires WellFormed(e) && Reclaimable(e, name)
    ensures var r := CreateContainer(e, held, name, NoCreateFaults);
            r.ok && r.engine.containers == e.containers[name := Container(e.nextId, Running, ShellConfig)]
            && (name in e.containers ==> r.held.value.id != e.containers[name].id)
  {
    var r := CreateContainer(e, held, name, NoCreateFaults);
    var cleared := ClearName(e, name, NoCreateFaults);
    if name in e.containers {
      var c := e.containers[name];
      var h := Handle(name, c.id, c.status);
      var got := Get(e, name, false);
      var stopped := if h.status == Running then Stop(got.engine, h, false) else Reply(got.engine, Ok(()));
      assert Current(stopped.engine, h) && !Busy(stopped.engine.containers[name].status);
    }
    assert cleared.result.Ok?;
    assert r.engine.containers == e.containers[name := Container(e.nextId, Running, ShellConfig)];
  }

  // ---------------------------------------------------------------------------
  // start_container

  /** `start_container` trusts the snapshot: a handle that last read `running`
      reports success without asking the engine, even if the container has since
      exited. */
  lemma StartTrustsSnapshot(e: Engine, h: Handle, fails: bool)
    requires Current(e, h) && h.status == Running && e.containers[h.name].status == Exited
    ensures var r := StartContainer(e, Some(h), fails);
            r.ok && r.engine.containers[h.name].status == Exited && r.engine.log == e.log
  {
  }

  /** A held container whose snapshot is not `running` is started: the engine refuses
      only a paused one, and any container that is neither paused nor restarting ends
      up running. */
  lemma StartRunsContainer(e: Engine, h: Handle)
    requires Current(e, h) && h.status != Running
    ensures var r := StartContainer(e, Some(h), false);
            var status := e.containers[h.name].status;
            (r.ok <==> status != Paused)
            && (status != Paused && status != Restarting ==>
                  r.engine.containers[h.name] == e.containers[h.name].(status := Running))
  {
  }

  // ---------------------------------------------------------------------------
  // cleanup

  /** Stop is asked for exactly when the snapshot reads `running`; remove is asked for
      unless that stop raised. */
  lemma CleanupCallOrder(e: Engine, h: Handle, f: CleanupFaults)
    ensures var r := Cleanup(e, Some(h), f);
            var stopRaised := h.status == Running && (f.stop || !Current(e, h));
            Issued(e, r)
              == (if h.status == Running then [StopCall(h.id)] else [])
                 + (if stopRaised then [] else [RemoveCall(h.id)])
  {
    var r := Cleanup(e, Some(h), f);
    var stopped := if h.status == Running then Stop(e, h, f.stop) else Reply(e, Ok(()));
    if h.status == Running {
      if stopped.result.Ok? {
        assert Issued(e, r) == [StopCall(h.id), RemoveCall(h.id)];
      } else {
        assert Issued(e, r) == [StopCall(h.id)];
      }
    } else {
      assert Issued(e, r) == [RemoveCall(h.id)];
    }
  }

  /** When the engine answers both calls and the snapshot is accurate enough (it
      reads `running`, or the container is not running, paused or restarting), the
      container is gone and nothing else changed. */
  lemma CleanupRemoves(e: Engine, h: Handle)
    requires Current(e, h)
    requires h.status == Running || !Busy(e.containers[h.name].status)
    ensures Cleanup(e, Some(h), NoCleanupFaults).containers == e.containers - {h.name}
  {
  }

  /** With a snapshot that does not read `running` while the container is running,
      paused or restarting, the stop is skipped and the engine refuses the removal:
      the container stays as it is. */
  lemma CleanupStaleSnapshotKeeps(e: Engine, h: Handle, f: CleanupFaults)
    requires Current(e, h) && h.status != Running && Busy(e.containers[h.name].status)
    ensures Cleanup(e, Some(h), f).containers == e.containers
  {
  }

  /** A handle whose container is gone cannot change anything: every call it makes
      fails with NotFound, which cleanup swallows. */
  lemma CleanupStaleHandle(e: Engine, h: Handle, f: CleanupFaults)
    requires !Current(e, h)
    ensures Cleanup(e, Some(h), f).containers == e.containers
  {
  }

  /** Cleanup called again after it removed the container (the signal handler and
      then main's finally clause) changes no container. */
  lemma {:induction false} CleanupTwice(e: Engine, h: Handle, f1: CleanupFaults, f2: CleanupFaults)
    requires h.name !in Cleanup(e, Some(h), f1).containers
    ensures var once := Cleanup(e, Some(h), f1);
            Cleanup(once, Some(h), f2).containers == once.containers
  {
    CleanupStaleHandle(Cleanup(e, Some(h), f1), h, f2);
  }

  // ---------------------------------------------------------------------------
  // get_container_info

  /** `reload()` brings the held snapshot up to date. */
  lemma InfoRefreshesSnapshot(e: Engine, h: Handle, f: InfoFaults)
    requires Current(e, h) && !f.reload
    ensures ContainerInfo(e, Some(h), f).held == Some(h.(status := e.containers[h.name].status))
  {
  }

  // ---------------------------------------------------------------------------
  // Whole sessions

  /** Create, start, show info, clean up, with the engine answering every call and a
      reclaimable name: the name ends up free and every other container is as it was. */
  lemma FaultFreeSessionReclaims(e: Engine, held: Option<Handle>, name: string)
    requires WellFormed(e) && Reclaimable(e, name)
    ensures var c := CreateContainer(e, held, name, NoCreateFaults);
            var s := StartContainer(c.engine, c.held, false);
            var i := ContainerInfo(s.engine, c.held, NoInfoFaults);
            Cleanup(i.engine, i.held, NoCleanupFaults).containers == e.containers - {name}
  {
    CreateSelfHeals(e, held, name);
    var c := CreateContainer(e, held, name, NoCreateFaults);
    var h := c.held.value;
    var s := StartContainer(c.engine, c.held, false);
    assert s.engine.containers[name].status == Running;
    InfoRefreshesSnapshot(s.engine, h, NoInfoFaults);
    var i := ContainerInfo(s.engine, c.held, NoInfoFaults);
    CleanupRemoves(i.engine, i.held.value);
    assert i.engine.containers - {name} == e.containers - {name};
  }

  /** Create and start, then clean up without the reload in between: the snapshot
      still reads `created`, so the running container is left behind. */
  lemma CleanupBeforeReloadLeaves(e: Engine, held: Option<Handle>, name: string, f: CleanupFaults)
    requires WellFormed(e) && Reclaimable(e, name)
    ensures var c := CreateContainer(e, held, name, NoCreateFaults);
            var s := StartContainer(c.engine, c.held, false);
            var k := Cleanup(s.engine, c.held, f);
            name in k.containers && k.containers[name] == Container(e.nextId, Running, ShellConfig)
  {
    CreateSelfHeals(e, held, name);
    var c := CreateContainer(e, held, name, NoCreateFaults);
    var s := StartContainer(c.engine, c.held, false);
    CleanupStaleSnapshotKeeps(s.engine, c.held.value, f);
  }
}
