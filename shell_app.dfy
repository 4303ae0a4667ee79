/** app.py: the single-operator shell. `DockerShellManager` owns one container under
    a fixed name; `RunApplication` is the order of calls in `main`, including the
    extra cleanup the signal handler makes before `sys.exit` unwinds into main's
    `finally` clause. */
module ShellApp {
  import opened Docker
  import Lifecycle

  const ContainerName := "web-shell-container"

  /** How the `docker exec -it <id> /bin/bash` subprocess ends: with an exit status,
      or without being started at all (the `docker` binary is missing, say). */
  datatype ShellRun = Exits(status: int) | LaunchFails

  class DockerShellManager {
    const containerName: string
    /** `self.container`: the SDK handle, never cleared once set. */
    var container: Option<Handle>
    /** The engine reached through `self.client`. */
    var engine: Engine

    constructor (engine: Engine)
      ensures this.engine == engine && container == None && containerName == ContainerName
    {
      this.engine := engine;
      container := None;
      containerName := ContainerName;
    }

    /** Frees the name (stop if running, then remove; NotFound is fine), then runs a
        new container with the fixed limits. Every engine error ends in False. */
    method CreateContainer(f: Lifecycle.CreateFaults) returns (ok: bool)
      modifies this
      ensures var r := Lifecycle.CreateContainer(old(engine), old(container), containerName, f);
              engine == r.engine && container == r.held && ok == r.ok
    {
      var got := Get(engine, containerName, f.get);
      engine := got.engine;
      if got.result.Err? {
        if got.result.error != NotFound {
          return false;
        }
      } else {
        var existing := got.result.value;
        var failure: Option<Error> := None;
        if existing.status == Running {
          var stopped := Stop(engine, existing, f.stop);
          engine := stopped.engine;
          if stopped.result.Err? {
            failure := Some(stopped.result.error);
          }
        }
        if failure.None? {
          var removed := Remove(engine, existing, f.remove);
          engine := removed.engine;
          if removed.result.Err? {
            failure := Some(removed.result.error);
          }
        }
        if failure.Some? && failure.value != NotFound {
          return false;
        }
      }
      var run := Run(engine, containerName, Lifecycle.ShellConfig, f.run);
      engine := run.engine;
      if run.result.Err? {
        return false;
      }
      container := Some(run.result.value);
      return true;
    }

    /** Starts the held container when its snapshot is not `running`. */
    method StartContainer(fails: bool) returns (ok: bool)
      modifies this
      ensures container == old(container)
      ensures var r := Lifecycle.StartContainer(old(engine), old(container), fails);
              engine == r.engine && ok == r.ok
    {
      if container.Some? && container.value.status != Running {
        var started := Start(engine, container.value, fails);
        engine := started.engine;
        if started.result.Err? {
          return false;
        }
      }
      return true;
    }

    /** Hands the terminal to `docker exec -it <id> /bin/bash`; `spawned` says whether
        that subprocess was attempted. With `check=True`, success is exit status 0. */
    method GetInteractiveShell(shell: ShellRun) returns (ok: bool, spawned: bool)
      ensures spawned <==> container.Some?
      ensures ok <==> spawned && shell == Exits(0)
    {
      if container.None? {
        return false, false;
      }
      spawned := true;
      match shell
      case Exits(status) =>
        ok := status == 0;
      case LaunchFails =>
        ok := false;
    }

    /** Stop if the snapshot reads `running`, then remove; every error is swallowed. */
    method Cleanup(f: Lifecycle.CleanupFaults)
      modifies this
      ensures container == old(container)
      ensures engine == Lifecycle.Cleanup(old(engine), old(container), f)
    {
      if container.Some? {
        var h := container.value;
        if h.status == Running {
          var stopped := Stop(engine, h, f.stop);
          engine := stopped.engine;
          if stopped.result.Err? {
            return;
          }
        }
        var removed := Remove(engine, h, f.remove);
        engine := removed.engine;
      }
    }

    /** Refreshes the snapshot with `reload()` and fetches the stats. In app.py an
        error here is not caught: InfoFailed stands for the exception main receives. */
    method GetContainerInfo(f: Lifecycle.InfoFaults) returns (outcome: Lifecycle.InfoOutcome)
      modifies this
      ensures var r := Lifecycle.ContainerInfo(old(engine), old(container), f);
              engine == r.engine && container == r.held && outcome == r.outcome
    {
      if container.None? {
        return Lifecycle.NoContainer;
      }
      var reloaded := Reload(engine, container.value, f.reload);
      engine := reloaded.engine;
      if reloaded.result.Err? {
        return Lifecycle.InfoFailed(reloaded.result.error);
      }
      container := Some(reloaded.result.value);
      var stats := Stats(engine, container.value, f.stats);
      engine := stats.engine;
      if stats.result.Err? {
        return Lifecycle.InfoFailed(stats.result.error);
      }
      return Lifecycle.Shown(container.value);
    }
  }

  /** Where SIGINT or SIGTERM arrives, if at all: before `manager` is assigned, or
      inside main's `try` just before the named step (DuringShell: while the shell
      blocks). */
  datatype Signal = NoSignal | BeforeManager | BeforeCreate | BeforeStart | BeforeInfo | DuringShell

  /** The engine's answers to every call `main` can lead to. */
  datatype Script = Script(
    create: Lifecycle.CreateFaults,
    startFails: bool,
    info: Lifecycle.InfoFaults,
    shell: ShellRun,
    handlerCleanup: Lifecycle.CleanupFaults,
    finalCleanup: Lifecycle.CleanupFaults)

  predicate FaultFree(s: Script) {
    s.create == Lifecycle.NoCreateFaults && !s.startFails && s.info == Lifecycle.NoInfoFaults
    && s.handlerCleanup == Lifecycle.NoCleanupFaults && s.finalCleanup == Lifecycle.NoCleanupFaults
  }

  /** How far `main` got before cleanup: the engine, the handle held, the exit status
      so far, and whether the signal handler ran. */
  datatype Progress = Progress(engine: Engine, held: Option<Handle>, status: int, interrupted: bool)

  /** The steps of `main` from `create_container` to the interactive shell; a failed
      step sets status 1, and a signal ends them where it arrives. */
  function Steps(e: Engine, script: Script, signal: Signal): Progress {
    if signal == BeforeCreate then Progress(e, None, 0, true)
    else
      var c := Lifecycle.CreateContainer(e, None, ContainerName, script.create);
      if !c.ok then Progress(c.engine, c.held, 1, false)
      else if signal == BeforeStart then Progress(c.engine, c.held, 0, true)
      else
        var s := Lifecycle.StartContainer(c.engine, c.held, script.startFails);
        if !s.ok then Progress(s.engine, c.held, 1, false)
        else if signal == BeforeInfo then Progress(s.engine, c.held, 0, true)
        else
          var i := Lifecycle.ContainerInfo(s.engine, c.held, script.info);
          Progress(i.engine, i.held, 0, !i.outcome.InfoFailed? && signal == DuringShell)
  }

  /** The body of main's `try` up to its `finally` clause, on a new manager. */
  method RunSteps(m: DockerShellManager, script: Script, signal: Signal) returns (status: int, interrupted: bool)
    requires m.container.None? && m.containerName == ContainerName
    modifies m
    ensures Progress(m.engine, m.container, status, interrupted) == Steps(old(m.engine), script, signal)
  {
    status, interrupted := 0, false;
    if signal == BeforeCreate {
      interrupted := true;
    } else {
      var created := m.CreateContainer(script.create);
      if !created {
        status := 1;
      } else if signal == BeforeStart {
        interrupted := true;
      } else {
        var started := m.StartContainer(script.startFails);
        if !started {
          status := 1;
        } else if signal == BeforeInfo {
          interrupted := true;
        } else {
          var info := m.GetContainerInfo(script.info);
          if !info.InfoFailed? {
            var ok, spawned := m.GetInteractiveShell(script.shell);
            interrupted := signal == DuringShell;
          }
        }
      }
    }
  }

  /** The engine after main's cleanups: the signal handler's, if it ran, then the
      `finally` clause's, both on the handle held when the steps ended. */
  function Teardown(p: Progress, script: Script): Engine {
    var once := if p.interrupted then Lifecycle.Cleanup(p.engine, p.held, script.handlerCleanup) else p.engine;
    Lifecycle.Cleanup(once, p.held, script.finalCleanup)
  }

  /** The steps end with status 1 exactly when creation failed, or start failed with
      no signal before it; the signal handler runs only on a real signal, and never
      after a failure. */
  lemma StepsExitStatus(e: Engine, script: Script, signal: Signal)
    ensures var p := Steps(e, script, signal);
            var c := Lifecycle.CreateContainer(e, None, ContainerName, script.create);
            var s := Lifecycle.StartContainer(c.engine, c.held, script.startFails);
            (p.status == 1 <==> signal != BeforeCreate && (!c.ok || (signal != BeforeStart && !s.ok)))
            && (p.interrupted ==> signal != NoSignal && p.status == 0)
  {
  }

  /** With the engine answering every call and a name it can free, a session that
      reaches the shell ends with status 0 and the name free again. */
  lemma FaultFreeRunReclaims(e: Engine, script: Script, signal: Signal)
    requires FaultFree(script) && WellFormed(e) && Lifecycle.Reclaimable(e, ContainerName)
    requires signal == NoSignal || signal == DuringShell
    ensures Steps(e, script, signal).status == 0
    ensures Teardown(Steps(e, script, signal), script).containers == e.containers - {ContainerName}
  {
    var p := Steps(e, script, signal);
    Lifecycle.FaultFreeSessionReclaims(e, None, ContainerName);
    Lifecycle.CreateSelfHeals(e, None, ContainerName);
    if p.interrupted {
      Lifecycle.CleanupTwice(p.engine, p.held.value, script.handlerCleanup, script.finalCleanup);
    }
  }

  /** A paused or restarting container under the name makes creation fail: status 1,
      no handle, and every container as it was. */
  lemma BusyHolderRunFails(e: Engine, script: Script, signal: Signal)
    requires !Lifecycle.Reclaimable(e, ContainerName) && script.create == Lifecycle.NoCreateFaults
    requires signal != BeforeManager && signal != BeforeCreate
    ensures Steps(e, script, signal).status == 1
    ensures Teardown(Steps(e, script, signal), script).containers == e.containers
  {
    Lifecycle.CreateBlockedByBusyHolder(e, None, ContainerName);
  }

  /** When cleanup runs on the snapshot `run` returned (a signal before start or before
      the info step, a failed start, or a raising reload), the new container is left
      running under the name. */
  lemma StaleSnapshotRunLeaks(e: Engine, script: Script, signal: Signal)
    requires WellFormed(e) && Lifecycle.Reclaimable(e, ContainerName) && script.create == Lifecycle.NoCreateFaults
    requires signal != BeforeManager && signal != BeforeCreate
    requires signal == BeforeStart || script.startFails || signal == BeforeInfo || script.info.reload
    ensures var k := Teardown(Steps(e, script, signal), script);
            ContainerName in k.containers
            && k.containers[ContainerName] == Container(e.nextId, Running, Lifecycle.ShellConfig)
  {
    var p := Steps(e, script, signal);
    Lifecycle.CreateSelfHeals(e, None, ContainerName);
    var c := Lifecycle.CreateContainer(e, None, ContainerName, script.create);
    assert p.held == c.held && p.held.value.status == Created;
    assert ContainerName in p.engine.containers
           && p.engine.containers[ContainerName] == Container(e.nextId, Running, Lifecycle.ShellConfig);
    var once := if p.interrupted then Lifecycle.Cleanup(p.engine, p.held, script.handlerCleanup) else p.engine;
    if p.interrupted {
      Lifecycle.CleanupStaleSnapshotKeeps(p.engine, p.held.value, script.handlerCleanup);
    }
    Lifecycle.CleanupStaleSnapshotKeeps(once, p.held.value, script.finalCleanup);
  }

  /** `main`: returns the process exit status, the engine at exit, how many times
      `cleanup` ran, and whether the signal handler ran. */
  method RunApplication(engine0: Engine, dockerAvailable: bool, script: Script, signal: Signal)
    returns (status: int, engine: Engine, cleanups: nat, interrupted: bool)
    ensures !dockerAvailable ==> status == 1 && cleanups == 0 && engine == engine0
    ensures dockerAvailable && signal == BeforeManager ==> status == 0 && cleanups == 0 && engine == engine0
    ensures dockerAvailable && signal != BeforeManager ==> cleanups == if interrupted then 2 else 1
    ensures interrupted ==> dockerAvailable && signal != NoSignal && status == 0
    ensures var c := Lifecycle.CreateContainer(engine0, None, ContainerName, script.create);
            var s := Lifecycle.StartContainer(c.engine, c.held, script.startFails);
            status == 1 <==>
              !dockerAvailable
              || (signal != BeforeManager && signal != BeforeCreate
                  && (!c.ok || (signal != BeforeStart && !s.ok)))
    ensures dockerAvailable && FaultFree(script) && WellFormed(engine0) && Lifecycle.Reclaimable(engine0, ContainerName)
            && (signal == NoSignal || signal == DuringShell)
            ==> status == 0 && engine.containers == engine0.containers - {ContainerName}
    ensures dockerAvailable && !Lifecycle.Reclaimable(engine0, ContainerName) && script.create == Lifecycle.NoCreateFaults
            && signal != BeforeManager && signal != BeforeCreate
            ==> status == 1 && engine.containers == engine0.containers
    ensures dockerAvailable && WellFormed(engine0) && Lifecycle.Reclaimable(engine0, ContainerName)
            && script.create == Lifecycle.NoCreateFaults
            && signal != BeforeManager && signal != BeforeCreate
            && (signal == BeforeStart || script.startFails || signal == BeforeInfo || script.info.reload)
            ==> ContainerName in engine.containers
                && engine.containers[ContainerName] == Container(engine0.nextId, Running, Lifecycle.ShellConfig)
  {
    if !dockerAvailable {
      return 1, engine0, 0, false;
    }
    if signal == BeforeManager {
      return 0, engine0, 0, true;
    }
    var m := new DockerShellManager(engine0);
    status, interrupted := RunSteps(m, script, signal);
    cleanups := 0;
    ghost var p := Steps(engine0, script, signal);
    if interrupted {
      // The handler's own cleanup; its sys.exit(0) then unwinds into the finally clause.
      m.Cleanup(script.handlerCleanup);
      cleanups := 1;
    }
    m.Cleanup(script.finalCleanup);
    cleanups := cleanups + 1;
    engine := m.engine;
    assert engine == Teardown(p, script);
    StepsExitStatus(engine0, script, signal);

    if FaultFree(script) && WellFormed(engine0) && Lifecycle.Reclaimable(engine0, ContainerName)
       && (signal == NoSignal || signal == DuringShell) {
      FaultFreeRunReclaims(engine0, script, signal);
    }
    if !Lifecycle.Reclaimable(engine0, ContainerName) && script.create == Lifecycle.NoCreateFaults
       && signal != BeforeCreate {
      BusyHolderRunFails(engine0, script, signal);
    }
    if WellFormed(engine0) && Lifecycle.Reclaimable(engine0, ContainerName)
       && script.create == Lifecycle.NoCreateFaults && signal != BeforeCreate
       && (signal == BeforeStart || script.startFails || signal == BeforeInfo || script.info.reload) {
      StaleSnapshotRunLeaks(engine0, script, signal);
    }
  }
}
