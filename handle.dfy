/**
 * The task handle: the lifecycle fields of one supervised task and the operations that report
 * them and drive the task and container it owns.
 */
module Handle {
  import opened Types
  import opened Containerd
  import opened Protocol

  class TaskHandle {
    const taskConfig: TaskConfig
    var procState: TaskState
    var startedAt: Timestamp
    var completedAt: Timestamp
    var exitResult: Option<ExitResult>
    var containerName: string
    /** Both the handle's task and its container: one runtime, so that one log orders their calls. */
    const runtime: Runtime

    constructor (config: TaskConfig, state: TaskState, started: Timestamp, completed: Timestamp,
                 exit: Option<ExitResult>, name: string, rt: Runtime)
      ensures taskConfig == config && procState == state && startedAt == started
      ensures completedAt == completed && exitResult == exit && containerName == name
      ensures runtime == rt
    {
      taskConfig, procState, startedAt, completedAt := config, state, started, completed;
      exitResult, containerName, runtime := exit, name, rt;
    }

    /** The snapshot reported to the orchestrator; it reads the handle's fields and nothing else. */
    function TaskStatus(): (s: TaskStatus)
      reads this
      ensures s.id == taskConfig.id && s.name == taskConfig.name
      ensures s.state == procState && s.startedAt == startedAt && s.completedAt == completedAt
      ensures s.exitResult == exitResult
      ensures s.driverAttributes.Keys == {ContainerNameKey}
      ensures s.driverAttributes[ContainerNameKey] == containerName
    {
      Types.TaskStatus(taskConfig.id, taskConfig.name, procState, startedAt, completedAt, exitResult,
                       map[ContainerNameKey := containerName])
    }

    /** Whether the task is running; it agrees with the state in the snapshot. */
    predicate IsRunning()
      reads this
      ensures IsRunning() <==> TaskStatus().state == TaskStateRunning
    {
      procState == TaskStateRunning
    }

    /** `run`: wait the startup grace, then start the task; Start's error is not returned. */
    method Run()
      requires |runtime.pending| >= 1
      modifies runtime
      ensures var t := RunTrace(old(runtime.pending));
        runtime.log == old(runtime.log) + t.events && runtime.pending == old(runtime.pending)[Used(t)..]
      ensures TaskStatus() == old(TaskStatus())
      ensures WellOrdered(old(runtime.log)) ==> WellOrdered(runtime.log)
    {
      ghost var log0, rs := runtime.log, runtime.pending;
      runtime.Sleep(StartupGrace);
      var _ := runtime.Start();
      assert runtime.log == log0 + RunTrace(rs).events;
      if WellOrdered(log0) {
        WellOrderedConcat(log0, RunTrace(rs).events);
      }
    }

    /** `shutdown(timeout, sig)`: signal, wait, query, and send SIGKILL only if still running. */
    method Shutdown(timeout: Duration, sig: Signal) returns (err: Option<Error>)
      requires ShutdownFed(runtime.pending)
      modifies runtime
      ensures var t := ShutdownTrace(timeout, sig, old(runtime.pending));
        && err == t.err
        && runtime.log == old(runtime.log) + t.events
        && runtime.pending == old(runtime.pending)[Used(t)..]
      ensures TaskStatus() == old(TaskStatus())
      ensures WellOrdered(old(runtime.log)) ==> WellOrdered(runtime.log)
    {
      ghost var log0, rs := runtime.log, runtime.pending;
      ghost var t := ShutdownTrace(timeout, sig, rs);
      err := runtime.Kill(sig);
      if err != None {
        ReadOne(Called(Kill(sig), rs[0]));
        assert runtime.log == log0 + t.events;
      } else {
        runtime.Sleep(timeout);
        var status;
        status, err := runtime.Status();
        Read3(Called(Kill(sig), rs[0]), Slept(timeout), Called(Status, rs[1]));
        if err != None {
          assert runtime.log == log0 + t.events;
        } else if status != Running {
          assert runtime.log == log0 + t.events;
        } else {
          err := runtime.Kill(SIGKILL);
          ReadAppend([Called(Kill(sig), rs[0]), Slept(timeout), Called(Status, rs[1])], Called(Kill(SIGKILL), rs[2]));
          assert runtime.log == log0 + t.events;
        }
      }
      if WellOrdered(log0) {
        WellOrderedConcat(log0, t.events);
      }
    }

    /** `cleanup`: delete the task, and only then the container with its snapshot. */
    method Cleanup() returns (err: Option<Error>)
      requires CleanupFed(runtime.pending)
      modifies runtime
      ensures var t := CleanupTrace(old(runtime.pending));
        && err == t.err
        && runtime.log == old(runtime.log) + t.events
        && runtime.pending == old(runtime.pending)[Used(t)..]
      ensures TaskStatus() == old(TaskStatus())
      ensures WellOrdered(old(runtime.log)) ==> WellOrdered(runtime.log)
    {
      ghost var log0, rs := runtime.log, runtime.pending;
      ghost var t := CleanupTrace(rs);
      err := runtime.DeleteTask();
      if err == None {
        err := runtime.DeleteContainer(true);
        Read2(Called(TaskDelete, rs[0]), Called(ContainerDelete(true), rs[1]));
      } else {
        ReadOne(Called(TaskDelete, rs[0]));
      }
      assert runtime.log == log0 + t.events;
      if WellOrdered(log0) {
        WellOrderedConcat(log0, t.events);
      }
    }

    /** `signal(sig)`: forward a signal the runtime understands as one Kill. */
    method Signal(sig: OsSignal) returns (err: Option<Error>)
      requires sig.Syscall?
      requires |runtime.pending| >= 1
      modifies runtime
      ensures var t := SignalTrace(sig.signo, old(runtime.pending));
        && err == t.err
        && runtime.log == old(runtime.log) + t.events
        && runtime.pending == old(runtime.pending)[Used(t)..]
      ensures TaskStatus() == old(TaskStatus())
      ensures WellOrdered(old(runtime.log)) ==> WellOrdered(runtime.log)
    {
      ghost var log0, rs := runtime.log, runtime.pending;
      err := runtime.Kill(sig.signo);
      assert runtime.log == log0 + SignalTrace(sig.signo, rs).events;
      if WellOrdered(log0) {
        WellOrderedConcat(log0, SignalTrace(sig.signo, rs).events);
      }
    }
  }
}
