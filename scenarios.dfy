/** Clients that use only the contracts of the handle, against a runtime with scripted answers. */
module Scenarios {
  import opened Types
  import opened Containerd
  import opened Protocol
  import opened Handle

  const SIGTERM: Signal := 15

  /** Task "task-1" named "redis": `run` starts it once, after the grace sleep, and changes no field. */
  method RunStartsOnce(start: Reply)
  {
    var rt := new Runtime([start]);
    var h := new TaskHandle(TaskConfig("task-1", "redis"), TaskStateUnknown, 0, 0, None, "redis-c", rt);
    h.Run();
    assert rt.log == [Slept(StartupGrace), Called(Start, start)];
    assert h.TaskStatus().state == TaskStateUnknown;
    assert h.TaskStatus().id == "task-1" && h.TaskStatus().name == "redis";
  }

  /** `shutdown(5s, SIGTERM)` with the task still running: two kills, the second one forceful. */
  method ShutdownStillRunning(e: Option<Error>)
  {
    var rs := [Reply(None, Unknown), Reply(None, Running), Reply(e, Unknown)];
    var rt := new Runtime(rs);
    var h := new TaskHandle(TaskConfig("task-1", "redis"), TaskStateRunning, 1, 0, None, "redis-c", rt);
    var err := h.Shutdown(5 * Second, SIGTERM);
    ShutdownEscalatesIff(5 * Second, SIGTERM, rs);
    assert rt.log == ShutdownTrace(5 * Second, SIGTERM, rs).events;
    assert Kills(rt.log) == [SIGTERM, SIGKILL];
    assert err == e;
  }

  /** `shutdown` after the task stopped on its own: one kill and success. */
  method ShutdownAlreadyStopped()
  {
    var rs := [Reply(None, Unknown), Reply(None, Stopped)];
    var rt := new Runtime(rs);
    var h := new TaskHandle(TaskConfig("task-1", "redis"), TaskStateRunning, 1, 0, None, "redis-c", rt);
    var err := h.Shutdown(5 * Second, SIGTERM);
    ShutdownEscalatesIff(5 * Second, SIGTERM, rs);
    assert rt.log == ShutdownTrace(5 * Second, SIGTERM, rs).events;
    assert Kills(rt.log) == [SIGTERM];
    assert err == None;
  }

  /** `cleanup` whose task deletion fails leaves the container alone. */
  method CleanupTaskDeleteFails()
  {
    var e := Error("task not found");
    var rt := new Runtime([Reply(Some(e), Unknown)]);
    var h := new TaskHandle(TaskConfig("task-1", "redis"), TaskStateExited, 1, 2, None, "redis-c", rt);
    var err := h.Cleanup();
    assert rt.log == [Called(TaskDelete, Reply(Some(e), Unknown))];
    assert err == Some(e);
  }
}
