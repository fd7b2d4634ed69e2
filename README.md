# Task handle of the nomad containerd driver, modelled in Dafny

This project models the task handle of the nomad containerd task driver.
The handle keeps the lifecycle fields of one supervised task: its configuration, its state, the start and completion timestamps, its exit result and the container name.
It reports those fields to nomad as a status snapshot.
It also drives the task and container that it owns: it starts the task, forwards signals, shuts the task down gracefully and then forcefully, and deletes the task and then the container.

This is how the model is built:

- `Types` holds the plain values: nomad's task state, exit result, task configuration and status snapshot; containerd's process status; signals, durations and errors.
- `Containerd.Runtime` is one abstract object that stands for both the task object and the container object of the handle.
  Every call made on it takes the next answer from a scripted sequence, `pending`.
  The call and its answer are appended to a ghost call log.
  A `time.Sleep` of the handle is recorded in the same log as a `Slept(d)` entry, so that ordering against the waits can be stated.
- `Protocol` gives, for each lifecycle operation, the events it appends and the error it returns, as a pure function of the runtime's answers.
  It also proves the operation's abort and escalation rules about that function.
  `WellOrdered` is the ordering discipline the handle keeps on the log.
- `Handle.TaskHandle` is the handle as a class.
  `TaskStatus` and `IsRunning` are functions that read its fields.
  `Run`, `Shutdown`, `Cleanup` and `Signal` are methods that call the runtime.
  Each of those methods is proved to append exactly its `Protocol` trace, to consume exactly its answers, to leave every handle field unchanged, and to keep `WellOrdered`.
  `Shutdown`, `Cleanup` and `Signal` are also proved to return their trace's error; `Run` returns nothing.
- `Lifecycle` takes any sequence of lifecycle calls on one handle.
  It proves that the whole log keeps the ordering rules and that the answers are used in order.
- `Scenarios` holds clients that use only the contracts, such as `shutdown(5s, SIGTERM)` against a task that is still running.

I/O, the runtime's behaviour and the clock are not modelled.
The runtime's answers are a parameter: the reply sequence given to `Runtime`'s constructor.
Every runtime operation requires an answer to be waiting.
The `...Fed` predicates say that the pending answers cover every call an operation makes on the path those answers select.
They constrain the script, not the handle's callers.

`run` ignores `Start`'s error (containerd/handle.go:63): it returns nothing, so `RunTrace.err` is always `None`.
nomad's `drivers.TaskState` values are modelled as `TaskStateUnknown`, `TaskStateRunning` and `TaskStateExited`.

## Model

| member | source | states |
|---|---|---|
| Handle.TaskHandle.TaskStatus | containerd/handle.go:33-48 | The snapshot carries the configured ID and Name and the handle's current state, timestamps and exit result. Its driver attributes are exactly one entry, `"containerName"` mapped to the container name. It reads only the handle's fields. |
| Handle.TaskHandle.IsRunning | containerd/handle.go:50-54 | Holds iff the state is Running, which is the state the snapshot reports. |
| Handle.TaskHandle.Run | containerd/handle.go:56-64 | Appends the startup grace sleep and then one Start. Consumes one answer and returns nothing. Leaves every handle field unchanged and keeps the ordering rules. |
| Handle.TaskHandle.Shutdown | containerd/handle.go:66-87 | Appends exactly `ShutdownTrace` and returns its error. Consumes exactly its answers. Leaves every handle field unchanged and keeps the ordering rules. |
| Handle.TaskHandle.Cleanup | containerd/handle.go:89-97 | Appends exactly `CleanupTrace` and returns its error. Consumes exactly its answers. Leaves every handle field unchanged and keeps the ordering rules. |
| Handle.TaskHandle.Signal | containerd/handle.go:103-105 | For a signal the runtime understands: one Kill carrying that signal, whose error is returned unchanged. No handle field changes. |
| Protocol.RunTrace | containerd/handle.go:60-63 | The calls are exactly `[Start]`, preceded by a sleep of the 5-second startup grace. One answer is used and no error is returned, because Start's error is dropped. |
| Protocol.ShutdownTrace | containerd/handle.go:66-87 | Uses one to three answers, in order, from the front of the script. The log it produces keeps the ordering rules. |
| Protocol.ShutdownKillFailureAborts | containerd/handle.go:67-69 | If the first Kill fails, its error is returned unchanged and the log is only `[Kill(sig)]`: no wait, no status query, no second Kill. |
| Protocol.ShutdownStatusFailureAborts | containerd/handle.go:74-79 | If the status query fails, its error is returned. The log is exactly Kill(sig), the sleep of `timeout`, then Status, and no SIGKILL is sent. |
| Protocol.ShutdownStoppedIsSuccess | containerd/handle.go:81-84 | If the reported status is not Running, the result is nil and the only Kill is the caller's signal. |
| Protocol.ShutdownEscalates | containerd/handle.go:81-86 | If the reported status is Running, the calls are `[Kill(sig), Status, Kill(SIGKILL)]` and the result is the second Kill's error. |
| Protocol.ShutdownEscalatesIff | containerd/handle.go:66-87 | The signals sent are `[sig, SIGKILL]` exactly when the first Kill and the status query both succeeded and the status was Running. Otherwise they are `[sig]`. |
| Protocol.ShutdownQueriesAfterTimeout | containerd/handle.go:67-76 | The status is queried iff the first Kill succeeded. The query comes right after a sleep of the caller's timeout. |
| Protocol.CleanupTrace | containerd/handle.go:89-97 | Uses one or two answers, in order, from the front of the script. Container deletion comes only right after a successful task deletion. |
| Protocol.CleanupTaskFailureKeepsContainer | containerd/handle.go:90-92 | If task deletion fails, its error is returned and the container is never deleted. |
| Protocol.CleanupDeletesContainerAfterTask | containerd/handle.go:90-96 | If task deletion succeeds, the calls are task deletion then container deletion with snapshot cleanup, and the container deletion's error is the result. |
| Protocol.CleanupSucceedsIff | containerd/handle.go:89-97 | Cleanup returns nil iff both deletions succeed. The container deletion is issued iff task deletion succeeded. |
| Protocol.SignalTrace | containerd/handle.go:103-105 | The calls are exactly one Kill with the given signal, and its error is returned unchanged. |
| Protocol.WellOrderedConcat | containerd/handle.go:56-97 | Each ordering rule looks back only within one operation's events. So appending one log that keeps the rules to another keeps them. |
| Lifecycle.OpTrace | containerd/handle.go:56-105 | Every lifecycle call uses its answers from the front of the script and produces a log that keeps the ordering rules. |
| Lifecycle.DriveWellOrdered | containerd/handle.go:56-105 | For any sequence of lifecycle calls on one handle, the rules hold over the whole log. Every Start follows the startup grace sleep. Every Status query follows a sleep that follows a successful Kill. Every container deletion asks for snapshot cleanup and follows a successful task deletion. |
| Lifecycle.DriveConsumesInOrder | containerd/handle.go:56-105 | For any sequence of lifecycle calls, each runtime call gets the next answer: none is skipped and none is reused. |
| Containerd.Runtime.Start | containerd/handle.go:63 | One Start call: it logs the call with the next answer and returns that answer's error (which `run` drops). |
| Containerd.Runtime.Kill | containerd/handle.go:67 | One Kill call: it logs the call with the next answer and returns that answer's error. |
| Containerd.Runtime.Status | containerd/handle.go:76 | One status query: it logs the call and returns the next answer's status and error. |
| Containerd.Runtime.DeleteTask | containerd/handle.go:90 | One task deletion: it logs the call with the next answer and returns that answer's error. |
| Containerd.Runtime.Sleep | containerd/handle.go:61 | A sleep of the handle (here and at line 74): it logs `Slept(d)` and consumes no answer. |
| Containerd.Runtime.DeleteContainer | containerd/handle.go:93 | One container deletion, with the snapshot-cleanup flag recorded in the log. |

## Left out

- Locking with `sync.RWMutex` (containerd/handle.go:20, 34-35, 51-52, 57-58): it serves concurrency only. The model is sequential.
- `time.Sleep` (containerd/handle.go:61, 74): no time passes. The model records only a `Slept(d)` entry in the log, so that ordering can be stated.
- The logger call (containerd/handle.go:82): diagnostic output with no effect on control flow.
- `stats` (containerd/handle.go:99-101): it returns no stream and no error, and there is nothing to state about it.
- The `sig.(syscall.Signal)` assertion (containerd/handle.go:104): in Go it panics on another `os.Signal` implementation. Here it is the precondition `sig.Syscall?` of `Handle.TaskHandle.Signal`.
- The `NetworkOverride` field of nomad's status snapshot (containerd/handle.go:37-47 leaves it nil), and the sharing of the exit-result pointer between the handle and the snapshot: the model's snapshot holds a copy of the exit result.
- The exit status that `Task.Delete` returns next to its error: the handle discards it.
- The containerd and nomad libraries themselves: containerd is the abstract `Runtime`, and nomad's types are plain datatypes. The `context.Context` arguments are left out.
- The invariant that state Exited implies an exit result and a completion time: the handle never writes those fields, so it does not establish the invariant.
