/** Plain values shared by the handle and the runtime it drives. */
module Types {

  /** Go's nil-or-value: a pointer field or an `error` result. */
  datatype Option<+T> = None | Some(value: T)

  /** An error returned by the container runtime; only its identity matters here. */
  datatype Error = Error(message: string)

  /** A POSIX signal number (Go's `syscall.Signal` is an int). */
  type Signal = int

  /** The non-ignorable kill signal on Linux. */
  const SIGKILL: Signal := 9

  /** Go's `os.Signal` interface: either a `syscall.Signal` or some other implementation. */
  datatype OsSignal = Syscall(signo: Signal) | Foreign(name: string)

  /** A duration in nanoseconds, as Go's `time.Duration`. */
  type Duration = int

  const Second: Duration := 1_000_000_000

  /** A wall-clock timestamp, kept opaque. */
  type Timestamp = int

  /** containerd's process status as reported by `Task.Status`. */
  datatype ProcessStatus = Running | Created | Stopped | Paused | Pausing | Unknown

  /** nomad's orchestrator-visible task state. */
  datatype TaskState = TaskStateUnknown | TaskStateRunning | TaskStateExited

  /** nomad's exit result of a finished task. */
  datatype ExitResult = ExitResult(exitCode: int, signal: int, oomKilled: bool, err: Option<Error>)

  /** The part of nomad's task configuration the handle reads. */
  datatype TaskConfig = TaskConfig(id: string, name: string)

  /**
   * The status snapshot handed to the orchestrator: the fields of nomad's `drivers.TaskStatus`
   * that the handle sets. Its `NetworkOverride` is left nil by the handle and is not modelled;
   * the exit result is a value here, where Go shares the handle's pointer.
   */
  datatype TaskStatus = TaskStatus(
    id: string,
    name: string,
    state: TaskState,
    startedAt: Timestamp,
    completedAt: Timestamp,
    exitResult: Option<ExitResult>,
    driverAttributes: map<string, string>)

  /** The driver attribute under which the container's name is reported. */
  const ContainerNameKey: string := "containerName"
}
