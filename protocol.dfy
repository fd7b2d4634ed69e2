/**
 * What each lifecycle operation of the task handle does to the runtime, as a function of the
 * runtime's answers: the events it appends to the call log and the error it returns.
 */
module Protocol {
  import opened Types
  import opened Containerd

  /** The delay `run` waits before starting the task, so that the exit watcher is in place. */
  const StartupGrace: Duration := 5 * Second

  /** What an operation did: the events it logged and the error it returned (None is Go's nil). */
  datatype Trace = Trace(events: seq<Event>, err: Option<Error>)

  /** `events` took its answers from the front of `rs`, one per call, in order. */
  predicate ConsumesFrom(events: seq<Event>, rs: seq<Reply>)
  {
    Answers(events) <= rs
  }

  /** The number of answers an operation took. */
  function Used(t: Trace): nat
  {
    |Answers(t.events)|
  }

  /** The runtime calls of a log, without their answers and without the sleeps. */
  function Calls(events: seq<Event>): seq<Call>
  {
    if events == [] then [] else CallOf(events[0]) + Calls(events[1..])
  }

  function CallOf(e: Event): seq<Call>
  {
    if e.Called? then [e.call] else []
  }

  /** The signals sent by the Kill calls of a log, in order. */
  function Kills(events: seq<Event>): seq<Signal>
  {
    if events == [] then [] else KillOf(events[0]) + Kills(events[1..])
  }

  function KillOf(e: Event): seq<Signal>
  {
    if e.Called? && e.call.Kill? then [e.call.sig] else []
  }

  /**
   * The ordering rules the handle keeps, at position i of a log: a Start comes right after the
   * startup grace sleep; a Status query comes right after a sleep that follows a successful Kill;
   * a container deletion asks for snapshot cleanup and comes right after a
   * successful task deletion.
   */
  predicate RuleAt(log: seq<Event>, i: int)
    requires 0 <= i < |log|
  {
    match log[i]
    case Called(Start, _) =>
      i >= 1 && log[i - 1] == Slept(StartupGrace)
    case Called(Status, _) =>
      i >= 2 && log[i - 1].Slept? && log[i - 2].Called? && log[i - 2].call.Kill? && log[i - 2].reply.err == None
    case Called(ContainerDelete(snapshotCleanup), _) =>
      snapshotCleanup && i >= 1 && log[i - 1].Called? && log[i - 1].call == TaskDelete && log[i - 1].reply.err == None
    case _ => true
  }

  predicate WellOrdered(log: seq<Event>)
  {
    forall i :: 0 <= i < |log| ==> RuleAt(log, i)
  }

  /**
   * A rule that holds in a prefix still holds once more events are appended. Stated apart so
   * that WellOrderedConcat instantiates it one index at a time.
   */
  lemma RuleAtPrefix(a: seq<Event>, b: seq<Event>, i: int)
    requires 0 <= i < |a| && RuleAt(a, i)
    ensures RuleAt(a + b, i)
  {
  }

  /** A rule that holds in a suffix still holds once events are put in front of it. */
  lemma RuleAtSuffix(a: seq<Event>, b: seq<Event>, j: int)
    requires 0 <= j < |b| && RuleAt(b, j)
    ensures RuleAt(a + b, |a| + j)
  {
  }

  /** The rules look back only within one operation, so appending a well-ordered log keeps them. */
  lemma WellOrderedConcat(a: seq<Event>, b: seq<Event>)
    requires WellOrdered(a) && WellOrdered(b)
    ensures WellOrdered(a + b)
  {
    forall i | 0 <= i < |a + b|
      ensures RuleAt(a + b, i)
    {
      if i < |a| {
        RuleAtPrefix(a, b, i);
      } else {
        RuleAtSuffix(a, b, i - |a|);
      }
    }
  }

  lemma {:induction false} CallsConcat(a: seq<Event>, b: seq<Event>)
    ensures Calls(a + b) == Calls(a) + Calls(b)
  {
    if a == [] {
      assert a + b == b;
    } else {
      assert (a + b)[0] == a[0];
      assert (a + b)[1..] == a[1..] + b;
      CallsConcat(a[1..], b);
      assert Calls(a + b) == CallOf(a[0]) + Calls(a[1..] + b);
    }
  }

  lemma {:induction false} KillsConcat(a: seq<Event>, b: seq<Event>)
    ensures Kills(a + b) == Kills(a) + Kills(b)
  {
    if a == [] {
      assert a + b == b;
    } else {
      assert (a + b)[0] == a[0];
      assert (a + b)[1..] == a[1..] + b;
      KillsConcat(a[1..], b);
      assert Kills(a + b) == KillOf(a[0]) + Kills(a[1..] + b);
    }
  }

  /** Calls, Kills and Answers of a one-event log: the base case the longer reads build on. */
  lemma ReadOne(e: Event)
    ensures Calls([e]) == CallOf(e) && Kills([e]) == KillOf(e) && Answers([e]) == AnswerOf(e)
  {
  }

  /** Calls, Kills and Answers of a log extended by one event. */
  lemma ReadAppend(log: seq<Event>, e: Event)
    ensures Calls(log + [e]) == Calls(log) + CallOf(e)
    ensures Kills(log + [e]) == Kills(log) + KillOf(e)
    ensures Answers(log + [e]) == Answers(log) + AnswerOf(e)
  {
    ReadOne(e);
    CallsConcat(log, [e]);
    KillsConcat(log, [e]);
    AnswersConcat(log, [e]);
  }

  /** Calls, Kills and Answers of a two-event log, read event by event. */
  lemma Read2(e0: Event, e1: Event)
    ensures Calls([e0, e1]) == CallOf(e0) + CallOf(e1)
    ensures Kills([e0, e1]) == KillOf(e0) + KillOf(e1)
    ensures Answers([e0, e1]) == AnswerOf(e0) + AnswerOf(e1)
  {
    ReadOne(e0);
    ReadAppend([e0], e1);
    assert [e0] + [e1] == [e0, e1];
  }

  /** Calls, Kills and Answers of a three-event log, read event by event. */
  lemma Read3(e0: Event, e1: Event, e2: Event)
    ensures Calls([e0, e1, e2]) == CallOf(e0) + CallOf(e1) + CallOf(e2)
    ensures Kills([e0, e1, e2]) == KillOf(e0) + KillOf(e1) + KillOf(e2)
    ensures Answers([e0, e1, e2]) == AnswerOf(e0) + AnswerOf(e1) + AnswerOf(e2)
  {
    Read2(e0, e1);
    ReadAppend([e0, e1], e2);
    assert [e0, e1] + [e2] == [e0, e1, e2];
  }

  // ---- run ----

  /** `run`: sleep for the startup grace, then start the task; Start's error is dropped. */
  function RunTrace(rs: seq<Reply>): (t: Trace)
    requires |rs| >= 1
    ensures ConsumesFrom(t.events, rs) && Used(t) == 1
    ensures WellOrdered(t.events)
    ensures Calls(t.events) == [Start] && t.events[0] == Slept(StartupGrace)
    ensures t.err == None
  {
    Read2(Slept(StartupGrace), Called(Start, rs[0]));
    Trace([Slept(StartupGrace), Called(Start, rs[0])], None)
  }

  // ---- shutdown ----

  /** The runtime has an answer for every call `shutdown` makes on the path those answers select. */
  predicate ShutdownFed(rs: seq<Reply>)
  {
    && |rs| >= 1
    && (rs[0].err == None ==> |rs| >= 2 && (rs[1].err == None && rs[1].status == Running ==> |rs| >= 3))
  }

  /**
   * `shutdown(timeout, sig)`: send sig; if that fails return its error. Otherwise sleep for timeout
   * and query the status; if the query fails return its error; if the task is no longer running
   * return nil; otherwise send SIGKILL and return its result.
   */
  function ShutdownTrace(timeout: Duration, sig: Signal, rs: seq<Reply>): (t: Trace)
    requires ShutdownFed(rs)
    ensures ConsumesFrom(t.events, rs) && 1 <= Used(t) <= 3
    ensures WellOrdered(t.events)
  {
    var kill := Called(Kill(sig), rs[0]);
    ReadOne(kill);
    if rs[0].err != None then
      Trace([kill], rs[0].err)
    else
      var status := Called(Status, rs[1]);
      var queried := [kill, Slept(timeout), status];
      Read3(kill, Slept(timeout), status);
      if rs[1].err != None then
        Trace(queried, rs[1].err)
      else if rs[1].status != Running then
        Trace(queried, None)
      else
        var escalate := Called(Kill(SIGKILL), rs[2]);
        ReadAppend(queried, escalate);
        WellOrderedConcat(queried, [escalate]);
        Trace(queried + [escalate], rs[2].err)
  }

  lemma ShutdownKillFailureAborts(timeout: Duration, sig: Signal, rs: seq<Reply>)
    requires ShutdownFed(rs) && rs[0].err != None
    ensures ShutdownTrace(timeout, sig, rs).err == rs[0].err
    ensures Calls(ShutdownTrace(timeout, sig, rs).events) == [Kill(sig)]
    ensures ShutdownTrace(timeout, sig, rs).events == [Called(Kill(sig), rs[0])]
  {
    ReadOne(Called(Kill(sig), rs[0]));
  }

  lemma ShutdownStatusFailureAborts(timeout: Duration, sig: Signal, rs: seq<Reply>)
    requires ShutdownFed(rs) && rs[0].err == None && rs[1].err != None
    ensures ShutdownTrace(timeout, sig, rs).err == rs[1].err
    ensures Calls(ShutdownTrace(timeout, sig, rs).events) == [Kill(sig), Status]
    ensures ShutdownTrace(timeout, sig, rs).events ==
      [Called(Kill(sig), rs[0]), Slept(timeout), Called(Status, rs[1])]
  {
    Read3(Called(Kill(sig), rs[0]), Slept(timeout), Called(Status, rs[1]));
  }

  lemma ShutdownStoppedIsSuccess(timeout: Duration, sig: Signal, rs: seq<Reply>)
    requires ShutdownFed(rs) && rs[0].err == None && rs[1].err == None && rs[1].status != Running
    ensures ShutdownTrace(timeout, sig, rs).err == None
    ensures Kills(ShutdownTrace(timeout, sig, rs).events) == [sig]
    ensures Calls(ShutdownTrace(timeout, sig, rs).events) == [Kill(sig), Status]
  {
    Read3(Called(Kill(sig), rs[0]), Slept(timeout), Called(Status, rs[1]));
  }

  lemma ShutdownEscalates(timeout: Duration, sig: Signal, rs: seq<Reply>)
    requires ShutdownFed(rs) && rs[0].err == None && rs[1].err == None && rs[1].status == Running
    ensures ShutdownTrace(timeout, sig, rs).err == rs[2].err
    ensures Calls(ShutdownTrace(timeout, sig, rs).events) == [Kill(sig), Status, Kill(SIGKILL)]
    ensures ShutdownTrace(timeout, sig, rs).events ==
      [Called(Kill(sig), rs[0]), Slept(timeout), Called(Status, rs[1]), Called(Kill(SIGKILL), rs[2])]
  {
    Read3(Called(Kill(sig), rs[0]), Slept(timeout), Called(Status, rs[1]));
    ReadAppend([Called(Kill(sig), rs[0]), Slept(timeout), Called(Status, rs[1])], Called(Kill(SIGKILL), rs[2]));
  }

  /** SIGKILL follows the caller's signal exactly when the status query succeeded and said Running. */
  lemma ShutdownEscalatesIff(timeout: Duration, sig: Signal, rs: seq<Reply>)
    requires ShutdownFed(rs)
    ensures Kills(ShutdownTrace(timeout, sig, rs).events) ==
      if rs[0].err == None && rs[1].err == None && rs[1].status == Running then [sig, SIGKILL] else [sig]
  {
    if rs[0].err == None {
      Read3(Called(Kill(sig), rs[0]), Slept(timeout), Called(Status, rs[1]));
      if rs[1].err == None && rs[1].status == Running {
        ReadAppend([Called(Kill(sig), rs[0]), Slept(timeout), Called(Status, rs[1])], Called(Kill(SIGKILL), rs[2]));
      }
    }
  }

  /** The status is queried exactly when the first signal was delivered, and only after the timeout. */
  lemma ShutdownQueriesAfterTimeout(timeout: Duration, sig: Signal, rs: seq<Reply>)
    requires ShutdownFed(rs)
    ensures var t := ShutdownTrace(timeout, sig, rs);
      (Status in Calls(t.events) <==> rs[0].err == None) &&
      (rs[0].err == None ==> t.events[1] == Slept(timeout) && t.events[2].call == Status)
  {
    if rs[0].err == None {
      Read3(Called(Kill(sig), rs[0]), Slept(timeout), Called(Status, rs[1]));
      if rs[1].err == None && rs[1].status == Running {
        ReadAppend([Called(Kill(sig), rs[0]), Slept(timeout), Called(Status, rs[1])], Called(Kill(SIGKILL), rs[2]));
      }
    }
  }

  // ---- cleanup ----

  predicate CleanupFed(rs: seq<Reply>)
  {
    |rs| >= 1 && (rs[0].err == None ==> |rs| >= 2)
  }

  /**
   * `cleanup`: delete the task; if that fails return its error; otherwise delete the container
   * with snapshot cleanup and return that result.
   */
  function CleanupTrace(rs: seq<Reply>): (t: Trace)
    requires CleanupFed(rs)
    ensures ConsumesFrom(t.events, rs) && 1 <= Used(t) <= 2
    ensures WellOrdered(t.events)
  {
    var deleteTask := Called(TaskDelete, rs[0]);
    if rs[0].err != None then
      ReadOne(deleteTask);
      Trace([deleteTask], rs[0].err)
    else
      Read2(deleteTask, Called(ContainerDelete(true), rs[1]));
      Trace([deleteTask, Called(ContainerDelete(true), rs[1])], rs[1].err)
  }

  lemma CleanupTaskFailureKeepsContainer(rs: seq<Reply>)
    requires CleanupFed(rs) && rs[0].err != None
    ensures CleanupTrace(rs).err == rs[0].err
    ensures Calls(CleanupTrace(rs).events) == [TaskDelete]
  {
    ReadOne(Called(TaskDelete, rs[0]));
  }

  lemma CleanupDeletesContainerAfterTask(rs: seq<Reply>)
    requires CleanupFed(rs) && rs[0].err == None
    ensures CleanupTrace(rs).err == rs[1].err
    ensures Calls(CleanupTrace(rs).events) == [TaskDelete, ContainerDelete(true)]
  {
    Read2(Called(TaskDelete, rs[0]), Called(ContainerDelete(true), rs[1]));
  }

  /** Success means both deletions succeeded; the container is deleted only if the task was. */
  lemma CleanupSucceedsIff(rs: seq<Reply>)
    requires CleanupFed(rs)
    ensures CleanupTrace(rs).err == None <==> rs[0].err == None && rs[1].err == None
    ensures ContainerDelete(true) in Calls(CleanupTrace(rs).events) <==> rs[0].err == None
  {
    if rs[0].err == None {
      Read2(Called(TaskDelete, rs[0]), Called(ContainerDelete(true), rs[1]));
    } else {
      ReadOne(Called(TaskDelete, rs[0]));
    }
  }

  // ---- signal ----

  /** `signal(sig)`: one Kill with sig, whose error is returned unchanged. */
  function SignalTrace(sig: Signal, rs: seq<Reply>): (t: Trace)
    requires |rs| >= 1
    ensures ConsumesFrom(t.events, rs) && Used(t) == 1
    ensures WellOrdered(t.events)
    ensures Calls(t.events) == [Kill(sig)] && t.err == rs[0].err
  {
    ReadOne(Called(Kill(sig), rs[0]));
    Trace([Called(Kill(sig), rs[0])], rs[0].err)
  }
}
