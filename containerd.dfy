/** The external container runtime, reduced to the calls the handle makes and the answers it gets. */
module Containerd {
  import opened Types

  /** A call the handle makes on its task or its container. */
  datatype Call =
    | Start
    | Kill(sig: Signal)
    | Status
    | TaskDelete
    | ContainerDelete(snapshotCleanup: bool)

  /** The runtime's answer to one call; `status` is read only by `Status`. */
  datatype Reply = Reply(err: Option<Error>, status: ProcessStatus)

  /** One entry of the call log: a runtime call with the answer it got, or a sleep of the caller. */
  datatype Event = Called(call: Call, reply: Reply) | Slept(d: Duration)

  /** The answers recorded in a log, in order. */
  function Answers(events: seq<Event>): seq<Reply>
  {
    if events == [] then [] else AnswerOf(events[0]) + Answers(events[1..])
  }

  /** The answer recorded by one event, if it is a call. */
  function AnswerOf(e: Event): seq<Reply>
  {
    if e.Called? then [e.reply] else []
  }

  lemma {:induction false} AnswersConcat(a: seq<Event>, b: seq<Event>)
    ensures Answers(a + b) == Answers(a) + Answers(b)
  {
    if a == [] {
      assert a + b == b;
    } else {
      assert (a + b)[0] == a[0];
      assert (a + b)[1..] == a[1..] + b;
      AnswersConcat(a[1..], b);
      assert Answers(a + b) == AnswerOf(a[0]) + Answers(a[1..] + b);
    }
  }

  /**
   * The task and container objects of one handle. Every call takes the next answer from
   * `pending`, an oracle supplied by whoever sets up the runtime, and is appended to `log`
   * with that answer.
   */
  class Runtime {
    var pending: seq<Reply>
    ghost var log: seq<Event>

    constructor (replies: seq<Reply>)
      ensures pending == replies && log == []
    {
      pending := replies;
      log := [];
    }

    method Answer(c: Call) returns (r: Reply)
      requires pending != []
      modifies this
      ensures r == old(pending)[0]
      ensures pending == old(pending)[1..]
      ensures log == old(log) + [Called(c, r)]
    {
      r := pending[0];
      pending := pending[1..];
      log := log + [Called(c, r)];
    }

    /** `Task.Start`. */
    method Start() returns (err: Option<Error>)
      requires pending != []
      modifies this
      ensures err == old(pending)[0].err
      ensures pending == old(pending)[1..]
      ensures log == old(log) + [Called(Call.Start, old(pending)[0])]
    {
      var r := Answer(Call.Start);
      err := r.err;
    }

    /** `Task.Kill(sig)`. */
    method Kill(sig: Signal) returns (err: Option<Error>)
      requires pending != []
      modifies this
      ensures err == old(pending)[0].err
      ensures pending == old(pending)[1..]
      ensures log == old(log) + [Called(Call.Kill(sig), old(pending)[0])]
    {
      var r := Answer(Call.Kill(sig));
      err := r.err;
    }

    /** `Task.Status`: the reported process status and the call's error. */
    method Status() returns (status: ProcessStatus, err: Option<Error>)
      requires pending != []
      modifies this
      ensures status == old(pending)[0].status && err == old(pending)[0].err
      ensures pending == old(pending)[1..]
      ensures log == old(log) + [Called(Call.Status, old(pending)[0])]
    {
      var r := Answer(Call.Status);
      status, err := r.status, r.err;
    }

    /** `Task.Delete`; the exit status it also returns is not modelled. */
    method DeleteTask() returns (err: Option<Error>)
      requires pending != []
      modifies this
      ensures err == old(pending)[0].err
      ensures pending == old(pending)[1..]
      ensures log == old(log) + [Called(TaskDelete, old(pending)[0])]
    {
      var r := Answer(TaskDelete);
      err := r.err;
    }

    /** `Container.Delete`, with or without `WithSnapshotCleanup`. */
    method DeleteContainer(snapshotCleanup: bool) returns (err: Option<Error>)
      requires pending != []
      modifies this
      ensures err == old(pending)[0].err
      ensures pending == old(pending)[1..]
      ensures log == old(log) + [Called(ContainerDelete(snapshotCleanup), old(pending)[0])]
    {
      var r := Answer(ContainerDelete(snapshotCleanup));
      err := r.err;
    }

    /** `time.Sleep(d)` of the caller: no answer is consumed, only its place in the log is kept. */
    method Sleep(d: Duration)
      modifies this
      ensures pending == old(pending)
      ensures log == old(log) + [Slept(d)]
    {
      log := log + [Slept(d)];
    }
  }
}
