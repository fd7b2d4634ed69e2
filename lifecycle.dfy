/**
 * Any sequence of lifecycle calls the plugin makes on one handle, and what it adds to the
 * runtime's log: the ordering rules hold over the whole log and answers are used in order.
 */
module Lifecycle {
  import opened Types
  import opened Containerd
  import opened Protocol

  /** One lifecycle call on the handle; `SendSignal` carries a signal the runtime understands. */
  datatype Op = Run | Shutdown(timeout: Duration, sig: Signal) | Cleanup | SendSignal(sig: Signal)

  predicate OpFed(op: Op, rs: seq<Reply>)
  {
    match op
    case Run => |rs| >= 1
    case Shutdown(_, _) => ShutdownFed(rs)
    case Cleanup => CleanupFed(rs)
    case SendSignal(_) => |rs| >= 1
  }

  function OpTrace(op: Op, rs: seq<Reply>): (t: Trace)
    requires OpFed(op, rs)
    ensures ConsumesFrom(t.events, rs) && WellOrdered(t.events)
  {
    match op
    case Run => RunTrace(rs)
    case Shutdown(timeout, sig) => ShutdownTrace(timeout, sig, rs)
    case Cleanup => CleanupTrace(rs)
    case SendSignal(sig) => SignalTrace(sig, rs)
  }

  /** The answers left after an operation has taken its own. */
  function Rest(op: Op, rs: seq<Reply>): seq<Reply>
    requires OpFed(op, rs)
  {
    rs[Used(OpTrace(op, rs))..]
  }

  /** The runtime has an answer for every call the whole sequence makes. */
  predicate DriveFed(ops: seq<Op>, rs: seq<Reply>)
    decreases |ops|
  {
    ops == [] || (OpFed(ops[0], rs) && DriveFed(ops[1..], Rest(ops[0], rs)))
  }

  /** The log the operations append, one after another, each taking the answers left by the previous. */
  function Drive(ops: seq<Op>, rs: seq<Reply>): seq<Event>
    requires DriveFed(ops, rs)
    decreases |ops|
  {
    if ops == [] then [] else OpTrace(ops[0], rs).events + Drive(ops[1..], Rest(ops[0], rs))
  }

  /** However the calls are interleaved, the whole log keeps the ordering rules. */
  lemma {:induction false} DriveWellOrdered(ops: seq<Op>, rs: seq<Reply>)
    requires DriveFed(ops, rs)
    ensures WellOrdered(Drive(ops, rs))
  {
    if ops != [] {
      DriveWellOrdered(ops[1..], Rest(ops[0], rs));
      WellOrderedConcat(OpTrace(ops[0], rs).events, Drive(ops[1..], Rest(ops[0], rs)));
    }
  }

  /** The log's answers are the runtime's answers, in order, none skipped and none reused. */
  lemma {:induction false} DriveConsumesInOrder(ops: seq<Op>, rs: seq<Reply>)
    requires DriveFed(ops, rs)
    ensures ConsumesFrom(Drive(ops, rs), rs)
  {
    if ops != [] {
      var head := OpTrace(ops[0], rs).events;
      var n := Used(OpTrace(ops[0], rs));
      DriveConsumesInOrder(ops[1..], Rest(ops[0], rs));
      AnswersConcat(head, Drive(ops[1..], Rest(ops[0], rs)));
      assert rs == rs[..n] + rs[n..];
    }
  }
}
