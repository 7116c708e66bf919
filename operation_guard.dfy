/**
 * The single-operation guard of the plugin-installer commands: the
 * `OperationHolder` record (a non-blocking lock, the running thread and the
 * running operation's key) and the `async_operation` wrapper that starts a
 * guarded operation on a background thread, or hands the request to a
 * conflict callback when one is already running.
 *
 * Threads are not modelled; their start and their end are separate events,
 * each a method call on the holder. A thread is known by its identity.
 */
module OperationGuard {
  import opened Optional

  type OpKey = string

  /** Identity of a `threading.Thread` object. */
  type ThreadId = nat

  /** What an operation body or `Thread.start` can raise. */
  datatype Exception = OuterReturn | Error(name: string)

  /** How an operation body (`func(*args, **kwargs)`) ended. */
  datatype BodyEnd = Returned | Raised(exc: Exception)

  /** The outcome of creating and starting the background thread. */
  datatype Launch = Launched(thread: ThreadId) | LaunchRaised(exc: Exception)

  /** The arguments the conflict (skip) callback is called with. */
  datatype ConflictCall = ConflictCall(opKey: Option<OpKey>, opThread: Option<ThreadId>, newOpKey: OpKey)

  /** What the wrapped command does when it is called. */
  datatype StartResult =
    | Started(thread: ThreadId)      // returns the thread handle
    | Skipped(call: ConflictCall)    // calls the conflict callback once, returns None
    | LaunchFailed(exc: Exception)   // re-raises the launch failure

  /** The exception that escapes `run()` once its `finally` block is done:
      `OuterReturn` is swallowed, every other exception propagates. */
  function Escaping(end: BodyEnd): (e: Option<Exception>)
    ensures e == None <==> (end == Returned || end == Raised(OuterReturn))
    ensures end.Raised? && end.exc != OuterReturn ==> e == Some(end.exc)
  {
    match end
    case Returned => None
    case Raised(OuterReturn) => None
    case Raised(other) => Some(other)
  }

  class OperationHolder {
    /** Whether `lock` is held. */
    var locked: bool
    var thread: Option<ThreadId>
    var opKey: Option<OpKey>
    /** The thread currently executing `run()`, if any (the runtime's view,
        not a field of the holder). */
    ghost var body: Option<ThreadId>

    /** The slot as a fresh holder has it. */
    ghost predicate Idle()
      reads this
    {
      !locked && thread == None && opKey == None && body == None
    }

    /** The slot invariant: the lock is held exactly while an operation body
        runs, and then `thread` names that body's thread and `opKey` is set. */
    ghost predicate Valid()
      reads this
    {
      && (locked <==> body.Some?)
      && thread == body
      && (thread.Some? <==> opKey.Some?)
    }

    constructor ()
      ensures Idle() && Valid()
    {
      locked := false;
      thread := None;
      opKey := None;
      body := None;
    }

    /** `wrapped_func` with the thread start and the recording of `thread`
        and `op_key` taken as one atomic step. */
    method TryStart(key: OpKey, launch: Launch) returns (r: StartResult)
      requires Valid()
      modifies this
      ensures Valid()
      ensures old(locked) ==> r == Skipped(ConflictCall(old(opKey), old(thread), key)) && unchanged(this)
      ensures !old(locked) && launch.Launched? ==>
        && r == Started(launch.thread)
        && locked && body == Some(launch.thread) && thread == Some(launch.thread) && opKey == Some(key)
      ensures !old(locked) && launch.LaunchRaised? ==> r == LaunchFailed(launch.exc) && Idle()
    {
      var acquired := Acquire();
      if acquired {
        match launch
        case Launched(t) =>
          StartThread(t);
          Record(t, key);
          r := Started(t);
        case LaunchRaised(e) =>
          locked := false;
          r := LaunchFailed(e);
      } else {
        r := Skipped(ConflictCall(opKey, thread, key));
      }
    }

    /** `lock.acquire(blocking=False)`. */
    method Acquire() returns (acquired: bool)
      modifies this
      ensures acquired == !old(locked) && locked
      ensures thread == old(thread) && opKey == old(opKey) && body == old(body)
      ensures !acquired ==> unchanged(this)
    {
      acquired := !locked;
      locked := true;
    }

    /** `thread.start()`: the body begins to run on thread `t`. */
    method StartThread(t: ThreadId)
      requires locked && body == None
      modifies this
      ensures body == Some(t)
      ensures locked && thread == old(thread) && opKey == old(opKey)
    {
      body := Some(t);
    }

    /** Recording the started thread and its key in the holder. */
    method Record(t: ThreadId, key: OpKey)
      modifies this
      ensures thread == Some(t) && opKey == Some(key)
      ensures locked == old(locked) && body == old(body)
    {
      thread := Some(t);
      opKey := Some(key);
    }

    /** The end of `run()` on thread `t`: the `finally` block clears both
        fields and releases the lock, whatever way the body ended. */
    method Finish(t: ThreadId, end: BodyEnd) returns (escaped: Option<Exception>)
      requires locked && body == Some(t)
      modifies this
      ensures Idle() && Valid()
      ensures escaped == Escaping(end)
    {
      escaped := Escaping(end);
      thread := None;
      opKey := None;
      locked := false;
      body := None;
    }
  }

  /** The order the source writes: start the thread, then record it. When the
      body finishes before the recording runs, the lock is released while the
      slot still names the finished thread and its key. */
  method FastFinishAsWritten(key: OpKey, t: ThreadId, end: BodyEnd)
    returns (locked: bool, thread: Option<ThreadId>, opKey: Option<OpKey>)
    ensures !locked && thread == Some(t) && opKey == Some(key)
  {
    var h := new OperationHolder();
    var acquired := h.Acquire();
    h.StartThread(t);
    var _ := h.Finish(t, end);
    h.Record(t, key);
    locked, thread, opKey := h.locked, h.thread, h.opKey;
  }

  /** With start and record as one step (`TryStart`), the same fast body
      leaves the holder exactly as it was before the call. */
  method FastFinishAtomic(key: OpKey, t: ThreadId, end: BodyEnd)
    returns (locked: bool, thread: Option<ThreadId>, opKey: Option<OpKey>)
    ensures !locked && thread == None && opKey == None
  {
    var h := new OperationHolder();
    var r := h.TryStart(key, Launched(t));
    var _ := h.Finish(t, end);
    locked, thread, opKey := h.locked, h.thread, h.opKey;
  }

  /** The guard's observable behaviour over one lifetime: a start on an idle
      guard runs, a second start while it runs is skipped with the running
      key and thread, every way the body ends frees the guard for the next
      start, and a failed launch does not leave the lock held. */
  method GuardLifecycle(k1: OpKey, k2: OpKey, t1: ThreadId, t2: ThreadId, t3: ThreadId, end: BodyEnd, e: Exception)
    returns (first: StartResult, second: StartResult, escaped: Option<Exception>,
             third: StartResult, fourth: StartResult)
    ensures first == Started(t1)
    ensures second == Skipped(ConflictCall(Some(k1), Some(t1), k2))
    ensures escaped == None <==> (end == Returned || end == Raised(OuterReturn))
    ensures third == LaunchFailed(e)
    ensures fourth == Started(t3)
  {
    var h := new OperationHolder();
    first := h.TryStart(k1, Launched(t1));
    second := h.TryStart(k2, Launched(t2));
    escaped := h.Finish(t1, end);
    third := h.TryStart(k2, LaunchRaised(e));
    fourth := h.TryStart(k2, Launched(t3));
  }
}
