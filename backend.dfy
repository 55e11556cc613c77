/** The counter backend (the perf_event interface behind `perfcnt`), seen only
    through the calls the counter group makes to it. Whether an event can be
    opened for a pid is a fixed property of the machine; whether a reset, start,
    stop or read succeeds, and what a read returns, is left open. Every call is
    recorded, with its outcome, in a ghost trace, together with the point at
    which the caller's measured closure runs. */
module Backend {
  import opened Events

  datatype Option<T> = None | Some(value: T)

  /** A handle on one open kernel counter: a unique id, the pid it observes
      and the event it counts. */
  datatype Counter = Counter(id: nat, pid: i32, event: Desc)

  /** The control operations on an open counter. */
  datatype Action = Reset | Start | Stop

  /** One observable step at the boundary of the counter group. */
  datatype Call =
    | Create(pid: i32, event: Desc, ok: bool)      // counter creation (`finish()`)
    | Control(action: Action, counter: Counter, ok: bool)
    | ReadValue(counter: Counter, value: Option<u64>)
    | RunWork                                      // the caller's closure runs

  class Machine {
    /** Which (pid, event) pairs this machine and kernel can open. */
    const supported: (i32, Desc) -> bool
    /** The id the next opened counter gets. */
    var nextId: nat
    /** Every call issued so far, in order. */
    ghost var trace: seq<Call>

    constructor (supported: (i32, Desc) -> bool)
      ensures this.supported == supported
      ensures nextId == 0 && trace == []
    {
      this.supported := supported;
      nextId := 0;
      trace := [];
    }

    /** Opens a counter for `event` on `pid`; fails when the pair is not supported. */
    method Open(pid: i32, event: Desc) returns (r: Option<Counter>)
      modifies this
      ensures r == if supported(pid, event) then Some(Counter(old(nextId), pid, event)) else None
      ensures nextId == if r.Some? then old(nextId) + 1 else old(nextId)
      ensures trace == old(trace) + [Create(pid, event, r.Some?)]
    {
      if supported(pid, event) {
        r := Some(Counter(nextId, pid, event));
        nextId := nextId + 1;
      } else {
        r := None;
      }
      trace := trace + [Create(pid, event, r.Some?)];
    }

    /** Resets, starts or stops `c`; the outcome is the kernel's. */
    method Apply(action: Action, c: Counter) returns (ok: bool)
      modifies this
      ensures nextId == old(nextId)
      ensures trace == old(trace) + [Control(action, c, ok)]
    {
      ok :| true;
      trace := trace + [Control(action, c, ok)];
    }

    /** Reads the current value of `c`, or fails. */
    method Read(c: Counter) returns (value: Option<u64>)
      modifies this
      ensures nextId == old(nextId)
      ensures trace == old(trace) + [ReadValue(c, value)]
    {
      value :| true;
      trace := trace + [ReadValue(c, value)];
    }

    /** Runs the caller's closure, once, and hands back its result; the closure
        is not a backend call, it is recorded only to place it in the trace. */
    method Run<R>(work: () -> R) returns (r: R)
      modifies this
      ensures r == work()
      ensures nextId == old(nextId)
      ensures trace == old(trace) + [RunWork]
    {
      r := work();
      trace := trace + [RunWork];
    }
  }
}
