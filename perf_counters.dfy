/** The counter group: an ordered list of named counters bound to one pid,
    built by registration methods and driven through one measurement around
    a caller's closure. */
module PerfCounterGroup {
  import opened Events
  import opened Backend
  import opened Trace

  /** One registered counter and the name it was registered under. */
  type Entry = (string, Counter)

  /** The entries registered for `ds`, in order, when their counters are given
      the ids `first`, `first + 1`, ... */
  function Entries(pid: i32, first: nat, ds: seq<Desc>): seq<Entry>
  {
    if ds == [] then []
    else
      var n := |ds| - 1;
      Entries(pid, first, ds[..n]) + [(EventName(ds[n]), Counter(first + n, pid, ds[n]))]
  }

  /** Entry `k` is named after descriptor `k` and holds the counter with id
      `first + k` for it. */
  lemma {:induction false} EntriesAt(pid: i32, first: nat, ds: seq<Desc>)
    ensures var es := Entries(pid, first, ds);
      && |es| == |ds|
      && forall k | 0 <= k < |ds| :: es[k].0 == EventName(ds[k]) && es[k].1 == Counter(first + k, pid, ds[k])
  {
    if ds != [] {
      EntriesAt(pid, first, ds[..|ds| - 1]);
    }
  }

  lemma EntriesSnoc(pid: i32, first: nat, ds: seq<Desc>, d: Desc)
    ensures Entries(pid, first, ds + [d]) == Entries(pid, first, ds) + [(EventName(d), Counter(first + |ds|, pid, d))]
  {
    assert (ds + [d])[..|ds|] == ds;
  }

  /** The events of a list of entries, in order. */
  function EventsOf(cs: seq<Entry>): seq<Desc>
  {
    seq(|cs|, k requires 0 <= k < |cs| => cs[k].1.event)
  }

  /** The counter handles of a list of entries, in order. */
  function HandlesOf(cs: seq<Entry>): seq<Counter>
  {
    seq(|cs|, k requires 0 <= k < |cs| => cs[k].1)
  }

  /** The events of a concatenation are those of each part. */
  lemma EventsOfAppend(a: seq<Entry>, b: seq<Entry>)
    ensures EventsOf(a + b) == EventsOf(a) + EventsOf(b)
  {
  }

  /** The entries registered for `ds` count exactly the events of `ds`. */
  lemma EntriesEvents(pid: i32, first: nat, ds: seq<Desc>)
    ensures EventsOf(Entries(pid, first, ds)) == ds
  {
    EntriesAt(pid, first, ds);
  }

  /** The group's invariant: every entry is named after its event, observes
      the group's pid, and holds its own counter (distinct ids, all handed out
      by the backend already). */
  ghost predicate WellFormed(cs: seq<Entry>, pid: i32, nextId: nat)
  {
    && (forall i | 0 <= i < |cs| ::
          cs[i].0 == EventName(cs[i].1.event) && cs[i].1.pid == pid && cs[i].1.id < nextId)
    && (forall i, j | 0 <= i < j < |cs| :: cs[i].1.id != cs[j].1.id)
  }

  /** Appending the entries of freshly created counters keeps the invariant. */
  lemma WellFormedAppend(cs: seq<Entry>, pid: i32, nextId: nat, ds: seq<Desc>)
    requires WellFormed(cs, pid, nextId)
    ensures WellFormed(cs + Entries(pid, nextId, ds), pid, nextId + |ds|)
  {
    var all := cs + Entries(pid, nextId, ds);
    EntriesAt(pid, nextId, ds);
    forall i, j | 0 <= i < j < |all| ensures all[i].1.id != all[j].1.id {
      if j >= |cs| {
        assert all[j].1.id == nextId + (j - |cs|);
        assert all[i].1.id < nextId || all[i].1.id == nextId + (i - |cs|);
      }
    }
  }

  /** Handing out more ids keeps the invariant. */
  lemma WellFormedGrow(cs: seq<Entry>, pid: i32, nextId: nat, nextId': nat)
    requires WellFormed(cs, pid, nextId) && nextId <= nextId'
    ensures WellFormed(cs, pid, nextId')
  {
  }

  /** Registering the same event twice gives two entries with different
      counters: entries are never merged. */
  lemma EntriesNeverMerged(cs: seq<Entry>, pid: i32, nextId: nat, i: nat, j: nat)
    requires WellFormed(cs, pid, nextId)
    requires i < j < |cs|
    ensures cs[i].1 != cs[j].1
  {
  }

  /** The first `k` descriptors of `m` have been tried, starting from the
      list `c0`, the next id `first` and the trace `t0`, giving the list `cs`,
      the next id `n` and the trace `tr`: the supported ones are appended, in
      order, and every attempt is recorded. */
  ghost predicate RegisteredUpTo(supported: (i32, Desc) -> bool, pid: i32, c0: seq<Entry>, t0: seq<Call>, first: nat,
                                 m: seq<Desc>, k: nat, cs: seq<Entry>, n: nat, tr: seq<Call>)
  {
    && k <= |m|
    && cs == c0 + Entries(pid, first, Accepted(supported, pid, m[..k]))
    && n == first + |Accepted(supported, pid, m[..k])|
    && tr == t0 + CreateCalls(supported, pid, m[..k])
  }

  /** Trying descriptor `k` next appends its entry when it is supported, and
      records the attempt either way. */
  lemma RegisteredStep(supported: (i32, Desc) -> bool, pid: i32, c0: seq<Entry>, t0: seq<Call>, first: nat,
                       m: seq<Desc>, k: nat, cs: seq<Entry>, n: nat, tr: seq<Call>)
    requires k < |m| && RegisteredUpTo(supported, pid, c0, t0, first, m, k, cs, n, tr)
    ensures var d := m[k];
      RegisteredUpTo(supported, pid, c0, t0, first, m, k + 1,
                     if supported(pid, d) then cs + [(EventName(d), Counter(n, pid, d))] else cs,
                     if supported(pid, d) then n + 1 else n,
                     tr + [Create(pid, d, supported(pid, d))])
  {
    var acc := Accepted(supported, pid, m[..k]);
    StepRegistration(supported, pid, m, k);
    if supported(pid, m[k]) {
      EntriesSnoc(pid, first, acc, m[k]);
      assert Accepted(supported, pid, m[..k + 1]) == acc + [m[k]];
    } else {
      assert Accepted(supported, pid, m[..k + 1]) == acc;
    }
  }

  /** The descriptors of a list of hardware events. */
  function HardwareDescs(events: seq<HardwareEvent>): seq<Desc>
  {
    seq(|events|, k requires 0 <= k < |events| => Hardware(events[k]))
  }

  /** The descriptors of a list of software events. */
  function SoftwareDescs(events: seq<SoftwareEvent>): seq<Desc>
  {
    seq(|events|, k requires 0 <= k < |events| => Software(events[k]))
  }

  class PerfCounters {
    /** The process every counter of the group observes. */
    const pid: i32
    /** The registered counters, in registration order. */
    var counters: seq<Entry>
    /** The backend the counters are created on. */
    const machine: Machine

    ghost predicate Valid()
      reads this, machine
    {
      WellFormed(counters, pid, machine.nextId)
    }

    /** The events of the registered counters, in registration order. */
    ghost function Events(): seq<Desc>
      reads this
    {
      EventsOf(counters)
    }

    /** The registered counter handles, in registration order. */
    ghost function Handles(): seq<Counter>
      reads this
    {
      HandlesOf(counters)
    }

    /** `for_pid`: an empty group bound to `pid`. */
    constructor ForPid(pid: i32, machine: Machine)
      ensures this.pid == pid && counters == [] && this.machine == machine
      ensures Valid()
    {
      this.pid := pid;
      counters := [];
      this.machine := machine;
    }

    /** Opens a counter for every descriptor of `ds`, in order, and appends them
        all; the first descriptor that cannot be created aborts the registration
        (the source panics) and `failed` is its position, the list unchanged. */
    method RegisterAllOrPanic(ds: seq<Desc>) returns (failed: Option<nat>)
      requires Valid()
      modifies this, machine
      ensures Valid()
      ensures failed.None? <==> AllSupported(machine.supported, pid, ds)
      ensures failed.None? ==> counters == old(counters) + Entries(pid, old(machine.nextId), ds)
      ensures failed.None? ==> machine.trace == old(machine.trace) + CreateCalls(machine.supported, pid, ds)
      ensures failed.Some? ==>
        && failed.value < |ds|
        && !machine.supported(pid, ds[failed.value])
        && AllSupported(machine.supported, pid, ds[..failed.value])
        && counters == old(counters)
        && machine.trace == old(machine.trace) + CreateCalls(machine.supported, pid, ds[..failed.value + 1])
    {
      ghost var first := machine.nextId;
      var created;
      created, failed := OpenAll(ds);
      if failed.None? {
        WellFormedAppend(counters, pid, first, ds);
        counters := counters + created;
      } else {
        WellFormedGrow(counters, pid, first, machine.nextId);
      }
    }

    /** The loop of the registration: opens a counter for each descriptor in
        order, stopping at the first one that cannot be created; returns the
        entries of the counters opened when none failed. */
    method OpenAll(ds: seq<Desc>) returns (created: seq<Entry>, failed: Option<nat>)
      modifies machine
      ensures failed.None? <==> AllSupported(machine.supported, pid, ds)
      ensures failed.None? ==>
        && created == Entries(pid, old(machine.nextId), ds)
        && machine.nextId == old(machine.nextId) + |ds|
        && machine.trace == old(machine.trace) + CreateCalls(machine.supported, pid, ds)
      ensures failed.Some? ==>
        && failed.value < |ds|
        && !machine.supported(pid, ds[failed.value])
        && AllSupported(machine.supported, pid, ds[..failed.value])
        && machine.nextId == old(machine.nextId) + failed.value
        && machine.trace == old(machine.trace) + CreateCalls(machine.supported, pid, ds[..failed.value + 1])
    {
      ghost var first := machine.nextId;
      ghost var done: seq<Desc> := [];
      created := [];
      for i := 0 to |ds|
        invariant done == ds[..i]
        invariant OpenedPrefix(old(machine.trace), first, done, created)
      {
        var ok;
        created, ok := OpenNext(old(machine.trace), first, done, created, ds[i]);
        if !ok {
          assert done + [ds[i]] == ds[..i + 1];
          failed := Some(i);
          return;
        }
        done := done + [ds[i]];
      }
      assert done == ds;
      failed := None;
    }

    /** The descriptors `done` have all been opened, in order, since the
        trace was `t0` and the next id `first`; `created` holds their entries. */
    ghost predicate OpenedPrefix(t0: seq<Call>, first: nat, done: seq<Desc>, created: seq<Entry>)
      reads machine
    {
      && machine.nextId == first + |done|
      && AllSupported(machine.supported, pid, done)
      && created == Entries(pid, first, done)
      && machine.trace == t0 + CreateCalls(machine.supported, pid, done)
    }

    /** One step of the registration loop: opens a counter for `d` and, when
        that succeeds, appends its entry. */
    method OpenNext(ghost t0: seq<Call>, ghost first: nat, ghost done: seq<Desc>, created: seq<Entry>, d: Desc)
      returns (created': seq<Entry>, ok: bool)
      requires OpenedPrefix(t0, first, done, created)
      modifies machine
      ensures ok <==> machine.supported(pid, d)
      ensures ok ==> OpenedPrefix(t0, first, done + [d], created')
      ensures !ok ==>
        && machine.nextId == first + |done|
        && machine.trace == t0 + CreateCalls(machine.supported, pid, done + [d])
    {
      var r := machine.Open(pid, d);
      CreateCallsSnoc(machine.supported, pid, done, d);
      ok := r.Some?;
      created' := created;
      if ok {
        assert r.value == Counter(first + |done|, pid, d);
        EntriesSnoc(pid, first, done, d);
        created' := created + [(EventName(d), r.value)];
        assert AllSupported(machine.supported, pid, done + [d]);
      }
    }

    /** `with_software_events`: every event is created and appended, in order,
        named after the event; an event that cannot be created is a panic. */
    method WithSoftwareEvents(events: seq<SoftwareEvent>) returns (failed: Option<nat>)
      requires Valid()
      modifies this, machine
      ensures Valid()
      ensures failed.None? <==> AllSupported(machine.supported, pid, SoftwareDescs(events))
      ensures failed.None? ==> counters == old(counters) + Entries(pid, old(machine.nextId), SoftwareDescs(events))
      ensures failed.None? ==> machine.trace == old(machine.trace) + CreateCalls(machine.supported, pid, SoftwareDescs(events))
      ensures failed.Some? ==>
        && failed.value < |events| && counters == old(counters)
        && !machine.supported(pid, Software(events[failed.value]))
        && AllSupported(machine.supported, pid, SoftwareDescs(events)[..failed.value])
        && machine.trace == old(machine.trace) + CreateCalls(machine.supported, pid, SoftwareDescs(events)[..failed.value + 1])
    {
      failed := RegisterAllOrPanic(SoftwareDescs(events));
    }

    /** `with_hardware_events`: as `WithSoftwareEvents`, for hardware events. */
    method WithHardwareEvents(events: seq<HardwareEvent>) returns (failed: Option<nat>)
      requires Valid()
      modifies this, machine
      ensures Valid()
      ensures failed.None? <==> AllSupported(machine.supported, pid, HardwareDescs(events))
      ensures failed.None? ==> counters == old(counters) + Entries(pid, old(machine.nextId), HardwareDescs(events))
      ensures failed.None? ==> machine.trace == old(machine.trace) + CreateCalls(machine.supported, pid, HardwareDescs(events))
      ensures failed.Some? ==>
        && failed.value < |events| && counters == old(counters)
        && !machine.supported(pid, Hardware(events[failed.value]))
        && AllSupported(machine.supported, pid, HardwareDescs(events)[..failed.value])
        && machine.trace == old(machine.trace) + CreateCalls(machine.supported, pid, HardwareDescs(events)[..failed.value + 1])
    {
      failed := RegisterAllOrPanic(HardwareDescs(events));
    }

    /** `with_cache_event`: tries to open one cache counter; on success appends
        it under the name `id_op_res`, on failure leaves the list as it was. */
    method WithCacheEvent(id: CacheId, op: CacheOpId, res: CacheOpResultId)
      requires Valid()
      modifies this, machine
      ensures Valid()
      ensures machine.trace == old(machine.trace) + [Create(pid, Cache(id, op, res), machine.supported(pid, Cache(id, op, res)))]
      ensures machine.supported(pid, Cache(id, op, res)) ==>
        && counters == old(counters) + [(CacheEventName(id, op, res), Counter(old(machine.nextId), pid, Cache(id, op, res)))]
        && machine.nextId == old(machine.nextId) + 1
      ensures !machine.supported(pid, Cache(id, op, res)) ==>
        counters == old(counters) && machine.nextId == old(machine.nextId)
    {
      var name := CacheEventName(id, op, res);
      var r := machine.Open(pid, Cache(id, op, res));
      match r
      case Some(pc) =>
        WellFormedAppend(counters, pid, old(machine.nextId), [Cache(id, op, res)]);
        counters := counters + [(name, pc)];
      case None =>
    }

    /** `with_all_cache_events_for`: tries every (unit, operation, outcome)
        triple, units outer, operations middle, outcomes inner, and keeps the
        ones that could be created, in that order. */
    method WithAllCacheEventsFor(ids: seq<CacheId>)
      requires Valid()
      modifies this, machine
      ensures Valid()
      ensures counters == old(counters)
        + Entries(pid, old(machine.nextId), Accepted(machine.supported, pid, CacheMatrix(ids)))
      ensures machine.trace == old(machine.trace) + CreateCalls(machine.supported, pid, CacheMatrix(ids))
    {
      ghost var m := CacheMatrix(ids);
      ghost var c0, t0, first := counters, machine.trace, machine.nextId;
      CacheMatrixLength(ids);
      for i := 0 to |ids|
        invariant RegisteredPrefix(c0, t0, first, m, 6 * i)
      {
        TryUnit(c0, t0, first, m, ids, i);
      }
      assert m[..6 * |ids|] == m;
      WellFormedAppend(c0, pid, first, Accepted(machine.supported, pid, m));
    }

    /** One iteration of the outer loop: tries the six triples of unit `ids[i]`,
        operations outer, outcomes inner. */
    method TryUnit(ghost c0: seq<Entry>, ghost t0: seq<Call>, ghost first: nat, ghost m: seq<Desc>,
                   ids: seq<CacheId>, i: nat)
      requires WellFormed(c0, pid, first) && m == CacheMatrix(ids) && i < |ids|
      requires RegisteredPrefix(c0, t0, first, m, 6 * i)
      modifies this, machine
      ensures RegisteredPrefix(c0, t0, first, m, 6 * i + 6)
    {
      var ops := AllCacheOps();
      for j := 0 to |ops|
        invariant RegisteredPrefix(c0, t0, first, m, 6 * i + 2 * j)
      {
        TryOperation(c0, t0, first, m, ids, i, j, ops[j]);
      }
    }

    /** One iteration of the middle loop: tries operation `op`, the `j`-th, of
        unit `ids[i]` with each outcome in turn. */
    method TryOperation(ghost c0: seq<Entry>, ghost t0: seq<Call>, ghost first: nat, ghost m: seq<Desc>,
                        ids: seq<CacheId>, i: nat, ghost j: nat, op: CacheOpId)
      requires WellFormed(c0, pid, first) && m == CacheMatrix(ids) && i < |ids| && j < 3 && op == AllCacheOps()[j]
      requires RegisteredPrefix(c0, t0, first, m, 6 * i + 2 * j)
      modifies this, machine
      ensures RegisteredPrefix(c0, t0, first, m, 6 * i + 2 * j + 2)
    {
      var rs := AllCacheRes();
      for l := 0 to |rs|
        invariant RegisteredPrefix(c0, t0, first, m, 6 * i + 2 * j + l)
      {
        CacheMatrixAt(ids, i, j, l);
        TryCacheEntry(c0, t0, first, m, 6 * i + 2 * j + l, ids[i], op, rs[l]);
      }
    }

    /** The first `k` descriptors of `m` have been tried since the list was
        `c0` and the trace `t0`: the supported ones are appended, in order. */
    ghost predicate RegisteredPrefix(c0: seq<Entry>, t0: seq<Call>, first: nat, m: seq<Desc>, k: nat)
      reads this, machine
    {
      RegisteredUpTo(machine.supported, pid, c0, t0, first, m, k, counters, machine.nextId, machine.trace)
    }

    /** One step of the cross product: tries descriptor `k` of `m`. */
    method TryCacheEntry(ghost c0: seq<Entry>, ghost t0: seq<Call>, ghost first: nat, ghost m: seq<Desc>, ghost k: nat,
                         id: CacheId, op: CacheOpId, res: CacheOpResultId)
      requires WellFormed(c0, pid, first) && k < |m| && m[k] == Cache(id, op, res)
      requires RegisteredPrefix(c0, t0, first, m, k)
      modifies this, machine
      ensures RegisteredPrefix(c0, t0, first, m, k + 1)
    {
      WellFormedAppend(c0, pid, first, Accepted(machine.supported, pid, m[..k]));
      ghost var cs, n, tr := counters, machine.nextId, machine.trace;
      WithCacheEvent(id, op, res);
      RegisteredStep(machine.supported, pid, c0, t0, first, m, k, cs, n, tr);
    }

    /** `with_all_mem_cache_events`: the cross product for L1D, L1I, LL and NODE (24 triples). */
    method WithAllMemCacheEvents()
      requires Valid()
      modifies this, machine
      ensures Valid()
      ensures counters == old(counters)
        + Entries(pid, old(machine.nextId), Accepted(machine.supported, pid, CacheMatrix(MemCacheUnits())))
      ensures machine.trace == old(machine.trace) + CreateCalls(machine.supported, pid, CacheMatrix(MemCacheUnits()))
    {
      WithAllCacheEventsFor(MemCacheUnits());
    }

    /** `with_all_tlb_cache_events`: the cross product for DTLB (6 triples). */
    method WithAllTlbCacheEvents()
      requires Valid()
      modifies this, machine
      ensures Valid()
      ensures counters == old(counters)
        + Entries(pid, old(machine.nextId), Accepted(machine.supported, pid, CacheMatrix(TlbCacheUnits())))
      ensures machine.trace == old(machine.trace) + CreateCalls(machine.supported, pid, CacheMatrix(TlbCacheUnits()))
    {
      WithAllCacheEventsFor(TlbCacheUnits());
    }

    /** `with_all_branch_prediction_events`: the cross product for BPU (6 triples). */
    method WithAllBranchPredictionEvents()
      requires Valid()
      modifies this, machine
      ensures Valid()
      ensures counters == old(counters)
        + Entries(pid, old(machine.nextId), Accepted(machine.supported, pid, CacheMatrix(BranchCacheUnits())))
      ensures machine.trace == old(machine.trace) + CreateCalls(machine.supported, pid, CacheMatrix(BranchCacheUnits()))
    {
      WithAllCacheEventsFor(BranchCacheUnits());
    }

    /** `bench`: resets and starts every counter in list order, runs `func`
        once, then stops every counter in list order, reading those whose stop
        succeeded; returns what `func` returned. The list is not changed. */
    method Bench<R>(func: () -> R) returns (res: R, ghost arms: seq<ArmOutcome>, ghost disarms: seq<DisarmOutcome>)
      requires Valid()
      modifies machine
      ensures Valid() && counters == old(counters)
      ensures res == func()
      ensures |arms| == |counters| && |disarms| == |counters|
      ensures machine.trace == old(machine.trace) + BenchCalls(Handles(), arms, disarms)
    {
      arms := StartAll();
      res := machine.Run(func);
      disarms := StopAndReadAll();
    }

    /** The first loop of `bench`: reset, then start, each counter in list order. */
    method StartAll() returns (ghost arms: seq<ArmOutcome>)
      requires Valid()
      modifies machine
      ensures Valid() && |arms| == |counters|
      ensures machine.trace == old(machine.trace) + ArmCalls(Handles(), arms)
    {
      ghost var hs := Handles();
      arms := [];
      for i := 0 to |counters|
        invariant machine.nextId == old(machine.nextId)
        invariant |arms| == i
        invariant machine.trace == old(machine.trace) + ArmCalls(hs[..i], arms)
      {
        var pc := counters[i].1;
        var resetOk := machine.Apply(Reset, pc);
        var startOk := machine.Apply(Start, pc);
        ArmCallsSnoc(hs, arms, i, ArmOutcome(resetOk, startOk));
        arms := arms + [ArmOutcome(resetOk, startOk)];
      }
      assert hs[..|counters|] == hs;
    }

    /** The second loop of `bench`: stop each counter in list order, and read
        it when the stop succeeded. */
    method StopAndReadAll() returns (ghost disarms: seq<DisarmOutcome>)
      requires Valid()
      modifies machine
      ensures Valid() && |disarms| == |counters|
      ensures machine.trace == old(machine.trace) + DisarmCalls(Handles(), disarms)
    {
      ghost var hs := Handles();
      disarms := [];
      for i := 0 to |counters|
        invariant machine.nextId == old(machine.nextId)
        invariant |disarms| == i
        invariant machine.trace == old(machine.trace) + DisarmCalls(hs[..i], disarms)
      {
        var pc := counters[i].1;
        var stopOk := machine.Apply(Stop, pc);
        var outcome := DisarmOutcome(false, None);
        if stopOk {
          var value := machine.Read(pc);
          outcome := DisarmOutcome(true, value);
        }
        DisarmCallsSnoc(hs, disarms, i, outcome);
        disarms := disarms + [outcome];
      }
      assert hs[..|counters|] == hs;
    }
  }
}
