/** The repository's own usage: a group for one process with two hardware
    events, one software event, the TLB and the memory cache events, driven
    through one measurement of a closure. */
module Scenario {
  import opened Events
  import opened Backend
  import opened Trace
  import opened PerfCounterGroup

  function TestHardware(): seq<HardwareEvent>
  {
    [HardwareEvent("Instructions"), HardwareEvent("CPUCycles")]
  }

  function TestSoftware(): seq<SoftwareEvent>
  {
    [SoftwareEvent("TaskClock")]
  }

  /** Everything the usage tries to create, in the order it tries it. */
  function TestDescs(): seq<Desc>
  {
    HardwareDescs(TestHardware()) + SoftwareDescs(TestSoftware())
      + CacheMatrix(TlbCacheUnits()) + CacheMatrix(MemCacheUnits())
  }

  /** The usage tries 33 creations: 2 hardware, 1 software, 6 TLB and 24
      memory cache events. */
  lemma TestDescsCount(supported: (i32, Desc) -> bool, pid: i32)
    ensures |TestDescs()| == 33
    ensures |CreateCalls(supported, pid, TestDescs())| == 33
  {
    CreateCallsLength(supported, pid, TestDescs());
  }

  /** The events of the four registrations, in order. */
  lemma UsageEvents(supported: (i32, Desc) -> bool, pid: i32, hw: seq<Desc>, sw: seq<Desc>, tlb: seq<Desc>, mem: seq<Desc>,
                    n0: nat, n1: nat, n2: nat, n3: nat)
    ensures EventsOf(Entries(pid, n0, hw) + Entries(pid, n1, sw)
                     + Entries(pid, n2, Accepted(supported, pid, tlb)) + Entries(pid, n3, Accepted(supported, pid, mem)))
      == hw + sw + Accepted(supported, pid, tlb) + Accepted(supported, pid, mem)
  {
    var a, b := Accepted(supported, pid, tlb), Accepted(supported, pid, mem);
    var e0, e1, e2, e3 := Entries(pid, n0, hw), Entries(pid, n1, sw), Entries(pid, n2, a), Entries(pid, n3, b);
    EventsOfAppend4(e0, e1, e2, e3);
    EntriesEvents(pid, n0, hw);
    EntriesEvents(pid, n1, sw);
    EntriesEvents(pid, n2, a);
    EntriesEvents(pid, n3, b);
  }

  lemma EventsOfAppend4(e0: seq<Entry>, e1: seq<Entry>, e2: seq<Entry>, e3: seq<Entry>)
    ensures EventsOf(e0 + e1 + e2 + e3) == EventsOf(e0) + EventsOf(e1) + EventsOf(e2) + EventsOf(e3)
  {
    EventsOfAppend(e0 + e1 + e2, e3);
    EventsOfAppend(e0 + e1, e2);
    EventsOfAppend(e0, e1);
  }

  /** The creation calls of the four registrations, one after the other, are
      those of trying all their descriptors in order. */
  lemma UsageCreates(supported: (i32, Desc) -> bool, pid: i32, hw: seq<Desc>, sw: seq<Desc>, tlb: seq<Desc>, mem: seq<Desc>,
                     t0: seq<Call>)
    ensures t0 + CreateCalls(supported, pid, hw) + CreateCalls(supported, pid, sw)
        + CreateCalls(supported, pid, tlb) + CreateCalls(supported, pid, mem)
      == t0 + CreateCalls(supported, pid, hw + sw + tlb + mem)
  {
    CreateCallsAppend(supported, pid, hw + sw + tlb, mem);
    CreateCallsAppend(supported, pid, hw + sw, tlb);
    CreateCallsAppend(supported, pid, hw, sw);
    ConcatAssoc4(t0, CreateCalls(supported, pid, hw), CreateCalls(supported, pid, sw),
                 CreateCalls(supported, pid, tlb), CreateCalls(supported, pid, mem));
  }

  /** Appending four call sequences one by one appends their concatenation. */
  lemma ConcatAssoc4(t0: seq<Call>, a: seq<Call>, b: seq<Call>, c: seq<Call>, d: seq<Call>)
    ensures t0 + a + b + c + d == t0 + (a + b + c + d)
  {
  }

  /** The first two registrations of the usage, on a fresh group: `hw`, then
      `sw`; `panicked` when one of their events cannot be created. */
  method RegisterNamed(bencher: PerfCounters, hw: seq<HardwareEvent>, sw: seq<SoftwareEvent>)
    returns (panicked: bool, ghost n0: nat, ghost n1: nat)
    requires bencher.Valid() && bencher.counters == []
    modifies bencher, bencher.machine
    ensures bencher.Valid()
    ensures !panicked <==> AllSupported(bencher.machine.supported, bencher.pid, HardwareDescs(hw) + SoftwareDescs(sw))
    ensures !panicked ==>
      var sup, pid := bencher.machine.supported, bencher.pid;
      && bencher.counters == Entries(pid, n0, HardwareDescs(hw)) + Entries(pid, n1, SoftwareDescs(sw))
      && bencher.machine.trace == old(bencher.machine.trace)
           + CreateCalls(sup, pid, HardwareDescs(hw)) + CreateCalls(sup, pid, SoftwareDescs(sw))
  {
    ghost var sup, pid := bencher.machine.supported, bencher.pid;
    AllSupportedAppend(sup, pid, HardwareDescs(hw), SoftwareDescs(sw));
    n0, n1 := bencher.machine.nextId, 0;
    var failed := bencher.WithHardwareEvents(hw);
    if failed.Some? {
      panicked := true;
      return;
    }
    ghost var e0 := Entries(pid, n0, HardwareDescs(hw));
    assert bencher.counters == e0 by {
      assert [] + e0 == e0;
    }
    n1 := bencher.machine.nextId;
    failed := bencher.WithSoftwareEvents(sw);
    panicked := failed.Some?;
  }

  /** The last two registrations of the usage: the TLB group, then the
      memory group. */
  method RegisterCaches(bencher: PerfCounters) returns (ghost n2: nat, ghost n3: nat)
    requires bencher.Valid()
    modifies bencher, bencher.machine
    ensures bencher.Valid()
    ensures
      var sup, pid := bencher.machine.supported, bencher.pid;
      && bencher.counters == old(bencher.counters)
           + Entries(pid, n2, Accepted(sup, pid, CacheMatrix(TlbCacheUnits())))
           + Entries(pid, n3, Accepted(sup, pid, CacheMatrix(MemCacheUnits())))
      && bencher.machine.trace == old(bencher.machine.trace)
           + CreateCalls(sup, pid, CacheMatrix(TlbCacheUnits())) + CreateCalls(sup, pid, CacheMatrix(MemCacheUnits()))
  {
    n2 := bencher.machine.nextId;
    bencher.WithAllTlbCacheEvents();
    n3 := bencher.machine.nextId;
    bencher.WithAllMemCacheEvents();
  }

  /** The usage as a whole. When both hardware events and the software event
      can be created, the group ends up with those three and every TLB and
      memory cache event the machine accepts, in that order, and the backend
      sees the 33 creation attempts of `TestDescs` followed by one
      measurement of the group; otherwise registration panics. */
  method ItWorks<R>(machine: Machine, pid: i32, work: () -> R)
    returns (bencher: PerfCounters, panicked: bool, ghost arms: seq<ArmOutcome>, ghost disarms: seq<DisarmOutcome>)
    modifies machine
    ensures fresh(bencher) && bencher.machine == machine && bencher.pid == pid && bencher.Valid()
    ensures !panicked <==> AllSupported(machine.supported, pid, HardwareDescs(TestHardware()) + SoftwareDescs(TestSoftware()))
    ensures !panicked ==>
      && bencher.Events() == HardwareDescs(TestHardware()) + SoftwareDescs(TestSoftware())
           + Accepted(machine.supported, pid, CacheMatrix(TlbCacheUnits()))
           + Accepted(machine.supported, pid, CacheMatrix(MemCacheUnits()))
      && |arms| == |bencher.counters| && |disarms| == |bencher.counters|
      && machine.trace == old(machine.trace) + CreateCalls(machine.supported, pid, TestDescs())
           + BenchCalls(bencher.Handles(), arms, disarms)
  {
    bencher := new PerfCounters.ForPid(pid, machine);
    ghost var n0, n1, n2, n3;
    arms, disarms := [], [];
    panicked, n0, n1 := RegisterNamed(bencher, TestHardware(), TestSoftware());
    if panicked {
      return;
    }
    n2, n3 := RegisterCaches(bencher);
    ghost var sup := machine.supported;
    ghost var hw, sw := HardwareDescs(TestHardware()), SoftwareDescs(TestSoftware());
    ghost var tlb, mem := CacheMatrix(TlbCacheUnits()), CacheMatrix(MemCacheUnits());
    UsageEvents(sup, pid, hw, sw, tlb, mem, n0, n1, n2, n3);
    assert bencher.Events() == hw + sw + Accepted(sup, pid, tlb) + Accepted(sup, pid, mem);
    UsageCreates(sup, pid, hw, sw, tlb, mem, old(machine.trace));
    assert machine.trace == old(machine.trace) + CreateCalls(sup, pid, TestDescs());
    var res;
    res, arms, disarms := bencher.Bench(work);
  }
}
