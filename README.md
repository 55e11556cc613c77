# perfcnt-bench: the `PerfCounters` counter group

This project models `PerfCounters` from perfcnt-bench, a small Rust wrapper over
the Linux performance counters. A `PerfCounters` value is an ordered list of
named counters, all bound to one process id. It is built by chaining
registration calls:

- hardware events;
- software events;
- a single cache event;
- the cache cross product for a list of units;
- three fixed groups of units (memory, TLB, branch prediction).

One measurement `bench(func)` then does the following:

1. resets and starts every counter, in list order;
2. runs the caller's closure once;
3. stops every counter, in list order, and reads each counter whose stop succeeded;
4. returns what the closure returned.

Files:

- `events.dfy` (module `Events`) holds the event descriptors and the display names.
  - A cache counter is named `id_op_res`; the model proves that this name determines the triple.
  - It also holds the cache catalog: `all_cache_ops`, `all_cache_res`, and the nested
    unit × operation × outcome cross product with its exact positions.
- `backend.dfy` (module `Backend`) models the counter backend (the `perfcnt` crate over
  perf_event) as an oracle class `Machine`.
  - Whether an event can be created for a pid is a fixed property of the machine, `supported`.
  - Reset, start, stop and read outcomes are left open: any outcome is possible.
  - Every call to the backend, and the point where the closure runs, is recorded in a ghost
    `trace`. Properties of `bench` are stated as equalities on that trace.
  - A created counter is a handle `Counter(id, pid, event)`. Ids are handed out by the
    machine and are distinct, so registering the same event twice gives two separate entries.
- `trace.dfy` (module `Trace`) defines pure functions for what the operations do:
  - `Accepted`: the descriptors kept by a skip-on-error registration;
  - `CreateCalls`: the creation calls issued;
  - `BenchCalls`: the whole call sequence of one measurement.

  It also proves lemmas about these functions. The main ones:
  - the counters that are reset, started and stopped are exactly the list, in order;
  - reads happen exactly for the counters whose stop succeeded;
  - the closure runs once, at position `2·n`, between the arming and the disarming calls.
- `perf_counters.dfy` (module `PerfCounterGroup`) holds the class `PerfCounters`.
  - It has a `const pid` and a `counters: seq<(string, Counter)>` field.
  - Each registration method and `bench` is proved against the functions above. The methods
    that build lists (hardware, software, the cache cross product) and `bench` work with loops,
    as the source does; single-event registration and the three fixed groups have none.
    The three nested loops of the cross product are split over `WithAllCacheEventsFor`
    (units), `TryUnit` (operations) and `TryOperation` (outcomes); `TryCacheEntry` is the
    innermost body.
  - The class invariant `Valid()` says three things about every entry: it is named after
    its event, it observes the group's pid, and its counter id is distinct from all others.
- `scenario.dfy` (module `Scenario`) models the repository's own usage in `it_works`:
  2 hardware events, 1 software event, the TLB group and the memory group, then one `bench`.

Hardware and software registration use `expect` in the source, so a failed creation is a
panic there. In the model a panic is an explicit outcome: the methods return
`failed: Option<nat>`, the position of the event that could not be created. The list is then
unchanged, because the source builds the new entries with `collect()` before it appends them.
Cache registration skips an event that cannot be created, and the model does the same.

Three points of the code's behaviour that are easy to misread:

- Hardware and software registration panics on the first event that cannot be created
  (`src/lib.rs:37` and `src/lib.rs:58`). Only cache registration skips an event
  (`src/lib.rs:83-85`).
- A counter whose `start` failed is still stopped, and it is read whenever its stop succeeded
  (`src/lib.rs:117-137`).
- `bench` keeps no results. It prints each value it reads (`src/lib.rs:130`) and returns only
  what the closure returned.

## Model

| member | source | states |
|---|---|---|
| Events.CacheIdName | src/lib.rs:71 | the name of every cache unit is non-empty and has no `_` in it, so `_` can delimit the parts of a cache counter's name |
| Events.CacheEventNameInjective | src/lib.rs:71 | two cache counters get the same `id_op_res` name exactly when they have the same unit, operation and outcome |
| Events.CacheNameHasTwoDelimiters | src/lib.rs:71 | a cache counter's name has `_` at the two joints, and the text before, between and after them is the unit, operation and outcome names |
| Events.Join3Injective | src/lib.rs:71 | three words joined by `_`, the first two free of `_`, can be split back into the same three words |
| Events.CacheEventName | src/lib.rs:71 | the first `_` in a cache counter's name ends the unit name, and the text before it is that unit name |
| Events.EventName | src/lib.rs:29-71 | the name a counter is registered under: the `Debug` text for a hardware or software event (carried as given), and for a cache event a name whose first `_` sits right after the unit name |
| Events.AllCacheOps | src/lib.rs:142-144 | `all_cache_ops` has three entries and contains Read, Write and Prefetch, so it lists each operation once |
| Events.AllCacheRes | src/lib.rs:146-148 | `all_cache_res` has two entries and contains Access and Miss, so it lists each outcome once |
| Events.AllCacheOpsComplete | src/lib.rs:142-144 | `all_cache_ops` lists every cache operation, each exactly once |
| Events.AllCacheResComplete | src/lib.rs:146-148 | `all_cache_res` lists every cache outcome, each exactly once |
| Events.UnitEvents | src/lib.rs:93-99 | the six triples for one unit come in the nested loop's order: Read/Access, Read/Miss, Write/Access, Write/Miss, Prefetch/Access, Prefetch/Miss |
| Events.CacheMatrixLength | src/lib.rs:90-101 | the cross product for `ids` has `6·|ids|` triples |
| Events.CacheMatrixAt | src/lib.rs:90-101 | triple `6i + 2j + l` of the cross product is unit `i`, operation `j`, outcome `l`: units outer, operations middle, outcomes inner |
| Events.CacheMatrixMembers | src/lib.rs:90-101 | a descriptor is in the cross product exactly when it is a cache descriptor whose unit is in `ids` |
| Events.MemCacheUnits | src/lib.rs:102-104 | the memory group is L1D, L1I, LL, NODE, which gives 24 triples |
| Events.TlbCacheUnits | src/lib.rs:106-108 | the TLB group is DTLB, which gives 6 triples |
| Events.BranchCacheUnits | src/lib.rs:110-112 | the branch group is BPU, which gives 6 triples |
| Backend.Machine.Open | src/lib.rs:73-79 | creating a counter succeeds exactly when the machine supports the (pid, event) pair; on success it returns a fresh handle for that pid and event; the attempt is recorded in the trace either way |
| Backend.Machine.Apply | src/lib.rs:118-125 | the oracle for `reset`, `start` and `stop`: whether the call succeeds is left open; it hands out no id and records the call with its outcome |
| Backend.Machine.Read | src/lib.rs:128 | the oracle for `read`: the value, or a failure, is left open; it hands out no id and records the read with its outcome |
| Backend.Machine.Run | src/lib.rs:123 | the closure runs once and its result is handed back unchanged |
| Trace.AcceptedMembers | src/lib.rs:76-86 | skip-on-error registration keeps a descriptor exactly when it was tried and can be created |
| Trace.AcceptedBounds | src/lib.rs:76-86 | skip-on-error registration keeps at most what was tried: everything when all are supported, nothing when none is |
| Trace.AcceptedAppend | src/lib.rs:90-101 | registering two lists one after the other keeps what each keeps, in order |
| Trace.CreateCallsAt | src/lib.rs:25-40 | trying a list of descriptors issues one creation per descriptor, in list order |
| Trace.CreateCallsAppend | src/lib.rs:158-173 | trying two lists one after the other issues the creations of the first, then those of the second |
| Trace.CacheAttemptsAt | src/lib.rs:90-101 | the cross product for `ids` makes exactly `6·|ids|` creation attempts; attempt `6i + 2j + l` is for unit `i`, operation `j`, outcome `l` |
| Trace.ArmCallsAt | src/lib.rs:117-122 | before the closure there are `2·n` calls: counter `i` is reset at position `2i` and started right after |
| Trace.DisarmCallsKinds | src/lib.rs:124-137 | after the closure every call is a stop, or a read right after the successful stop of the same counter |
| Trace.BenchCallsCounts | src/lib.rs:113-139 | whatever the backend answers, one measurement resets, starts and stops exactly the list, in list order; a failed start does not prevent the stop; it reads exactly the counters whose stop succeeded, in order; the closure runs once |
| Trace.BenchCallsShape | src/lib.rs:113-139 | call `2·n` of a measurement is the closure; every call before it is a reset or a start; every call after it is a stop or a read |
| Trace.BenchCallsEmpty | src/lib.rs:113-139 | with no counters a measurement is the closure call alone |
| PerfCounterGroup.EntriesAt | src/lib.rs:24-42 | the entries for a list of events are in input order; entry `k` is named after event `k` and holds the `k`-th newly created counter |
| PerfCounterGroup.EntriesEvents | src/lib.rs:24-42 | the entries registered for a list of events count exactly those events, in order |
| PerfCounterGroup.WellFormedAppend | src/lib.rs:24-42 | appending the entries of newly created counters keeps every entry named after its event, on the group's pid, with pairwise distinct counters |
| PerfCounterGroup.EntriesNeverMerged | src/lib.rs:81 | two entries of the list never share a counter, even when they count the same event |
| PerfCounterGroup.PerfCounters.ForPid | src/lib.rs:12-17 | `for_pid(p)` gives an empty group bound to `p`; `pid` is a constant, so no later call changes it |
| PerfCounterGroup.PerfCounters.RegisterAllOrPanic | src/lib.rs:23-64 | with every event supported, appends one entry per event in input order, named after its event, and the old list stays a prefix; otherwise it panics at the first unsupported event with the list unchanged; the trace records every creation attempt up to the panic |
| PerfCounterGroup.PerfCounters.OpenAll | src/lib.rs:25-40 | the `map`/`collect` loop: opens the events in order, and stops at the first one that cannot be created |
| PerfCounterGroup.PerfCounters.WithSoftwareEvents | src/lib.rs:23-43 | `with_software_events`: all events supported means the list gains `|events|` entries, in order, named after their events; otherwise a panic at the first unsupported one, with the list unchanged |
| PerfCounterGroup.PerfCounters.WithHardwareEvents | src/lib.rs:44-64 | `with_hardware_events`: the same for hardware events |
| PerfCounterGroup.PerfCounters.WithCacheEvent | src/lib.rs:65-89 | a successful creation appends exactly one entry at the end, named `id_op_res`, holding the new counter; a failed creation leaves the list (and the next id) unchanged; one creation attempt is recorded either way |
| PerfCounterGroup.PerfCounters.WithAllCacheEventsFor | src/lib.rs:90-101 | the new list is the old list followed by the supported triples of the cross product, in nested order; the trace records one creation attempt per triple of the cross product, in the same order |
| PerfCounterGroup.PerfCounters.WithAllMemCacheEvents | src/lib.rs:102-104 | the cross product for L1D, L1I, LL, NODE |
| PerfCounterGroup.PerfCounters.WithAllTlbCacheEvents | src/lib.rs:106-108 | the cross product for DTLB |
| PerfCounterGroup.PerfCounters.WithAllBranchPredictionEvents | src/lib.rs:110-112 | the cross product for BPU |
| PerfCounterGroup.PerfCounters.Bench | src/lib.rs:113-139 | returns exactly `func()`, leaves the list unchanged, and the backend sees exactly the measurement of `BenchCalls` for the list's counters |
| PerfCounterGroup.PerfCounters.StartAll | src/lib.rs:117-122 | resets, then starts, each counter in list order, whatever each call answers |
| PerfCounterGroup.PerfCounters.StopAndReadAll | src/lib.rs:124-137 | stops each counter in list order, and reads it only when its stop succeeded |
| Scenario.TestDescsCount | src/lib.rs:158-173 | the usage in the test tries 33 creations: 2 hardware, 1 software, 6 TLB, 24 memory |
| Scenario.RegisterNamed | src/lib.rs:160-163 | the test's first two registrations on a fresh group panic exactly when one of the hardware or software events is unsupported; otherwise the group holds the hardware entries and then the software entries, and the creation attempts come in that order |
| Scenario.RegisterCaches | src/lib.rs:164-165 | the TLB group and then the memory group append their accepted triples in that order, after one creation attempt per triple |
| Scenario.UsageEvents | src/lib.rs:160-165 | the events of the four chained registrations are the hardware events, the software events, the accepted TLB triples and the accepted memory triples, in that order |
| Scenario.UsageCreates | src/lib.rs:160-165 | the creation attempts of the four chained registrations are those of trying all their descriptors in one sequence |
| Scenario.ItWorks | src/lib.rs:158-173 | when the test's hardware and software events are supported, the group holds those three events, then the accepted TLB events, then the accepted memory events, and the backend sees the 33 creation attempts and then one measurement of the group |

## Left out

- `for_this_process` (`src/lib.rs:18-22`) is left out. It asks the OS for the pid (`libc::getpid`) and prints it. In the model the pid is a parameter of `ForPid`, and of `ItWorks` in the scenario.
- All `println!` diagnostics are left out (`src/lib.rs:20`, `84`, `120`, `126`, `130`, `133`). They are output only. The ones at `84`, `120`, `126`, `130` and `133` report a backend outcome, which the ghost trace records; the one at `20` prints the pid, which the model takes as a parameter.
- The `perfcnt` backend itself is left out: `Builder::...finish()`, `reset`, `start`, `stop`, `read`. It is a foreign library over the perf_event system call. The model has only its interface, as the oracle `Machine`.
- Creation failures that come and go are left out. A counter can be created exactly when the fixed relation `supported(pid, event)` holds, so running out of file descriptors, a target process that exits, or any other failure that depends on the moment is not modelled. The "exactly when" contracts of `RegisterAllOrPanic`, `WithSoftwareEvents`, `WithHardwareEvents`, `RegisterNamed` and `ItWorks` rely on that.
- The counter configuration (`inherit`, `on_all_cpus`, `exclude_kernel`, `exclude_idle`) is left out. It is backend configuration with no logic in this code.
- The counted values, and how the kernel attributes counts to CPUs and child threads, are left out. They are hardware and concurrency behaviour. A read returns some `u64` or fails.
- The exact `Debug` text of perfcnt's hardware and software event kinds is left out. The model carries it as a string (`HardwareEvent.debugName`, `SoftwareEvent.debugName`). Cache unit, operation and outcome names are written out. The `ITLB` unit comes from perfcnt and is not used by any grouping.
- Closing counters is left out. That is Drop of `PerfCounter`, including counters dropped while the `collect()` of a failed registration unwinds. Handles are never released in the model.
- The closure's own side effects and panics are left out. The closure is a function value `() -> R`, so `bench` always reaches the stop loop.
- A panic is not modelled as unwinding. It is the `failed` result of `RegisterAllOrPanic`, `WithSoftwareEvents` and `WithHardwareEvents`, and the `panicked` result in the scenario. The caller's further chained calls are then not made.
- The builder-style `&mut Self` return, which exists only for chaining, is left out. The methods update the group in place instead.
- The source test's printing closure (`src/lib.rs:167-171`) is left out. `ItWorks` takes an arbitrary closure.
