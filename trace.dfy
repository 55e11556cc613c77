/** Specification functions for the counter group: which registrations are
    kept, which creation calls are issued, and the call sequence of one
    measurement; with the lemmas that say what those sequences look like. */
module Trace {
  import opened Events
  import opened Backend

  // ---------------------------------------------------------------------
  // Registration
  // ---------------------------------------------------------------------

  /** The descriptors of `ds` that can be opened for `pid`, in order. */
  function Accepted(supported: (i32, Desc) -> bool, pid: i32, ds: seq<Desc>): seq<Desc>
  {
    if ds == [] then []
    else
      var last := ds[|ds| - 1];
      Accepted(supported, pid, ds[..|ds| - 1]) + (if supported(pid, last) then [last] else [])
  }

  /** Every descriptor of `ds` can be opened for `pid`. */
  predicate AllSupported(supported: (i32, Desc) -> bool, pid: i32, ds: seq<Desc>)
  {
    forall d | d in ds :: supported(pid, d)
  }

  /** A concatenation is supported exactly when both parts are. */
  lemma AllSupportedAppend(supported: (i32, Desc) -> bool, pid: i32, a: seq<Desc>, b: seq<Desc>)
    ensures AllSupported(supported, pid, a + b) <==> AllSupported(supported, pid, a) && AllSupported(supported, pid, b)
  {
  }

  /** The creation calls issued when every descriptor of `ds` is tried in order. */
  function CreateCalls(supported: (i32, Desc) -> bool, pid: i32, ds: seq<Desc>): seq<Call>
  {
    if ds == [] then []
    else
      var last := ds[|ds| - 1];
      CreateCalls(supported, pid, ds[..|ds| - 1]) + [Create(pid, last, supported(pid, last))]
  }

  /** `Accepted` keeps exactly the supported descriptors. */
  lemma {:induction false} AcceptedMembers(supported: (i32, Desc) -> bool, pid: i32, ds: seq<Desc>, d: Desc)
    ensures d in Accepted(supported, pid, ds) <==> d in ds && supported(pid, d)
  {
    if ds != [] {
      var init := ds[..|ds| - 1];
      assert ds == init + [ds[|ds| - 1]];
      AcceptedMembers(supported, pid, init, d);
    }
  }

  /** `Accepted` keeps everything when everything is supported, and nothing
      when nothing is; it never grows the sequence. */
  lemma {:induction false} AcceptedBounds(supported: (i32, Desc) -> bool, pid: i32, ds: seq<Desc>)
    ensures |Accepted(supported, pid, ds)| <= |ds|
    ensures (forall k | 0 <= k < |ds| :: supported(pid, ds[k])) ==> Accepted(supported, pid, ds) == ds
    ensures (forall k | 0 <= k < |ds| :: !supported(pid, ds[k])) ==> Accepted(supported, pid, ds) == []
  {
    if ds != [] {
      var init := ds[..|ds| - 1];
      assert ds == init + [ds[|ds| - 1]];
      AcceptedBounds(supported, pid, init);
    }
  }

  /** Filtering a concatenation filters each part. */
  lemma {:induction false} AcceptedAppend(supported: (i32, Desc) -> bool, pid: i32, a: seq<Desc>, b: seq<Desc>)
    ensures Accepted(supported, pid, a + b) == Accepted(supported, pid, a) + Accepted(supported, pid, b)
  {
    if b != [] {
      var init := b[..|b| - 1];
      assert (a + b)[..|a + b| - 1] == a + init;
      AcceptedAppend(supported, pid, a, init);
    } else {
      assert a + b == a;
    }
  }

  /** The `k`-th creation call tries the `k`-th descriptor, and there is one
      call per descriptor. */
  lemma {:induction false} CreateCallsAt(supported: (i32, Desc) -> bool, pid: i32, ds: seq<Desc>, k: nat)
    requires k < |ds|
    ensures |CreateCalls(supported, pid, ds)| == |ds|
    ensures CreateCalls(supported, pid, ds)[k] == Create(pid, ds[k], supported(pid, ds[k]))
  {
    var init := ds[..|ds| - 1];
    CreateCallsLength(supported, pid, init);
    if k < |ds| - 1 {
      CreateCallsAt(supported, pid, init, k);
    }
  }

  lemma {:induction false} CreateCallsLength(supported: (i32, Desc) -> bool, pid: i32, ds: seq<Desc>)
    ensures |CreateCalls(supported, pid, ds)| == |ds|
  {
    if ds != [] {
      CreateCallsLength(supported, pid, ds[..|ds| - 1]);
    }
  }

  /** Trying one more descriptor adds its creation call. */
  lemma CreateCallsSnoc(supported: (i32, Desc) -> bool, pid: i32, ds: seq<Desc>, d: Desc)
    ensures CreateCalls(supported, pid, ds + [d]) == CreateCalls(supported, pid, ds) + [Create(pid, d, supported(pid, d))]
  {
    assert (ds + [d])[..|ds|] == ds;
  }

  /** Trying `a` and then `b` issues the calls of `a` and then those of `b`. */
  lemma {:induction false} CreateCallsAppend(supported: (i32, Desc) -> bool, pid: i32, a: seq<Desc>, b: seq<Desc>)
    ensures CreateCalls(supported, pid, a + b) == CreateCalls(supported, pid, a) + CreateCalls(supported, pid, b)
  {
    if b == [] {
      assert a + b == a;
    } else {
      var init := b[..|b| - 1];
      assert (a + b)[..|a + b| - 1] == a + init;
      CreateCallsAppend(supported, pid, a, init);
    }
  }

  /** Extending the tried descriptors by one extends both sequences by the
      corresponding step (the step a registration loop takes). */
  lemma StepRegistration(supported: (i32, Desc) -> bool, pid: i32, ds: seq<Desc>, k: nat)
    requires k < |ds|
    ensures Accepted(supported, pid, ds[..k + 1])
      == Accepted(supported, pid, ds[..k]) + (if supported(pid, ds[k]) then [ds[k]] else [])
    ensures CreateCalls(supported, pid, ds[..k + 1])
      == CreateCalls(supported, pid, ds[..k]) + [Create(pid, ds[k], supported(pid, ds[k]))]
  {
    assert ds[..k + 1][..k] == ds[..k];
  }

  /** Trying the cache cross product for `ids` makes `6 |ids|` creation
      attempts, attempt `6 i + 2 j + l` being for unit `i`, operation `j` and
      outcome `l`: units outer, operations middle, outcomes inner. */
  lemma CacheAttemptsAt(supported: (i32, Desc) -> bool, pid: i32, ids: seq<CacheId>, i: nat, j: nat, l: nat)
    requires i < |ids| && j < 3 && l < 2
    ensures var t := CreateCalls(supported, pid, CacheMatrix(ids));
      var d := Cache(ids[i], AllCacheOps()[j], AllCacheRes()[l]);
      |t| == 6 * |ids| && t[6 * i + 2 * j + l] == Create(pid, d, supported(pid, d))
  {
    CacheMatrixAt(ids, i, j, l);
    CreateCallsAt(supported, pid, CacheMatrix(ids), 6 * i + 2 * j + l);
  }

  // ---------------------------------------------------------------------
  // One measurement
  // ---------------------------------------------------------------------

  /** What the backend answered to one counter's reset and start. */
  datatype ArmOutcome = ArmOutcome(resetOk: bool, startOk: bool)

  /** What the backend answered to one counter's stop and, when the stop
      succeeded, to its read. */
  datatype DisarmOutcome = DisarmOutcome(stopOk: bool, read: Option<u64>)

  /** Before the closure: reset then start, counter by counter, in list order. */
  function ArmCalls(hs: seq<Counter>, arms: seq<ArmOutcome>): seq<Call>
    requires |arms| == |hs|
  {
    if hs == [] then []
    else
      var n := |hs| - 1;
      ArmCalls(hs[..n], arms[..n]) + [Control(Reset, hs[n], arms[n].resetOk), Control(Start, hs[n], arms[n].startOk)]
  }

  /** The calls for one counter after the closure: stop, and read only when
      the stop succeeded. */
  function DisarmCallsFor(h: Counter, d: DisarmOutcome): seq<Call>
  {
    [Control(Stop, h, d.stopOk)] + if d.stopOk then [ReadValue(h, d.read)] else []
  }

  /** After the closure: stop (and maybe read), counter by counter, in list order. */
  function DisarmCalls(hs: seq<Counter>, ds: seq<DisarmOutcome>): seq<Call>
    requires |ds| == |hs|
  {
    if hs == [] then []
    else DisarmCalls(hs[..|hs| - 1], ds[..|hs| - 1]) + DisarmCallsFor(hs[|hs| - 1], ds[|hs| - 1])
  }

  /** One more counter armed extends the calls by its reset and start. */
  lemma ArmCallsSnoc(hs: seq<Counter>, arms: seq<ArmOutcome>, i: nat, a: ArmOutcome)
    requires i < |hs| && |arms| == i
    ensures ArmCalls(hs[..i + 1], arms + [a])
      == ArmCalls(hs[..i], arms) + [Control(Reset, hs[i], a.resetOk), Control(Start, hs[i], a.startOk)]
  {
    assert hs[..i + 1][..i] == hs[..i];
    assert (arms + [a])[..i] == arms;
  }

  /** One more counter disarmed extends the calls by its stop and read. */
  lemma DisarmCallsSnoc(hs: seq<Counter>, ds: seq<DisarmOutcome>, i: nat, d: DisarmOutcome)
    requires i < |hs| && |ds| == i
    ensures DisarmCalls(hs[..i + 1], ds + [d]) == DisarmCalls(hs[..i], ds) + DisarmCallsFor(hs[i], d)
  {
    assert hs[..i + 1][..i] == hs[..i];
    assert (ds + [d])[..i] == ds;
  }

  /** The whole call sequence of one measurement of the counters `hs`. */
  function BenchCalls(hs: seq<Counter>, arms: seq<ArmOutcome>, ds: seq<DisarmOutcome>): seq<Call>
    requires |arms| == |hs| && |ds| == |hs|
  {
    ArmCalls(hs, arms) + [RunWork] + DisarmCalls(hs, ds)
  }

  // Projections of a call sequence

  /** The counters to which `action` was applied, in call order. */
  function Issued(t: seq<Call>, action: Action): seq<Counter>
  {
    if t == [] then []
    else
      var last := t[|t| - 1];
      Issued(t[..|t| - 1], action) + (if last.Control? && last.action == action then [last.counter] else [])
  }

  /** The counters that were read, in call order. */
  function ReadsOf(t: seq<Call>): seq<Counter>
  {
    if t == [] then []
    else ReadsOf(t[..|t| - 1]) + (if t[|t| - 1].ReadValue? then [t[|t| - 1].counter] else [])
  }

  /** How many times the closure ran. */
  function RunCount(t: seq<Call>): nat
  {
    if t == [] then 0 else RunCount(t[..|t| - 1]) + (if t[|t| - 1] == RunWork then 1 else 0)
  }

  /** The counters whose stop succeeded, in list order. */
  function StoppedOk(hs: seq<Counter>, ds: seq<DisarmOutcome>): seq<Counter>
    requires |ds| == |hs|
  {
    if hs == [] then []
    else StoppedOk(hs[..|hs| - 1], ds[..|hs| - 1]) + (if ds[|hs| - 1].stopOk then [hs[|hs| - 1]] else [])
  }

  lemma {:induction false} ProjectionsAppend(a: seq<Call>, b: seq<Call>)
    ensures forall action :: Issued(a + b, action) == Issued(a, action) + Issued(b, action)
    ensures ReadsOf(a + b) == ReadsOf(a) + ReadsOf(b)
    ensures RunCount(a + b) == RunCount(a) + RunCount(b)
  {
    if b == [] {
      assert a + b == a;
    } else {
      var init := b[..|b| - 1];
      assert (a + b)[..|a + b| - 1] == a + init;
      ProjectionsAppend(a, init);
    }
  }

  lemma ProjectionsOne(c: Call)
    ensures forall action :: Issued([c], action) == if c.Control? && c.action == action then [c.counter] else []
    ensures ReadsOf([c]) == if c.ReadValue? then [c.counter] else []
    ensures RunCount([c]) == if c == RunWork then 1 else 0
  {
    assert [c][..0] == [];
  }

  /** Before the closure: `2 |hs|` calls, the reset of counter `i` at `2 i`
      and its start right after it. */
  lemma {:induction false} ArmCallsAt(hs: seq<Counter>, arms: seq<ArmOutcome>, i: nat)
    requires |arms| == |hs| && i < |hs|
    ensures |ArmCalls(hs, arms)| == 2 * |hs|
    ensures ArmCalls(hs, arms)[2 * i] == Control(Reset, hs[i], arms[i].resetOk)
    ensures ArmCalls(hs, arms)[2 * i + 1] == Control(Start, hs[i], arms[i].startOk)
  {
    var n := |hs| - 1;
    ArmCallsLength(hs[..n], arms[..n]);
    if i < n {
      ArmCallsAt(hs[..n], arms[..n], i);
    }
  }

  lemma {:induction false} ArmCallsLength(hs: seq<Counter>, arms: seq<ArmOutcome>)
    requires |arms| == |hs|
    ensures |ArmCalls(hs, arms)| == 2 * |hs|
  {
    if hs != [] {
      ArmCallsLength(hs[..|hs| - 1], arms[..|hs| - 1]);
    }
  }

  /** Before the closure every call is a reset or a start; the closure does not run. */
  lemma {:induction false} ArmCallsKinds(hs: seq<Counter>, arms: seq<ArmOutcome>)
    requires |arms| == |hs|
    ensures forall k | 0 <= k < |ArmCalls(hs, arms)| ::
      ArmCalls(hs, arms)[k].Control? && ArmCalls(hs, arms)[k].action != Stop
  {
    if hs != [] {
      ArmCallsKinds(hs[..|hs| - 1], arms[..|hs| - 1]);
    }
  }

  /** Every call of `t` is a stop, or a read right after a successful stop of
      the same counter. */
  ghost predicate StopsThenReads(t: seq<Call>)
  {
    forall k | 0 <= k < |t| ::
      || (t[k].Control? && t[k].action == Stop)
      || (t[k].ReadValue? && k > 0 && t[k - 1] == Control(Stop, t[k].counter, true))
  }

  /** After the closure every call is a stop or a read, and a read comes right
      after a successful stop of the same counter. */
  lemma {:induction false} DisarmCallsKinds(hs: seq<Counter>, ds: seq<DisarmOutcome>)
    requires |ds| == |hs|
    ensures StopsThenReads(DisarmCalls(hs, ds))
  {
    if hs != [] {
      var n := |hs| - 1;
      DisarmCallsKinds(hs[..n], ds[..n]);
      var p, q := DisarmCalls(hs[..n], ds[..n]), DisarmCallsFor(hs[n], ds[n]);
      var t := p + q;
      assert DisarmCalls(hs, ds) == t;
      forall k | 0 <= k < |t|
        ensures || (t[k].Control? && t[k].action == Stop)
                || (t[k].ReadValue? && k > 0 && t[k - 1] == Control(Stop, t[k].counter, true))
      {
        if k < |p| {
          assert t[k] == p[k];
          if k > 0 { assert t[k - 1] == p[k - 1]; }
        } else if k == |p| {
          assert t[k] == q[0];
        } else {
          assert ds[n].stopOk;
          assert t[k] == q[1] == ReadValue(hs[n], ds[n].read);
          assert t[k - 1] == q[0] == Control(Stop, hs[n], true);
        }
      }
    }
  }

  /** The two calls that arm one counter: one reset and one start of it. */
  lemma ArmPairCounts(h: Counter, arm: ArmOutcome)
    ensures var pair := [Control(Reset, h, arm.resetOk), Control(Start, h, arm.startOk)];
      && Issued(pair, Reset) == [h] && Issued(pair, Start) == [h] && Issued(pair, Stop) == []
      && ReadsOf(pair) == [] && RunCount(pair) == 0
  {
    var reset, start := Control(Reset, h, arm.resetOk), Control(Start, h, arm.startOk);
    ProjectionsAppend([reset], [start]);
    assert [reset, start] == [reset] + [start];
    ProjectionsOne(reset);
    ProjectionsOne(start);
  }

  /** Each counter is reset, started and stopped once, in list order, whatever
      the backend answered; the read calls are those of the counters whose stop
      succeeded; the closure runs exactly once. */
  lemma {:induction false} BenchCallsCounts(hs: seq<Counter>, arms: seq<ArmOutcome>, ds: seq<DisarmOutcome>)
    requires |arms| == |hs| && |ds| == |hs|
    ensures Issued(BenchCalls(hs, arms, ds), Reset) == hs
    ensures Issued(BenchCalls(hs, arms, ds), Start) == hs
    ensures Issued(BenchCalls(hs, arms, ds), Stop) == hs
    ensures ReadsOf(BenchCalls(hs, arms, ds)) == StoppedOk(hs, ds)
    ensures RunCount(BenchCalls(hs, arms, ds)) == 1
  {
    ArmPhaseCounts(hs, arms);
    DisarmPhaseCounts(hs, ds);
    var a, d := ArmCalls(hs, arms), DisarmCalls(hs, ds);
    ProjectionsAppend(a, [RunWork]);
    ProjectionsAppend(a + [RunWork], d);
    assert Issued([RunWork], Reset) == [] && Issued([RunWork], Start) == [] && Issued([RunWork], Stop) == [];
    assert ReadsOf([RunWork]) == [] && RunCount([RunWork]) == 1;
  }

  lemma {:induction false} ArmPhaseCounts(hs: seq<Counter>, arms: seq<ArmOutcome>)
    requires |arms| == |hs|
    ensures Issued(ArmCalls(hs, arms), Reset) == hs && Issued(ArmCalls(hs, arms), Start) == hs
    ensures Issued(ArmCalls(hs, arms), Stop) == [] && ReadsOf(ArmCalls(hs, arms)) == []
    ensures RunCount(ArmCalls(hs, arms)) == 0
  {
    if hs != [] {
      var n := |hs| - 1;
      var h, arm := hs[n], arms[n];
      ArmPhaseCounts(hs[..n], arms[..n]);
      var pair := [Control(Reset, h, arm.resetOk), Control(Start, h, arm.startOk)];
      ProjectionsAppend(ArmCalls(hs[..n], arms[..n]), pair);
      ArmPairCounts(h, arm);
      assert hs == hs[..n] + [h];
    }
  }

  lemma DisarmCallsForCounts(h: Counter, d: DisarmOutcome)
    ensures Issued(DisarmCallsFor(h, d), Reset) == [] && Issued(DisarmCallsFor(h, d), Start) == []
    ensures Issued(DisarmCallsFor(h, d), Stop) == [h]
    ensures ReadsOf(DisarmCallsFor(h, d)) == if d.stopOk then [h] else []
    ensures RunCount(DisarmCallsFor(h, d)) == 0
  {
    var stop := Control(Stop, h, d.stopOk);
    ProjectionsOne(stop);
    if d.stopOk {
      var read := ReadValue(h, d.read);
      assert DisarmCallsFor(h, d) == [stop] + [read];
      ProjectionsAppend([stop], [read]);
      ProjectionsOne(read);
    } else {
      assert DisarmCallsFor(h, d) == [stop];
    }
  }

  lemma {:induction false} DisarmPhaseCounts(hs: seq<Counter>, ds: seq<DisarmOutcome>)
    requires |ds| == |hs|
    ensures Issued(DisarmCalls(hs, ds), Reset) == [] && Issued(DisarmCalls(hs, ds), Start) == []
    ensures Issued(DisarmCalls(hs, ds), Stop) == hs && ReadsOf(DisarmCalls(hs, ds)) == StoppedOk(hs, ds)
    ensures RunCount(DisarmCalls(hs, ds)) == 0
  {
    if hs != [] {
      var n := |hs| - 1;
      var h, d := hs[n], ds[n];
      DisarmPhaseCounts(hs[..n], ds[..n]);
      ProjectionsAppend(DisarmCalls(hs[..n], ds[..n]), DisarmCallsFor(h, d));
      DisarmCallsForCounts(h, d);
      assert hs == hs[..n] + [h];
    }
  }

  /** The measurement's call sequence: position `2 |hs|` is the closure, the
      resets and starts all come before it, the stops and reads all after it. */
  lemma BenchCallsShape(hs: seq<Counter>, arms: seq<ArmOutcome>, ds: seq<DisarmOutcome>)
    requires |arms| == |hs| && |ds| == |hs|
    ensures var t := BenchCalls(hs, arms, ds);
      2 * |hs| < |t| && t[2 * |hs|] == RunWork
      && (forall k | 0 <= k < 2 * |hs| :: t[k].Control? && t[k].action != Stop)
      && (forall k | 2 * |hs| < k < |t| :: (t[k].Control? && t[k].action == Stop) || t[k].ReadValue?)
  {
    var a, d := ArmCalls(hs, arms), DisarmCalls(hs, ds);
    ArmCallsLength(hs, arms);
    ArmCallsKinds(hs, arms);
    DisarmCallsKinds(hs, ds);
    var t := BenchCalls(hs, arms, ds);
    forall k | 0 <= k < 2 * |hs|
      ensures t[k].Control? && t[k].action != Stop
    {
      assert t[k] == a[k];
    }
    forall k | 2 * |hs| < k < |t|
      ensures (t[k].Control? && t[k].action == Stop) || t[k].ReadValue?
    {
      var j := k - |a| - 1;
      assert t[k] == d[j];
    }
  }

  /** With no counters a measurement is the closure and nothing else. */
  lemma BenchCallsEmpty()
    ensures BenchCalls([], [], []) == [RunWork]
  {
  }
}
