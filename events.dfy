/** Event descriptors, their display names, and the cache event catalog
    (the cross product of cache unit, operation and outcome). */
module Events {

  /** The process id type of the source (`i32`). */
  newtype i32 = x: int | -0x8000_0000 <= x < 0x8000_0000

  /** The counter value type returned by a read (`u64`). */
  newtype u64 = x: int | 0 <= x < 0x1_0000_0000_0000_0000

  /** Cache units of the perf cache-event taxonomy. */
  datatype CacheId = L1D | L1I | LL | DTLB | ITLB | BPU | NODE

  /** Cache operations. */
  datatype CacheOpId = Read | Write | Prefetch

  /** Cache operation outcomes. */
  datatype CacheOpResultId = Access | Miss

  /** A hardware or software event kind, carried by its `Debug` rendering. */
  datatype HardwareEvent = HardwareEvent(debugName: string)
  datatype SoftwareEvent = SoftwareEvent(debugName: string)

  /** One event descriptor: what a single counter counts. */
  datatype Desc =
    | Hardware(hw: HardwareEvent)
    | Software(sw: SoftwareEvent)
    | Cache(id: CacheId, op: CacheOpId, res: CacheOpResultId)

  // ---------------------------------------------------------------------
  // Display names
  // ---------------------------------------------------------------------

  /** The delimiter between the three parts of a cache event name. */
  const Delimiter: char := '_'

  function CacheIdName(id: CacheId): (name: string)
    ensures |name| > 0 && Delimiter !in name
  {
    match id
    case L1D => "L1D"
    case L1I => "L1I"
    case LL => "LL"
    case DTLB => "DTLB"
    case ITLB => "ITLB"
    case BPU => "BPU"
    case NODE => "NODE"
  }

  function CacheOpName(op: CacheOpId): (name: string)
    ensures |name| > 0 && Delimiter !in name
  {
    match op
    case Read => "Read"
    case Write => "Write"
    case Prefetch => "Prefetch"
  }

  function CacheResName(res: CacheOpResultId): (name: string)
    ensures |name| > 0 && Delimiter !in name
  {
    match res
    case Access => "Access"
    case Miss => "Miss"
  }

  /** The name `id_op_res` given to a cache counter. */
  function CacheEventName(id: CacheId, op: CacheOpId, res: CacheOpResultId): (name: string)
    ensures FirstDelimiter(name) == |CacheIdName(id)| < |name| && name[..FirstDelimiter(name)] == CacheIdName(id)
  {
    var name := CacheIdName(id) + [Delimiter] + CacheOpName(op) + [Delimiter] + CacheResName(res);
    FirstDelimiterOfJoin(CacheIdName(id), CacheOpName(op) + [Delimiter] + CacheResName(res));
    assert name == CacheIdName(id) + [Delimiter] + (CacheOpName(op) + [Delimiter] + CacheResName(res));
    name
  }

  /** The name under which a counter for `d` is registered. */
  function EventName(d: Desc): (name: string)
    ensures d.Cache? ==> FirstDelimiter(name) == |CacheIdName(d.id)| < |name|
  {
    match d
    case Hardware(e) => e.debugName
    case Software(e) => e.debugName
    case Cache(id, op, res) => CacheEventName(id, op, res)
  }

  /** The position of the first delimiter in `s` (or `|s|` when there is none). */
  function FirstDelimiter(s: string): (k: nat)
    ensures k <= |s|
  {
    if s == [] then 0 else if s[0] == Delimiter then 0 else 1 + FirstDelimiter(s[1..])
  }

  /** In a word joined to the rest by the delimiter, the first delimiter is the joint. */
  lemma {:induction false} FirstDelimiterOfJoin(a: string, b: string)
    requires Delimiter !in a
    ensures FirstDelimiter(a + [Delimiter] + b) == |a|
  {
    if a != [] {
      assert (a + [Delimiter] + b)[1..] == a[1..] + [Delimiter] + b;
      FirstDelimiterOfJoin(a[1..], b);
    }
  }

  /** Joining two words with the delimiter can be undone when the first word
      holds no delimiter: the first delimiter marks the split. */
  lemma {:induction false} JoinInjective(a1: string, b1: string, a2: string, b2: string)
    requires Delimiter !in a1 && Delimiter !in a2
    requires a1 + [Delimiter] + b1 == a2 + [Delimiter] + b2
    ensures a1 == a2 && b1 == b2
  {
    var s := a1 + [Delimiter] + b1;
    FirstDelimiterOfJoin(a1, b1);
    FirstDelimiterOfJoin(a2, b2);
    assert a1 == s[..|a1|] == a2;
    assert b1 == s[|a1| + 1..] == b2;
  }

  /** The three parts of a name joined by two delimiters are determined by
      the name, when the first two parts hold no delimiter. */
  lemma {:induction false} Join3Injective(x1: string, y1: string, z1: string,
                                          x2: string, y2: string, z2: string)
    requires Delimiter !in x1 && Delimiter !in x2 && Delimiter !in y1 && Delimiter !in y2
    requires x1 + [Delimiter] + y1 + [Delimiter] + z1 == x2 + [Delimiter] + y2 + [Delimiter] + z2
    ensures x1 == x2 && y1 == y2 && z1 == z2
  {
    var t1 := y1 + [Delimiter] + z1;
    var t2 := y2 + [Delimiter] + z2;
    assert x1 + [Delimiter] + y1 + [Delimiter] + z1 == x1 + [Delimiter] + t1;
    assert x2 + [Delimiter] + y2 + [Delimiter] + z2 == x2 + [Delimiter] + t2;
    JoinInjective(x1, t1, x2, t2);
    JoinInjective(y1, z1, y2, z2);
  }

  /** Distinct cache triples get distinct names, and a name determines its triple. */
  lemma CacheEventNameInjective(id1: CacheId, op1: CacheOpId, res1: CacheOpResultId,
                                id2: CacheId, op2: CacheOpId, res2: CacheOpResultId)
    ensures CacheEventName(id1, op1, res1) == CacheEventName(id2, op2, res2)
        <==> id1 == id2 && op1 == op2 && res1 == res2
  {
    if CacheEventName(id1, op1, res1) == CacheEventName(id2, op2, res2) {
      Join3Injective(CacheIdName(id1), CacheOpName(op1), CacheResName(res1),
                     CacheIdName(id2), CacheOpName(op2), CacheResName(res2));
      CacheIdNameInjective(id1, id2);
      CacheOpNameInjective(op1, op2);
      CacheResNameInjective(res1, res2);
    }
  }

  lemma CacheIdNameInjective(a: CacheId, b: CacheId)
    requires CacheIdName(a) == CacheIdName(b)
    ensures a == b
  {
  }

  lemma CacheOpNameInjective(a: CacheOpId, b: CacheOpId)
    requires CacheOpName(a) == CacheOpName(b)
    ensures a == b
  {
  }

  lemma CacheResNameInjective(a: CacheOpResultId, b: CacheOpResultId)
    requires CacheResName(a) == CacheResName(b)
    ensures a == b
  {
  }

  /** A cache counter's name splits at its two delimiters into the unit,
      operation and outcome names. */
  lemma CacheNameHasTwoDelimiters(id: CacheId, op: CacheOpId, res: CacheOpResultId)
    ensures var n := CacheEventName(id, op, res);
      var i := |CacheIdName(id)|;
      var j := i + 1 + |CacheOpName(op)|;
      j + 1 < |n| && n[i] == Delimiter && n[j] == Delimiter
      && n[..i] == CacheIdName(id)
      && n[i + 1..j] == CacheOpName(op)
      && n[j + 1..] == CacheResName(res)
  {
    Join3Parts(CacheIdName(id), CacheOpName(op), CacheResName(res));
  }

  /** Where the parts of a three-part join sit. */
  lemma Join3Parts(x: string, y: string, z: string)
    requires |z| > 0
    ensures var n := x + [Delimiter] + y + [Delimiter] + z;
      var i := |x|;
      var j := i + 1 + |y|;
      j + 1 < |n| && n[i] == Delimiter && n[j] == Delimiter
      && n[..i] == x && n[i + 1..j] == y && n[j + 1..] == z
  {
    var n := x + [Delimiter] + y + [Delimiter] + z;
    var i := |x|;
    var j := i + 1 + |y|;
    assert n[..i] == x;
    assert n[i + 1..j] == y;
    assert n[j + 1..] == z;
  }

  // ---------------------------------------------------------------------
  // The cache catalog
  // ---------------------------------------------------------------------

  /** The cache operations iterated by the cross product, in order. */
  function AllCacheOps(): (ops: seq<CacheOpId>)
    ensures |ops| == 3 && Read in ops && Write in ops && Prefetch in ops
  {
    [Read, Write, Prefetch]
  }

  /** The cache outcomes iterated by the cross product, in order. */
  function AllCacheRes(): (rs: seq<CacheOpResultId>)
    ensures |rs| == 2 && Access in rs && Miss in rs
  {
    [Access, Miss]
  }

  /** `AllCacheOps` lists every operation exactly once. */
  lemma AllCacheOpsComplete(op: CacheOpId)
    ensures op in AllCacheOps()
    ensures forall j, k | 0 <= j < k < |AllCacheOps()| :: AllCacheOps()[j] != AllCacheOps()[k]
  {
    match op
    case Read => assert AllCacheOps()[0] == op;
    case Write => assert AllCacheOps()[1] == op;
    case Prefetch => assert AllCacheOps()[2] == op;
  }

  /** `AllCacheRes` lists every outcome exactly once. */
  lemma AllCacheResComplete(r: CacheOpResultId)
    ensures r in AllCacheRes()
    ensures forall j, k | 0 <= j < k < |AllCacheRes()| :: AllCacheRes()[j] != AllCacheRes()[k]
  {
    match r
    case Access => assert AllCacheRes()[0] == r;
    case Miss => assert AllCacheRes()[1] == r;
  }

  /** The descriptors for one unit and one operation, one per outcome in `rs`. */
  function ResEvents(id: CacheId, op: CacheOpId, rs: seq<CacheOpResultId>): seq<Desc>
  {
    if rs == [] then [] else [Cache(id, op, rs[0])] + ResEvents(id, op, rs[1..])
  }

  /** The descriptors for one unit: operations outer, outcomes inner. */
  function OpEvents(id: CacheId, ops: seq<CacheOpId>, rs: seq<CacheOpResultId>): seq<Desc>
  {
    if ops == [] then [] else ResEvents(id, ops[0], rs) + OpEvents(id, ops[1..], rs)
  }

  /** The cache cross product for `ids`: unit outer, operation middle, outcome inner. */
  function CacheMatrix(ids: seq<CacheId>): seq<Desc>
  {
    if ids == [] then [] else OpEvents(ids[0], AllCacheOps(), AllCacheRes()) + CacheMatrix(ids[1..])
  }

  /** The six descriptors of one unit, in the nested loop's order. */
  lemma UnitEvents(id: CacheId)
    ensures OpEvents(id, AllCacheOps(), AllCacheRes()) ==
      [Cache(id, Read, Access), Cache(id, Read, Miss),
       Cache(id, Write, Access), Cache(id, Write, Miss),
       Cache(id, Prefetch, Access), Cache(id, Prefetch, Miss)]
  {
    var ops, rs := AllCacheOps(), AllCacheRes();
    assert ops[1..][1..][1..] == [];
    assert rs[1..][1..] == [];
  }

  /** The cross product has six descriptors per unit. */
  lemma {:induction false} CacheMatrixLength(ids: seq<CacheId>)
    ensures |CacheMatrix(ids)| == 6 * |ids|
  {
    if ids != [] {
      UnitEvents(ids[0]);
      CacheMatrixLength(ids[1..]);
    }
  }

  /** Position `6 i + 2 j + l` of the cross product holds unit `i`,
      operation `j` and outcome `l`. */
  lemma {:induction false} CacheMatrixAt(ids: seq<CacheId>, i: nat, j: nat, l: nat)
    requires i < |ids| && j < 3 && l < 2
    ensures |CacheMatrix(ids)| == 6 * |ids|
    ensures CacheMatrix(ids)[6 * i + 2 * j + l] == Cache(ids[i], AllCacheOps()[j], AllCacheRes()[l])
  {
    CacheMatrixLength(ids);
    UnitEvents(ids[0]);
    if i > 0 {
      CacheMatrixAt(ids[1..], i - 1, j, l);
    }
  }

  /** A descriptor is in the cross product exactly when it is a cache
      descriptor for one of the units. */
  lemma {:induction false} CacheMatrixMembers(ids: seq<CacheId>, d: Desc)
    ensures d in CacheMatrix(ids) <==> d.Cache? && d.id in ids
  {
    if ids != [] {
      UnitEvents(ids[0]);
      CacheMatrixMembers(ids[1..], d);
      if d.Cache? && d.id == ids[0] {
        AllCacheOpsComplete(d.op);
        AllCacheResComplete(d.res);
      }
    }
  }

  /** The memory cache units, used by `with_all_mem_cache_events`. */
  function MemCacheUnits(): (ids: seq<CacheId>)
    ensures |CacheMatrix(ids)| == 24
  {
    CacheMatrixLength([L1D, L1I, LL, NODE]);
    [L1D, L1I, LL, NODE]
  }

  /** The TLB units, used by `with_all_tlb_cache_events`. */
  function TlbCacheUnits(): (ids: seq<CacheId>)
    ensures |CacheMatrix(ids)| == 6
  {
    CacheMatrixLength([DTLB]);
    [DTLB]
  }

  /** The branch prediction units, used by `with_all_branch_prediction_events`. */
  function BranchCacheUnits(): (ids: seq<CacheId>)
    ensures |CacheMatrix(ids)| == 6
  {
    CacheMatrixLength([BPU]);
    [BPU]
  }
}
