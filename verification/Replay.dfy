/** Whole runs of the paged cache against the simple thing it replaces: one growing sequence per lane. */
module Replays {
  import opened Arithmetic
  import opened Wrappers
  import opened Pools
  import opened Stores
  import opened PagedCaches
  import opened Decoders

  datatype CacheOp =
    | Append(slots: seq<nat>, rows: seq<seq<Row>>, seqLen: nat)
    | ResetLane(lane: nat)
    | ResetAll

  /** The cache's fixed capacity. */
  datatype Capacity = Capacity(blockSize: nat, usable: nat, maxSeqLen: nat)

  /** What a caller may ask: distinct lanes that exist, and the same number of rows for each. */
  ghost predicate WellFormed(op: CacheOp, laneCount: nat) {
    match op
    case Append(slots, rows, seqLen) =>
      && InRange(slots, laneCount) && Distinct(slots) && slots != [] && seqLen >= 1
      && |rows| == |slots| && forall j :: 0 <= j < |rows| ==> |rows[j]| == seqLen
    case _ => true
  }

  /** A round fits when every lane stays inside the window and all lanes, extended, inside the pool. */
  ghost predicate Fits(lanes: seq<seq<Row>>, c: Capacity, slots: seq<nat>, seqLen: nat)
    requires c.blockSize >= 1 && InRange(slots, |lanes|)
  {
    && (forall j :: 0 <= j < |slots| ==> |lanes[slots[j]]| + seqLen <= c.maxSeqLen)
    && Blocks(Advanced(Lengths(lanes), slots, seqLen), c.blockSize) <= c.usable
  }

  /** The simple thing: a lane grows by its rows, or is emptied; a round that does not fit changes
      nothing. */
  ghost function Simple(lanes: seq<seq<Row>>, c: Capacity, op: CacheOp): (r: seq<seq<Row>>)
    requires c.blockSize >= 1 && WellFormed(op, |lanes|)
    ensures |r| == |lanes|
  {
    match op
    case Append(slots, rows, seqLen) => if Fits(lanes, c, slots, seqLen) then Pushed(lanes, slots, rows) else lanes
    case ResetLane(lane) => if lane < |lanes| then lanes[lane := []] else lanes
    case ResetAll => seq(|lanes|, l => [])
  }

  ghost function SimpleRun(lanes: seq<seq<Row>>, c: Capacity, script: seq<CacheOp>): (r: seq<seq<Row>>)
    requires c.blockSize >= 1 && forall i :: 0 <= i < |script| ==> WellFormed(script[i], |lanes|)
    ensures |r| == |lanes|
  {
    if script == [] then lanes
    else Simple(SimpleRun(lanes, c, script[..|script| - 1]), c, script[|script| - 1])
  }

  ghost function CapacityOf(cache: PagedKvCache): Capacity {
    Capacity(cache.pool.blockSize, cache.pool.usable, cache.maxSeqLen)
  }

  /** The ledger in terms of the lanes it stands for. */
  lemma LedgerIsLanes(cache: PagedKvCache)
    requires cache.Valid()
    ensures cache.pool.blockSize >= 1 && |cache.lanes| == |cache.pool.lens| && cache.pool.lens == Lengths(cache.lanes)
    ensures |cache.pool.free| + Blocks(cache.pool.lens, cache.pool.blockSize) == cache.pool.usable
  {
    TablesHoldBlocks(cache.pool.tables, cache.pool.lens, cache.pool.blockSize);
  }

  /** The planner accepts exactly the rounds that fit. */
  lemma PlannerIsFits(cache: PagedKvCache, slots: seq<nat>, seqLen: nat)
    requires cache.Valid() && InRange(slots, |cache.lanes|) && Distinct(slots)
    ensures InRange(slots, |cache.pool.lens|) && cache.pool.blockSize >= 1
    ensures Fits(cache.lanes, CapacityOf(cache), slots, seqLen) <==>
      && (forall j :: 0 <= j < |slots| ==> cache.pool.lens[slots[j]] + seqLen <= cache.maxSeqLen)
      && RoundNeed(cache.pool.lens, cache.pool.blockSize, slots, seqLen) <= |cache.pool.free|
  {
    LedgerIsLanes(cache);
    hide PagedKvCache.Valid;
    NeedIsGrowth(cache.pool.lens, cache.pool.blockSize, slots, seqLen);
  }

  /** What prepare and write do together is what pushing rows does. */
  lemma AppendedIsPushed(before: seq<seq<Row>>, planned: seq<seq<Row>>, after: seq<seq<Row>>, slots: seq<nat>, rows: seq<seq<Row>>, starts: seq<nat>)
    requires InRange(slots, |before|) && Distinct(slots) && |rows| == |slots| == |starts| && |planned| == |after| == |before|
    requires forall l :: 0 <= l < |before| ==> before[l] <= planned[l] && (l !in slots ==> |planned[l]| == |before[l]|)
    requires forall j :: 0 <= j < |slots| ==> starts[j] == |before[slots[j]]|
    requires forall j :: 0 <= j < |rows| ==> starts[j] <= |planned[slots[j]]| && after[slots[j]] == planned[slots[j]][..starts[j]] + rows[j]
    requires forall l :: 0 <= l < |before| && l !in slots ==> after[l] == planned[l]
    ensures after == Pushed(before, slots, rows)
  {
    PushedAt(before, slots, rows);
    forall l | 0 <= l < |before|
      ensures after[l] == Pushed(before, slots, rows)[l]
    {
      if l in slots {
        var j :| 0 <= j < |slots| && slots[j] == l;
        assert planned[l][..starts[j]] == before[l];
      }
    }
  }

  /** A round: appended to every lane it names, or to none. */
  method AppendRound(cache: PagedKvCache, slots: seq<nat>, rows: seq<seq<Row>>, seqLen: nat)
    requires cache.Valid() && WellFormed(Append(slots, rows, seqLen), |cache.lanes|)
    modifies cache.pool, cache.store, cache`lanes
    ensures cache.Valid() && cache.pool.blockSize >= 1
    ensures cache.lanes == Simple(old(cache.lanes), CapacityOf(cache), Append(slots, rows, seqLen))
  {
    hide PagedKvCache.Valid, Fits, Pushed, Describes, RoundNeed, Shortfall, Advanced, StartsOf;
    LedgerIsLanes(cache);
    PlannerIsFits(cache, slots, seqLen);
    ghost var before := cache.lanes;
    var planned := cache.PrepareLanes(slots, seqLen);
    if planned.Success? {
      RoundAppends(cache, planned.value, before, rows, seqLen);
    }
  }

  /** The write half of a round. */
  method RoundAppends(cache: PagedKvCache, plan: LanePlan, ghost before: seq<seq<Row>>, rows: seq<seq<Row>>, seqLen: nat)
    requires cache.Valid() && Describes(plan, cache.pool.tables, cache.pool.lens, seqLen, cache.pool.blockSize)
    requires |before| == |cache.lanes| && WellFormed(Append(plan.lanes, rows, seqLen), |before|)
    requires plan.starts == StartsOf(Lengths(before), plan.lanes) && cache.pool.lens == Advanced(Lengths(before), plan.lanes, seqLen)
    requires forall l :: 0 <= l < |before| ==> before[l] <= cache.lanes[l]
    modifies cache.store, cache`lanes
    ensures cache.Valid() && cache.lanes == Pushed(before, plan.lanes, rows)
  {
    hide PagedKvCache.Valid, Pushed, Describes;
    LedgerIsLanes(cache);
    ghost var mid := cache.lanes;
    PlanShape(plan, cache.pool.tables, cache.pool.lens, seqLen, cache.pool.blockSize);
    forall l | 0 <= l < |before| && l !in plan.lanes
      ensures |mid[l]| == |before[l]|
    {
      assert Lengths(mid)[l] == Advanced(Lengths(before), plan.lanes, seqLen)[l];
    }
    cache.Write(plan, rows, seqLen);
    AppendedIsPushed(before, mid, cache.lanes, plan.lanes, rows, plan.starts);
  }

  /** One operation on the cache is one operation on plain sequences. */
  method Perform(cache: PagedKvCache, op: CacheOp)
    requires cache.Valid() && WellFormed(op, |cache.lanes|)
    modifies cache.pool, cache.store, cache`lanes
    ensures cache.Valid() && cache.pool.blockSize >= 1
    ensures cache.lanes == Simple(old(cache.lanes), CapacityOf(cache), op)
  {
    hide PagedKvCache.Valid, Fits, Pushed;
    LedgerIsLanes(cache);
    match op {
      case Append(slots, rows, seqLen) => AppendRound(cache, slots, rows, seqLen);
      case ResetLane(lane) => cache.ResetLane(lane);
      case ResetAll =>
        cache.Reset();
        assert cache.lanes == seq(|cache.lanes|, l => []);
    }
  }

  lemma PlanShape(plan: LanePlan, tables: seq<Table>, lens: seq<nat>, seqLen: nat, blockSize: nat)
    requires Describes(plan, tables, lens, seqLen, blockSize)
    ensures |plan.starts| == |plan.lanes|
  {
  }

  /** Over every run, whatever blocks were recycled and in whatever order, the cache holds for each lane
      exactly what was appended to it since its last reset. */
  method Replay(cache: PagedKvCache, script: seq<CacheOp>)
    requires cache.Valid() && forall i :: 0 <= i < |script| ==> WellFormed(script[i], |cache.lanes|)
    modifies cache.pool, cache.store, cache`lanes
    ensures cache.Valid() && cache.pool.blockSize >= 1
    ensures cache.lanes == SimpleRun(old(cache.lanes), CapacityOf(cache), script)
  {
    LedgerIsLanes(cache);
    hide PagedKvCache.Valid, Simple;
    for i := 0 to |script|
      invariant cache.Valid() && |cache.lanes| == |old(cache.lanes)|
      invariant cache.lanes == SimpleRun(old(cache.lanes), CapacityOf(cache), script[..i])
    {
      assert script[..i + 1][..i] == script[..i];
      Perform(cache, script[i]);
    }
    assert script[..|script|] == script;
  }
}
