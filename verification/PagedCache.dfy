/** The paged KV cache: the ledger and the store together. `PrepareLanes` commits a round and
    describes it in one plan; `Write` fills the cells the plan names. Seen from outside, a lane is
    one growing sequence of rows. */
module PagedCaches {
  import opened Arithmetic
  import opened Wrappers
  import opened Pools
  import opened Stores

  datatype PagedKvError =
    | MaxSequenceLengthExceeded(actual: nat, max: nat)
    | OutOfBlocks(shortBy: nat)

  /** Everything one forward needs to know about where its lanes sit. */
  datatype LanePlan = LanePlan(
    lanes: seq<nat>,
    starts: seq<nat>,
    tables: seq<Table>,
    gatherIdx: seq<nat>,
    blocksPerLane: nat,
    writeIdx: seq<Address>,
    lMax: nat,
    lengths: seq<nat>,
    mask: seq<bool>)

  // ---- One truth: how the parts of a plan agree ----

  /** The mask's first `rows` query rows: query `r` of lane `j` is row `Flat(j, seqLen, r)`, and its
      column `c` is masked exactly when it lies past position `starts[j] + r`. */
  ghost predicate MaskRows(mask: seq<bool>, starts: seq<nat>, seqLen: nat, lMax: nat, rows: nat) {
    && |mask| == rows * lMax
    && forall j, r, c {:trigger Flat(Flat(j, seqLen, r), lMax, c)} ::
         0 <= j < |starts| && 0 <= r < seqLen && 0 <= c < lMax && Flat(j, seqLen, r) < rows ==>
         && Flat(Flat(j, seqLen, r), lMax, c) < |mask|
         && (mask[Flat(Flat(j, seqLen, r), lMax, c)] <==> c > starts[j] + r)
  }

  /** A table's `i`-th block, or the sentinel past its end. */
  function Padded(table: Table, i: nat): nat {
    if i < |table| then table[i] else SENTINEL_BLOCK
  }

  ghost predicate GatherRows(ids: seq<nat>, tables: seq<Table>, blocksPerLane: nat) {
    && |ids| == |tables| * blocksPerLane
    && forall j, i {:trigger Flat(j, blocksPerLane, i)} :: 0 <= j < |tables| && 0 <= i < blocksPerLane ==>
         && Flat(j, blocksPerLane, i) < |ids|
         && ids[Flat(j, blocksPerLane, i)] == Padded(tables[j], i)
  }

  function TablesOf(tables: seq<Table>, lanes: seq<nat>): (r: seq<Table>)
    requires InRange(lanes, |tables|)
    ensures |r| == |lanes|
  {
    seq(|lanes|, j requires 0 <= j < |lanes| => tables[lanes[j]])
  }

  /** The plan describes exactly the committed ledger: lengths, tables, gather index, write index and
      mask all come from the same `lens` and `tables`. */
  ghost predicate Describes(plan: LanePlan, tables: seq<Table>, lens: seq<nat>, seqLen: nat, blockSize: nat) {
    && blockSize >= 1 && seqLen >= 1 && plan.lanes != []
    && InRange(plan.lanes, |lens|) && |tables| == |lens| && Distinct(plan.lanes)
    && |plan.starts| == |plan.lengths| == |plan.lanes|
    && plan.tables == TablesOf(tables, plan.lanes)
    && (forall j :: 0 <= j < |plan.lanes| ==> plan.lengths[j] == plan.starts[j] + seqLen == lens[plan.lanes[j]])
    && (forall j :: 0 <= j < |plan.lanes| ==> plan.lengths[j] <= plan.lMax)
    && plan.lMax in plan.lengths
    && plan.blocksPerLane == CeilDiv(plan.lMax, blockSize)
    && GatherRows(plan.gatherIdx, plan.tables, plan.blocksPerLane)
    && Destinations(plan.writeIdx, plan.tables, plan.starts, seqLen, blockSize)
    && MaskRows(plan.mask, plan.starts, seqLen, plan.lMax, |plan.lanes| * seqLen)
  }

  // ---- Building a plan ----

  /** Causal and padding mask, `true` = masked: query `r` of a lane sees columns `0..=start + r`. */
  method BuildMask(starts: seq<nat>, seqLen: nat, lMax: nat) returns (mask: seq<bool>)
    ensures MaskRows(mask, starts, seqLen, lMax, |starts| * seqLen)
  {
    mask := [];
    ghost var q := 0;
    for j := 0 to |starts|
      invariant q == j * seqLen && MaskRows(mask, starts, seqLen, lMax, q)
    {
      for r := 0 to seqLen
        invariant q == Flat(j, seqLen, r) && MaskRows(mask, starts, seqLen, lMax, q)
      {
        ghost var before := mask;
        for c := 0 to lMax
          invariant |mask| == |before| + c && before <= mask
          invariant forall a :: |before| <= a < |mask| ==> (mask[a] <==> a - |before| > starts[j] + r)
        {
          mask := mask + [c > starts[j] + r];
        }
        MaskRowsGrow(before, mask, starts, seqLen, lMax, j, r);
        q := q + 1;
      }
    }
  }

  lemma MaskRowsGrow(before: seq<bool>, mask: seq<bool>, starts: seq<nat>, seqLen: nat, lMax: nat, j: nat, r: nat)
    requires j < |starts| && r < seqLen && MaskRows(before, starts, seqLen, lMax, Flat(j, seqLen, r))
    requires |mask| == |before| + lMax && before <= mask
    requires forall a :: |before| <= a < |mask| ==> (mask[a] <==> a - |before| > starts[j] + r)
    ensures MaskRows(mask, starts, seqLen, lMax, Flat(j, seqLen, r) + 1)
  {
    var q := Flat(j, seqLen, r);
    assert |mask| == (q + 1) * lMax;
    forall j', r', c {:trigger Flat(Flat(j', seqLen, r'), lMax, c)} |
        0 <= j' < |starts| && 0 <= r' < seqLen && 0 <= c < lMax && Flat(j', seqLen, r') < q + 1
      ensures Flat(Flat(j', seqLen, r'), lMax, c) < |mask|
      ensures mask[Flat(Flat(j', seqLen, r'), lMax, c)] <==> c > starts[j'] + r'
    {
      var q' := Flat(j', seqLen, r');
      FlatBound(q', q + 1, lMax, c);
      if q' < q {
        assert mask[Flat(q', lMax, c)] == before[Flat(q', lMax, c)];
      } else {
        FlatInjective(j', r', j, r, seqLen);
        assert Flat(q', lMax, c) == |before| + c;
      }
    }
  }

  /** Each lane's covering blocks padded with the sentinel, and each lane's length, in one pass. */
  method BuildAddressing(tables: seq<Table>, starts: seq<nat>, seqLen: nat, blocksPerLane: nat)
    returns (ids: seq<nat>, lengths: seq<nat>)
    requires |tables| == |starts|
    ensures GatherRows(ids, tables, blocksPerLane)
    ensures |lengths| == |starts| && forall j :: 0 <= j < |starts| ==> lengths[j] == starts[j] + seqLen
  {
    ids, lengths := [], [];
    for j := 0 to |tables|
      invariant GatherRows(ids, tables[..j], blocksPerLane)
      invariant |lengths| == j && forall k :: 0 <= k < j ==> lengths[k] == starts[k] + seqLen
    {
      ghost var before := ids;
      for i := 0 to blocksPerLane
        invariant |ids| == |before| + i && before <= ids
        invariant forall a :: |before| <= a < |ids| ==> ids[a] == Padded(tables[j], a - |before|)
      {
        ids := ids + [Padded(tables[j], i)];
      }
      GatherRowsGrow(before, ids, tables, j, blocksPerLane);
      lengths := lengths + [starts[j] + seqLen];
    }
    assert tables[..|tables|] == tables;
  }

  lemma GatherRowsGrow(before: seq<nat>, ids: seq<nat>, tables: seq<Table>, j: nat, blocksPerLane: nat)
    requires j < |tables| && GatherRows(before, tables[..j], blocksPerLane)
    requires |ids| == |before| + blocksPerLane && before <= ids
    requires forall a :: |before| <= a < |ids| ==> ids[a] == Padded(tables[j], a - |before|)
    ensures GatherRows(ids, tables[..j + 1], blocksPerLane)
  {
    assert |ids| == (j + 1) * blocksPerLane;
    forall l, i {:trigger Flat(l, blocksPerLane, i)} | 0 <= l < j + 1 && 0 <= i < blocksPerLane
      ensures Flat(l, blocksPerLane, i) < |ids|
      ensures ids[Flat(l, blocksPerLane, i)] == Padded(tables[..j + 1][l], i)
    {
      FlatBound(l, j + 1, blocksPerLane, i);
      if l < j {
        assert ids[Flat(l, blocksPerLane, i)] == before[Flat(l, blocksPerLane, i)];
      } else {
        assert Flat(l, blocksPerLane, i) == |before| + i;
      }
    }
  }

  method LongestLane(starts: seq<nat>, seqLen: nat) returns (lMax: nat)
    requires starts != []
    ensures forall j :: 0 <= j < |starts| ==> starts[j] + seqLen <= lMax
    ensures exists j :: 0 <= j < |starts| && starts[j] + seqLen == lMax
  {
    lMax := starts[0] + seqLen;
    for k := 1 to |starts|
      invariant forall j :: 0 <= j < k ==> starts[j] + seqLen <= lMax
      invariant exists j :: 0 <= j < k && starts[j] + seqLen == lMax
    {
      if starts[k] + seqLen > lMax {
        lMax := starts[k] + seqLen;
      }
    }
  }

  // ---- Reading through a plan ----

  /** Write zeros over the columns the plan's last query row masks. */
  function Neutralized(ragged: seq<seq<Row>>, mask: seq<bool>, seqLen: nat, lMax: nat): (r: seq<seq<Row>>)
    requires seqLen >= 1 && |mask| == |ragged| * seqLen * lMax
    requires forall j :: 0 <= j < |ragged| ==> |ragged[j]| == lMax
    ensures |r| == |ragged| && forall j :: 0 <= j < |r| ==> |r[j]| == lMax
  {
    seq(|ragged|, j requires 0 <= j < |ragged| =>
      seq(lMax, c requires 0 <= c < lMax =>
        (FlatBound(j, |ragged|, seqLen, seqLen - 1);
         FlatBound(Flat(j, seqLen, seqLen - 1), |ragged| * seqLen, lMax, c);
         if mask[Flat(Flat(j, seqLen, seqLen - 1), lMax, c)] then 0 else ragged[j][c])))
  }

  /** The last query row of lane `j` leaves exactly the columns `0..lengths[j]` unmasked. */
  lemma LastRowIsTheLength(plan: LanePlan, tables: seq<Table>, lens: seq<nat>, seqLen: nat, blockSize: nat, j: nat, c: nat)
    requires Describes(plan, tables, lens, seqLen, blockSize) && j < |plan.lanes| && c < plan.lMax
    ensures Flat(Flat(j, seqLen, seqLen - 1), plan.lMax, c) < |plan.mask|
    ensures plan.mask[Flat(Flat(j, seqLen, seqLen - 1), plan.lMax, c)] <==> c >= plan.lengths[j]
  {
    FlatBound(j, |plan.lanes|, seqLen, seqLen - 1);
  }

  function Zeros(n: nat): seq<Row> {
    seq(n, _ => 0)
  }

  /** Every lane as the tables address it. */
  ghost function AllRows(cells: Cells, tables: seq<Table>, lens: seq<nat>, blockSize: nat): (r: seq<seq<Row>>)
    requires AllCovered(cells, tables, lens, blockSize)
    ensures |r| == |lens| && forall lane :: 0 <= lane < |r| ==> |r[lane]| == lens[lane]
  {
    seq(|lens|, lane requires 0 <= lane < |lens| => LaneRows(cells, tables[lane], lens[lane], blockSize))
  }

  ghost predicate AllCovered(cells: Cells, tables: seq<Table>, lens: seq<nat>, blockSize: nat) {
    && Shaped(cells, |cells|, blockSize) && |tables| == |lens|
    && forall lane :: 0 <= lane < |lens| ==> Covers(tables[lane], lens[lane], |cells|, blockSize)
  }

  /** The first of the rest is the first of all, one further on. */
  lemma FirstShifts(lens: seq<nat>, lanes: seq<nat>, seqLen: nat, window: nat, over: nat)
    requires lanes != [] && InRange(lanes, |lens|) && lens[lanes[0]] + seqLen <= window
    ensures (exists i :: 0 <= i < |lanes[1..]| && over == lens[lanes[1..][i]] + seqLen > window && forall k :: 0 <= k < i ==> lens[lanes[1..][k]] + seqLen <= window) ==>
      exists i :: 0 <= i < |lanes| && over == lens[lanes[i]] + seqLen > window && forall k :: 0 <= k < i ==> lens[lanes[k]] + seqLen <= window
  {
    if i :| 0 <= i < |lanes[1..]| && over == lens[lanes[1..][i]] + seqLen > window && forall k :: 0 <= k < i ==> lens[lanes[1..][k]] + seqLen <= window {
      forall k | 0 <= k < i + 1
        ensures lens[lanes[k]] + seqLen <= window
      {
        assert k > 0 ==> lanes[k] == lanes[1..][k - 1];
      }
      assert over == lens[lanes[i + 1]] + seqLen;
    }
  }

  /** The length the first lane past the window would reach; zero when every lane stays inside. */
  ghost function TooLong(lens: seq<nat>, lanes: seq<nat>, seqLen: nat, window: nat): (over: nat)
    requires InRange(lanes, |lens|)
    ensures over > 0 <==> exists i :: 0 <= i < |lanes| && lens[lanes[i]] + seqLen > window
    ensures over > 0 ==> exists i :: 0 <= i < |lanes| && over == lens[lanes[i]] + seqLen > window && forall k :: 0 <= k < i ==> lens[lanes[k]] + seqLen <= window
  {
    if lanes == [] then 0
    else if lens[lanes[0]] + seqLen > window then lens[lanes[0]] + seqLen
    else
      assert forall i :: 1 <= i < |lanes| ==> lanes[i] == lanes[1..][i - 1];
      var over := TooLong(lens, lanes[1..], seqLen, window);
      FirstShifts(lens, lanes, seqLen, window, over);
      over
  }

  class PagedKvCache {
    const pool: BlockPool
    const store: BlockStore
    const maxSeqLen: nat
    /** The plain sequences the paging stands for, one per lane. */
    ghost var lanes: seq<seq<Row>>

    ghost predicate Valid()
      reads this, pool, store
    {
      && pool.Valid() && store.Valid()
      && store.blockSize == pool.blockSize <= maxSeqLen
      && pool.usable < store.numBlocks
      && (forall lane :: 0 <= lane < |pool.lens| ==> pool.lens[lane] <= maxSeqLen)
      && store.cells[SENTINEL_BLOCK] == Zeros(pool.blockSize)
      && AllCovered(store.cells, pool.tables, pool.lens, pool.blockSize)
      && lanes == AllRows(store.cells, pool.tables, pool.lens, pool.blockSize)
    }

    constructor (maxSeqLen: nat, maxLanes: nat, blockSize: nat, usableBlocks: nat, garbage: Cells)
      requires 1 <= blockSize <= maxSeqLen && usableBlocks >= 1
      requires Shaped(garbage, usableBlocks + 1, blockSize)
      ensures Valid() && fresh(pool) && fresh(store)
      ensures this.maxSeqLen == maxSeqLen && pool.blockSize == blockSize
      ensures lanes == seq(maxLanes, _ => [])
      ensures usableBlocks + 1 < U32 ==> pool.usable == usableBlocks
    {
      var ledger := new BlockPool(blockSize, usableBlocks + 1, maxLanes);
      pool := ledger;
      store := new BlockStore(usableBlocks + 1, blockSize, garbage);
      this.maxSeqLen := maxSeqLen;
      lanes := seq(maxLanes, _ => []);
      new;
      assert store.cells[SENTINEL_BLOCK] == Zeros(pool.blockSize);
      TablesCover(pool.free, pool.tables, pool.lens, pool.usable, pool.blockSize, store.numBlocks);
      assert forall lane :: 0 <= lane < maxLanes ==> LaneRows(store.cells, pool.tables[lane], pool.lens[lane], pool.blockSize) == [];
    }

    /** Plan one forward of `seqLen` tokens over distinct lanes, and commit it in the ledger. */
    method PrepareLanes(slots: seq<nat>, seqLen: nat) returns (r: Result<LanePlan, PagedKvError>)
      requires Valid() && InRange(slots, |pool.lens|) && Distinct(slots) && slots != [] && seqLen >= 1
      modifies pool, this`lanes
      ensures Valid() && |lanes| == |old(lanes)|
      ensures r.Success? <==>
        && (forall i :: 0 <= i < |slots| ==> old(pool.lens)[slots[i]] + seqLen <= maxSeqLen)
        && RoundNeed(old(pool.lens), pool.blockSize, slots, seqLen) <= |old(pool.free)|
      ensures r.Success? ==>
        && pool.lens == Advanced(old(pool.lens), slots, seqLen)
        && r.value.lanes == slots && r.value.starts == StartsOf(old(pool.lens), slots)
        && Describes(r.value, pool.tables, pool.lens, seqLen, pool.blockSize)
        && forall lane :: 0 <= lane < |lanes| ==> old(lanes)[lane] <= lanes[lane]
      ensures r.Failure? ==>
        && pool.lens == old(pool.lens) && pool.tables == old(pool.tables)
        && multiset(pool.free) == multiset(old(pool.free)) && lanes == old(lanes)
        && (r.error.MaxSequenceLengthExceeded? <==>
              exists i :: 0 <= i < |slots| && old(pool.lens)[slots[i]] + seqLen > maxSeqLen)
        && (r.error.MaxSequenceLengthExceeded? ==>
              r.error.actual == TooLong(pool.lens, slots, seqLen, maxSeqLen) && r.error.max == maxSeqLen)
        && (r.error.OutOfBlocks? ==>
              r.error.shortBy == Shortfall(pool.lens, pool.blockSize, slots, seqLen, |old(pool.free)|))
    {
      var tooLong := FindTooLong(slots, seqLen);
      if tooLong.Some? {
        return Failure(MaxSequenceLengthExceeded(tooLong.value, maxSeqLen));
      }
      var committed := Commit(slots, seqLen);
      if committed.Failure? {
        return Failure(OutOfBlocks(committed.error.shortBy));
      }
      var plan := DescribeRound(slots, committed.value, seqLen);
      r := Success(plan);
    }

    /** The length the first lane past the window would reach, if any. */
    method FindTooLong(slots: seq<nat>, seqLen: nat) returns (r: Option<nat>)
      requires InRange(slots, |pool.lens|)
      ensures r.None? <==> forall i :: 0 <= i < |slots| ==> pool.lens[slots[i]] + seqLen <= maxSeqLen
      ensures r.Some? ==> r.value == TooLong(pool.lens, slots, seqLen, maxSeqLen) > maxSeqLen
    {
      assert slots[0..] == slots;
      for i := 0 to |slots|
        invariant TooLong(pool.lens, slots[i..], seqLen, maxSeqLen) == TooLong(pool.lens, slots, seqLen, maxSeqLen)
        invariant forall k :: 0 <= k < i ==> pool.lens[slots[k]] + seqLen <= maxSeqLen
      {
        assert slots[i..][1..] == slots[i + 1..];
        if pool.lens[slots[i]] + seqLen > maxSeqLen {
          return Some(pool.lens[slots[i]] + seqLen);
        }
      }
      r := None;
    }

    /** The ledger half: begin the round, and see that nothing a lane holds has moved. */
    method Commit(slots: seq<nat>, seqLen: nat) returns (r: Result<seq<nat>, PoolExhausted>)
      requires Valid() && InRange(slots, |pool.lens|) && Distinct(slots)
      requires forall i :: 0 <= i < |slots| ==> pool.lens[slots[i]] + seqLen <= maxSeqLen
      modifies pool, this`lanes
      ensures Valid() && |lanes| == |old(lanes)|
      ensures r.Success? <==> RoundNeed(old(pool.lens), pool.blockSize, slots, seqLen) <= |old(pool.free)|
      ensures r.Success? ==>
        && pool.lens == Advanced(old(pool.lens), slots, seqLen)
        && r.value == StartsOf(old(pool.lens), slots)
        && forall lane :: 0 <= lane < |lanes| ==> old(lanes)[lane] <= lanes[lane]
      ensures r.Failure? ==>
        && pool.lens == old(pool.lens) && pool.tables == old(pool.tables)
        && multiset(pool.free) == multiset(old(pool.free)) && lanes == old(lanes)
        && r.error.shortBy == Shortfall(pool.lens, pool.blockSize, slots, seqLen, |old(pool.free)|)
    {
      r := pool.BeginRound(slots, seqLen);
      TablesCover(pool.free, pool.tables, pool.lens, pool.usable, pool.blockSize, store.numBlocks);
      if r.Success? {
        HistoryKept(store.cells, old(pool.tables), old(pool.lens), pool.tables, pool.lens, pool.blockSize);
        lanes := AllRows(store.cells, pool.tables, pool.lens, pool.blockSize);
      }
    }

    /** The description half: nothing here changes the ledger. */
    method DescribeRound(slots: seq<nat>, starts: seq<nat>, seqLen: nat) returns (plan: LanePlan)
      requires Valid() && InRange(slots, |pool.lens|) && Distinct(slots) && slots != [] && seqLen >= 1
      requires |starts| == |slots| && forall j :: 0 <= j < |slots| ==> starts[j] + seqLen == pool.lens[slots[j]]
      ensures plan.lanes == slots && plan.starts == starts
      ensures Describes(plan, pool.tables, pool.lens, seqLen, pool.blockSize)
    {
      var lMax := LongestLane(starts, seqLen);
      var mask := BuildMask(starts, seqLen, lMax);
      var tables := TablesOf(pool.tables, slots);
      var blocksPerLane := CeilDiv(lMax, pool.blockSize);
      var ids, lengths := BuildAddressing(tables, starts, seqLen, blocksPerLane);
      var writeIdx := WriteIndices(tables, starts, seqLen, pool.blockSize);
      plan := LanePlan(slots, starts, tables, ids, blocksPerLane, writeIdx, lMax, lengths, mask);
      var j :| 0 <= j < |starts| && starts[j] + seqLen == lMax;
      assert lengths[j] == lMax;
    }

    /** Scatter the round's rows, lane-major, into the cells the plan names: each of its lanes keeps
        its history and gains its rows, and no other lane sees anything. */
    method Write(plan: LanePlan, rows: seq<seq<Row>>, seqLen: nat)
      requires Valid() && Describes(plan, pool.tables, pool.lens, seqLen, pool.blockSize)
      requires |rows| == |plan.lanes| && forall j :: 0 <= j < |rows| ==> |rows[j]| == seqLen
      modifies store, this`lanes
      ensures Valid() && |lanes| == |old(lanes)|
      ensures forall j :: 0 <= j < |rows| ==>
        && plan.starts[j] <= |old(lanes)[plan.lanes[j]]|
        && lanes[plan.lanes[j]] == old(lanes)[plan.lanes[j]][..plan.starts[j]] + rows[j]
      ensures forall lane :: 0 <= lane < |lanes| && lane !in plan.lanes ==> lanes[lane] == old(lanes)[lane]
    {
      var flat := FlattenRows(rows, seqLen);
      ghost var cells0 := store.cells;
      DestinationsDistinct(plan, pool.free, pool.tables, pool.lens, pool.usable, seqLen, pool.blockSize, store.numBlocks);
      store.Write(plan.writeIdx, flat);
      SentinelUntouched(plan, cells0, store.cells, flat, pool.free, pool.tables, pool.lens, pool.usable, seqLen, pool.blockSize);
      RoundReadsBack(plan, cells0, store.cells, rows, flat, pool.free, pool.tables, pool.lens, pool.usable, seqLen, pool.blockSize);
      lanes := AllRows(store.cells, pool.tables, pool.lens, pool.blockSize);
    }

    /** Every lane of the plan, gathered in whole blocks and trimmed to the longest. */
    function Gather(plan: LanePlan, seqLen: nat): (ragged: seq<seq<Row>>)
      requires Valid() && Describes(plan, pool.tables, pool.lens, seqLen, pool.blockSize)
      reads this, pool, store
      ensures |ragged| == |plan.lanes| && forall j :: 0 <= j < |ragged| ==> |ragged[j]| == plan.lMax
    {
      GatherShape(plan, pool.tables, pool.lens, seqLen, pool.blockSize, store.numBlocks);
      store.Gather(plan.gatherIdx, plan.blocksPerLane, plan.lMax)
    }

    /** A lane's columns of the gathered scratch, up to its length, are the lane. */
    lemma GatherReadsLane(plan: LanePlan, seqLen: nat, j: nat)
      requires Valid() && Describes(plan, pool.tables, pool.lens, seqLen, pool.blockSize) && j < |plan.lanes|
      ensures plan.lengths[j] <= plan.lMax && plan.lanes[j] < |lanes|
      ensures Gather(plan, seqLen)[j][..plan.lengths[j]] == lanes[plan.lanes[j]]
    {
      var lane := plan.lanes[j];
      GatherShape(plan, pool.tables, pool.lens, seqLen, pool.blockSize, store.numBlocks);
      forall c | 0 <= c < plan.lengths[j]
        ensures Gather(plan, seqLen)[j][c] == lanes[lane][c]
      {
        LaneRowsAt(store.cells, pool.tables[lane], pool.lens[lane], pool.blockSize, c);
        GatheredColumn(plan, pool.tables, pool.lens, seqLen, pool.blockSize, store.numBlocks, j, c);
      }
    }

    /** The gathered, neutralized scratch of a lane is the lane followed by zeros, whatever the
        never-written cells hold. */
    lemma NeutralizedIsLaneThenZeros(plan: LanePlan, seqLen: nat, j: nat)
      requires Valid() && Describes(plan, pool.tables, pool.lens, seqLen, pool.blockSize) && j < |plan.lanes|
      ensures plan.lengths[j] <= plan.lMax && plan.lanes[j] < |lanes|
      ensures |plan.mask| == |plan.lanes| * seqLen * plan.lMax
      ensures Neutralized(Gather(plan, seqLen), plan.mask, seqLen, plan.lMax)[j]
           == lanes[plan.lanes[j]] + Zeros(plan.lMax - plan.lengths[j])
    {
      var ragged := Gather(plan, seqLen);
      GatherReadsLane(plan, seqLen, j);
      forall c | 0 <= c < plan.lMax
        ensures Neutralized(ragged, plan.mask, seqLen, plan.lMax)[j][c]
             == if c < plan.lengths[j] then ragged[j][c] else 0
      {
        LastRowIsTheLength(plan, pool.tables, pool.lens, seqLen, pool.blockSize, j, c);
      }
      assert ragged[j][..plan.lengths[j]] == lanes[plan.lanes[j]];
    }

    /** Free one lane; a lane past the ledger is ignored. */
    method ResetLane(lane: nat)
      requires Valid()
      modifies pool, this`lanes
      ensures Valid()
      ensures lanes == if lane < |old(lanes)| then old(lanes)[lane := []] else old(lanes)
    {
      if lane >= |pool.lens| {
        return;
      }
      pool.FreeLane(lane);
      lanes := lanes[lane := []];
      TablesCover(pool.free, pool.tables, pool.lens, pool.usable, pool.blockSize, store.numBlocks);
      assert lanes == AllRows(store.cells, pool.tables, pool.lens, pool.blockSize);
    }

    method Reset()
      requires Valid()
      modifies pool, this`lanes
      ensures Valid() && lanes == seq(|old(lanes)|, _ => [])
    {
      for lane := 0 to |pool.lens|
        invariant Valid() && |lanes| == |old(lanes)|
        invariant forall k :: 0 <= k < lane ==> lanes[k] == []
      {
        ResetLane(lane);
      }
    }
  }

  // ---- Why a committed round is safe to write ----

  lemma TablesCover(free: seq<nat>, tables: seq<Table>, lens: seq<nat>, usable: nat, blockSize: nat, numBlocks: nat)
    requires Partitioned(free, tables, usable) && usable < numBlocks && blockSize >= 1 && |tables| == |lens|
    requires forall lane :: 0 <= lane < |lens| ==> |tables[lane]| == CeilDiv(lens[lane], blockSize)
    ensures forall lane :: 0 <= lane < |lens| ==> Covers(tables[lane], lens[lane], numBlocks, blockSize)
  {
    forall lane, i | 0 <= lane < |lens| && 0 <= i < |tables[lane]|
      ensures tables[lane][i] < numBlocks
    {
      NoSharing(free, tables, usable, lane, i, lane, i);
    }
  }

  /** Growing the tables moves nothing a lane already holds. */
  lemma HistoryKept(cells: Cells, tables0: seq<Table>, lens0: seq<nat>, tables: seq<Table>, lens: seq<nat>, blockSize: nat)
    requires AllCovered(cells, tables0, lens0, blockSize) && AllCovered(cells, tables, lens, blockSize)
    requires |lens0| == |lens|
    requires forall lane :: 0 <= lane < |lens| ==> lens0[lane] <= lens[lane] && tables0[lane] <= tables[lane]
    ensures forall lane :: 0 <= lane < |lens| ==>
      AllRows(cells, tables0, lens0, blockSize)[lane] <= AllRows(cells, tables, lens, blockSize)[lane]
  {
    forall lane, p | 0 <= lane < |lens| && 0 <= p < lens0[lane]
      ensures LaneRows(cells, tables0[lane], lens0[lane], blockSize)[p] == LaneRows(cells, tables[lane], lens[lane], blockSize)[p]
    {
      LaneRowsAt(cells, tables0[lane], lens0[lane], blockSize, p);
      LaneRowsAt(cells, tables[lane], lens[lane], blockSize, p);
    }
  }

  /** The `k`-th write of a round is position `starts[j] + r` of lane `lanes[j]`. */
  lemma WriteAt(plan: LanePlan, tables: seq<Table>, lens: seq<nat>, seqLen: nat, blockSize: nat, k: nat) returns (j: nat, p: nat)
    requires Describes(plan, tables, lens, seqLen, blockSize) && k < |plan.writeIdx|
    requires forall lane :: 0 <= lane < |lens| ==> |tables[lane]| == CeilDiv(lens[lane], blockSize)
    ensures j < |plan.lanes| && plan.starts[j] <= p < plan.lengths[j] && k == Flat(j, seqLen, p - plan.starts[j])
    ensures p / blockSize < |tables[plan.lanes[j]]|
    ensures plan.writeIdx[k] == AddressOf(tables[plan.lanes[j]], p, blockSize)
  {
    FlatSplit(k, |plan.lanes|, seqLen);
    j, p := k / seqLen, plan.starts[k / seqLen] + k % seqLen;
    assert plan.writeIdx[Flat(j, seqLen, k % seqLen)] == Destination(plan.tables[j], plan.starts[j], k % seqLen, blockSize);
    PositionInBlocks(p, plan.lengths[j], blockSize);
  }

  /** One round's destinations are pairwise distinct, in bounds, and never in the sentinel block. */
  lemma DestinationsDistinct(plan: LanePlan, free: seq<nat>, tables: seq<Table>, lens: seq<nat>, usable: nat, seqLen: nat, blockSize: nat, numBlocks: nat)
    requires Describes(plan, tables, lens, seqLen, blockSize) && Partitioned(free, tables, usable) && usable < numBlocks
    requires forall lane :: 0 <= lane < |lens| ==> |tables[lane]| == CeilDiv(lens[lane], blockSize)
    ensures Distinct(plan.writeIdx)
    ensures forall k :: 0 <= k < |plan.writeIdx| ==>
      InStore(plan.writeIdx[k], numBlocks, blockSize) && plan.writeIdx[k].0 != SENTINEL_BLOCK
  {
    forall k | 0 <= k < |plan.writeIdx|
      ensures InStore(plan.writeIdx[k], numBlocks, blockSize) && plan.writeIdx[k].0 != SENTINEL_BLOCK
    {
      var j, p := WriteAt(plan, tables, lens, seqLen, blockSize, k);
      NoSharing(free, tables, usable, plan.lanes[j], p / blockSize, plan.lanes[j], p / blockSize);
    }
    forall k, k' | 0 <= k < k' < |plan.writeIdx|
      ensures plan.writeIdx[k] != plan.writeIdx[k']
    {
      TwoWrites(plan, free, tables, lens, usable, seqLen, blockSize, k, k');
    }
  }

  lemma TwoWrites(plan: LanePlan, free: seq<nat>, tables: seq<Table>, lens: seq<nat>, usable: nat, seqLen: nat, blockSize: nat, k: nat, k': nat)
    requires Describes(plan, tables, lens, seqLen, blockSize) && Partitioned(free, tables, usable)
    requires forall lane :: 0 <= lane < |lens| ==> |tables[lane]| == CeilDiv(lens[lane], blockSize)
    requires k < k' < |plan.writeIdx|
    ensures plan.writeIdx[k] != plan.writeIdx[k']
  {
    var j, p := WriteAt(plan, tables, lens, seqLen, blockSize, k);
    var j', p' := WriteAt(plan, tables, lens, seqLen, blockSize, k');
    AddressesAreDistinct(free, tables, usable, blockSize, plan.lanes[j], p, plan.lanes[j'], p');
    if plan.writeIdx[k] == plan.writeIdx[k'] {
      SameLane(plan.lanes, j, j');
    }
  }

  lemma SameLane(lanes: seq<nat>, j: nat, j': nat)
    requires Distinct(lanes) && j < |lanes| && j' < |lanes| && lanes[j] == lanes[j']
    ensures j == j'
  {
  }

  /** A round writes no cell that holds an earlier position of any lane, in the round or not. */
  lemma HistoryNotOverwritten(plan: LanePlan, free: seq<nat>, tables: seq<Table>, lens: seq<nat>, usable: nat, seqLen: nat, blockSize: nat, lane: nat, p: nat)
    requires Describes(plan, tables, lens, seqLen, blockSize) && Partitioned(free, tables, usable)
    requires forall l :: 0 <= l < |lens| ==> |tables[l]| == CeilDiv(lens[l], blockSize)
    requires lane < |lens| && p < lens[lane]
    requires forall j :: 0 <= j < |plan.lanes| && plan.lanes[j] == lane ==> p < plan.starts[j]
    ensures p / blockSize < |tables[lane]|
    ensures AddressOf(tables[lane], p, blockSize) !in plan.writeIdx
  {
    PositionInBlocks(p, lens[lane], blockSize);
    var a := AddressOf(tables[lane], p, blockSize);
    if a in plan.writeIdx {
      var k :| 0 <= k < |plan.writeIdx| && plan.writeIdx[k] == a;
      var j, p' := WriteAt(plan, tables, lens, seqLen, blockSize, k);
      AddressesAreDistinct(free, tables, usable, blockSize, lane, p, plan.lanes[j], p');
      assert false;
    }
  }

  /** Lane-major rows: the flat order the scatter consumes. */
  method FlattenRows(rows: seq<seq<Row>>, seqLen: nat) returns (flat: seq<Row>)
    requires forall j :: 0 <= j < |rows| ==> |rows[j]| == seqLen
    ensures LaneMajor(flat, rows, seqLen)
  {
    flat := [];
    for j := 0 to |rows|
      invariant LaneMajor(flat, rows[..j], seqLen)
    {
      ghost var before := flat;
      flat := flat + rows[j];
      assert |flat| == (j + 1) * seqLen;
      forall i, r {:trigger Flat(i, seqLen, r)} | 0 <= i < j + 1 && 0 <= r < seqLen
        ensures Flat(i, seqLen, r) < |flat| && flat[Flat(i, seqLen, r)] == rows[i][r]
      {
        FlatBound(i, j + 1, seqLen, r);
        if i < j {
          assert flat[Flat(i, seqLen, r)] == before[Flat(i, seqLen, r)] == rows[..j][i][r];
        } else {
          assert Flat(i, seqLen, r) == |before| + r;
        }
      }
    }
    assert rows[..|rows|] == rows;
  }

  ghost predicate LaneMajor(flat: seq<Row>, rows: seq<seq<Row>>, seqLen: nat) {
    && |flat| == |rows| * seqLen
    && forall j, r {:trigger Flat(j, seqLen, r)} :: 0 <= j < |rows| && 0 <= r < seqLen && r < |rows[j]| ==>
         Flat(j, seqLen, r) < |flat| && flat[Flat(j, seqLen, r)] == rows[j][r]
  }

  /** What the three read-back facts below share: a committed round, scattered. */
  ghost predicate RoundWritten(plan: LanePlan, before: Cells, after: Cells, flat: seq<Row>, free: seq<nat>, tables: seq<Table>, lens: seq<nat>, usable: nat, seqLen: nat, blockSize: nat) {
    && Describes(plan, tables, lens, seqLen, blockSize) && Partitioned(free, tables, usable) && usable < |before|
    && (forall lane :: 0 <= lane < |lens| ==> |tables[lane]| == CeilDiv(lens[lane], blockSize))
    && Shaped(before, |before|, blockSize) && Shaped(after, |before|, blockSize)
    && (forall lane :: 0 <= lane < |lens| ==> Covers(tables[lane], lens[lane], |before|, blockSize))
    && |flat| == |plan.writeIdx| && Scattered(before, after, plan.writeIdx, flat)
  }

  lemma SentinelUntouched(plan: LanePlan, before: Cells, after: Cells, flat: seq<Row>, free: seq<nat>, tables: seq<Table>, lens: seq<nat>, usable: nat, seqLen: nat, blockSize: nat)
    requires RoundWritten(plan, before, after, flat, free, tables, lens, usable, seqLen, blockSize)
    ensures after[SENTINEL_BLOCK] == before[SENTINEL_BLOCK]
  {
    DestinationsDistinct(plan, free, tables, lens, usable, seqLen, blockSize, |before|);
    forall o | 0 <= o < blockSize
      ensures after[SENTINEL_BLOCK][o] == before[SENTINEL_BLOCK][o]
    {
      assert (SENTINEL_BLOCK, o) !in plan.writeIdx;
    }
  }

  lemma UnwrittenPosition(plan: LanePlan, before: Cells, after: Cells, flat: seq<Row>, free: seq<nat>, tables: seq<Table>, lens: seq<nat>, usable: nat, seqLen: nat, blockSize: nat, lane: nat, p: nat)
    requires RoundWritten(plan, before, after, flat, free, tables, lens, usable, seqLen, blockSize)
    requires lane < |lens| && p < lens[lane]
    requires forall j :: 0 <= j < |plan.lanes| && plan.lanes[j] == lane ==> p < plan.starts[j]
    ensures LaneRows(after, tables[lane], lens[lane], blockSize)[p] == LaneRows(before, tables[lane], lens[lane], blockSize)[p]
  {
    HistoryNotOverwritten(plan, free, tables, lens, usable, seqLen, blockSize, lane, p);
    LaneRowsAt(before, tables[lane], lens[lane], blockSize, p);
    LaneRowsAt(after, tables[lane], lens[lane], blockSize, p);
    PositionCovered(tables[lane], lens[lane], |before|, blockSize, p);
  }

  lemma OtherLane(plan: LanePlan, before: Cells, after: Cells, flat: seq<Row>, free: seq<nat>, tables: seq<Table>, lens: seq<nat>, usable: nat, seqLen: nat, blockSize: nat, lane: nat)
    requires RoundWritten(plan, before, after, flat, free, tables, lens, usable, seqLen, blockSize)
    requires lane < |lens| && lane !in plan.lanes
    ensures LaneRows(after, tables[lane], lens[lane], blockSize) == LaneRows(before, tables[lane], lens[lane], blockSize)
  {
    forall p | 0 <= p < lens[lane]
      ensures LaneRows(after, tables[lane], lens[lane], blockSize)[p] == LaneRows(before, tables[lane], lens[lane], blockSize)[p]
    {
      UnwrittenPosition(plan, before, after, flat, free, tables, lens, usable, seqLen, blockSize, lane, p);
    }
  }

  lemma WrittenLane(plan: LanePlan, before: Cells, after: Cells, rows: seq<seq<Row>>, flat: seq<Row>, free: seq<nat>, tables: seq<Table>, lens: seq<nat>, usable: nat, seqLen: nat, blockSize: nat, j: nat)
    requires RoundWritten(plan, before, after, flat, free, tables, lens, usable, seqLen, blockSize)
    requires |rows| == |plan.lanes| && j < |rows| && |rows[j]| == seqLen && LaneMajor(flat, rows, seqLen)
    ensures plan.starts[j] <= lens[plan.lanes[j]]
    ensures var lane := plan.lanes[j];
      LaneRows(after, tables[lane], lens[lane], blockSize)
      == LaneRows(before, tables[lane], lens[lane], blockSize)[..plan.starts[j]] + rows[j]
  {
    var lane, start := plan.lanes[j], plan.starts[j];
    var now := LaneRows(after, tables[lane], lens[lane], blockSize);
    forall p | 0 <= p < start
      ensures now[p] == LaneRows(before, tables[lane], lens[lane], blockSize)[p]
    {
      UnwrittenPosition(plan, before, after, flat, free, tables, lens, usable, seqLen, blockSize, lane, p);
    }
    forall r | 0 <= r < seqLen
      ensures now[start + r] == rows[j][r]
    {
      var k := Flat(j, seqLen, r);
      FlatBound(j, |plan.lanes|, seqLen, r);
      LaneRowsAt(after, tables[lane], lens[lane], blockSize, start + r);
      assert plan.writeIdx[k] == AddressOf(tables[lane], start + r, blockSize);
      assert flat[k] == rows[j][r];
    }
  }

  /** The whole effect of a written round on the lanes. */
  lemma RoundReadsBack(plan: LanePlan, before: Cells, after: Cells, rows: seq<seq<Row>>, flat: seq<Row>, free: seq<nat>, tables: seq<Table>, lens: seq<nat>, usable: nat, seqLen: nat, blockSize: nat)
    requires RoundWritten(plan, before, after, flat, free, tables, lens, usable, seqLen, blockSize)
    requires |rows| == |plan.lanes| && LaneMajor(flat, rows, seqLen)
    requires forall j :: 0 <= j < |rows| ==> |rows[j]| == seqLen
    ensures AllCovered(before, tables, lens, blockSize) && AllCovered(after, tables, lens, blockSize)
    ensures forall j :: 0 <= j < |rows| ==>
      && plan.starts[j] <= lens[plan.lanes[j]]
      && AllRows(after, tables, lens, blockSize)[plan.lanes[j]]
         == AllRows(before, tables, lens, blockSize)[plan.lanes[j]][..plan.starts[j]] + rows[j]
    ensures forall lane :: 0 <= lane < |lens| && lane !in plan.lanes ==>
      AllRows(after, tables, lens, blockSize)[lane] == AllRows(before, tables, lens, blockSize)[lane]
  {
    forall j | 0 <= j < |rows|
      ensures plan.starts[j] <= lens[plan.lanes[j]]
      ensures AllRows(after, tables, lens, blockSize)[plan.lanes[j]]
           == AllRows(before, tables, lens, blockSize)[plan.lanes[j]][..plan.starts[j]] + rows[j]
    {
      WrittenLane(plan, before, after, rows, flat, free, tables, lens, usable, seqLen, blockSize, j);
    }
    forall lane | 0 <= lane < |lens| && lane !in plan.lanes
      ensures AllRows(after, tables, lens, blockSize)[lane] == AllRows(before, tables, lens, blockSize)[lane]
    {
      OtherLane(plan, before, after, flat, free, tables, lens, usable, seqLen, blockSize, lane);
    }
  }

  lemma GatherShape(plan: LanePlan, tables: seq<Table>, lens: seq<nat>, seqLen: nat, blockSize: nat, numBlocks: nat)
    requires Describes(plan, tables, lens, seqLen, blockSize) && numBlocks >= 1
    requires forall lane :: 0 <= lane < |lens| ==> Covers(tables[lane], lens[lane], numBlocks, blockSize)
    ensures plan.blocksPerLane >= 1 && |plan.gatherIdx| % plan.blocksPerLane == 0
    ensures |plan.gatherIdx| / plan.blocksPerLane == |plan.lanes|
    ensures plan.lMax <= plan.blocksPerLane * blockSize
    ensures forall i :: 0 <= i < |plan.gatherIdx| ==> plan.gatherIdx[i] < numBlocks
  {
    CeilDivRounds(plan.lMax, blockSize);
    FlatInverse(|plan.lanes|, plan.blocksPerLane, 0);
    forall a | 0 <= a < |plan.gatherIdx|
      ensures plan.gatherIdx[a] < numBlocks
    {
      FlatSplit(a, |plan.lanes|, plan.blocksPerLane);
      GatheredBlock(plan, tables, lens, seqLen, blockSize, numBlocks, a / plan.blocksPerLane, a % plan.blocksPerLane);
    }
  }

  /** Column `c` of a lane is gathered from the block its table names for position `c`. */
  lemma GatheredColumn(plan: LanePlan, tables: seq<Table>, lens: seq<nat>, seqLen: nat, blockSize: nat, numBlocks: nat, j: nat, c: nat)
    requires Describes(plan, tables, lens, seqLen, blockSize) && numBlocks >= 1
    requires forall lane :: 0 <= lane < |lens| ==> Covers(tables[lane], lens[lane], numBlocks, blockSize)
    requires j < |plan.lanes| && c < plan.lengths[j]
    ensures c / blockSize < |tables[plan.lanes[j]]|
    ensures Flat(j, plan.blocksPerLane, c / blockSize) < |plan.gatherIdx|
    ensures plan.gatherIdx[Flat(j, plan.blocksPerLane, c / blockSize)] == tables[plan.lanes[j]][c / blockSize]
  {
    PositionInBlocks(c, plan.lengths[j], blockSize);
    PositionInBlocks(c, plan.lMax, blockSize);
    assert plan.tables[j] == tables[plan.lanes[j]];
    assert plan.gatherIdx[Flat(j, plan.blocksPerLane, c / blockSize)] == Padded(plan.tables[j], c / blockSize);
  }

  /** Everything gathered is a real block: one of the lane's own, or the sentinel. */
  lemma GatheredBlock(plan: LanePlan, tables: seq<Table>, lens: seq<nat>, seqLen: nat, blockSize: nat, numBlocks: nat, j: nat, i: nat)
    requires Describes(plan, tables, lens, seqLen, blockSize) && numBlocks >= 1
    requires forall lane :: 0 <= lane < |lens| ==> Covers(tables[lane], lens[lane], numBlocks, blockSize)
    requires j < |plan.lanes| && i < plan.blocksPerLane
    ensures Flat(j, plan.blocksPerLane, i) < |plan.gatherIdx|
    ensures var block := plan.gatherIdx[Flat(j, plan.blocksPerLane, i)];
      block < numBlocks && (block == SENTINEL_BLOCK || block in tables[plan.lanes[j]])
  {
    var table := tables[plan.lanes[j]];
    assert plan.tables[j] == table;
    assert plan.gatherIdx[Flat(j, plan.blocksPerLane, i)] == Padded(table, i);
  }
}
