/** The plain form of paged attention: gather whole blocks, zero what was never written, repeat the KV
    heads, and attend under the plan's mask. It attends to exactly what the length-gated walk does. */
module Reference {
  import opened Arithmetic
  import opened Pools
  import opened Stores
  import opened PagedCaches
  import opened OnlineSoftmax
  import opened Attention
  import opened PlaneSplits
  import opened Oracle

  // ---- Softmax under a mask ----

  /** A masked column weighs nothing, whatever its score. */
  function MaskedWeight(exp: real -> real, k: Key, masked: bool, top: real): real {
    if masked then 0.0 else exp(k.score - top)
  }

  function MaskedMass(exp: real -> real, columns: seq<Key>, mask: seq<bool>, top: real): real
    requires |mask| == |columns|
  {
    if columns == [] then 0.0
    else
      var last := |columns| - 1;
      MaskedMass(exp, columns[..last], mask[..last], top) + MaskedWeight(exp, columns[last], mask[last], top)
  }

  function MaskedMoment(exp: real -> real, columns: seq<Key>, mask: seq<bool>, top: real, d: nat): real
    requires |mask| == |columns|
  {
    if columns == [] then 0.0
    else
      var last := |columns| - 1;
      MaskedMoment(exp, columns[..last], mask[..last], top, d) + MaskedWeight(exp, columns[last], mask[last], top) * Component(columns[last].value, d)
  }

  function Unmasked(columns: seq<Key>, mask: seq<bool>): seq<Key>
    requires |mask| == |columns|
  {
    if columns == [] then []
    else
      var last := |columns| - 1;
      Unmasked(columns[..last], mask[..last]) + if mask[last] then [] else [columns[last]]
  }

  /** Component `d` of softmax attention over all columns under a mask. */
  function MaskedAttention(exp: real -> real, columns: seq<Key>, mask: seq<bool>, d: nat): real
    requires |mask| == |columns| && Unmasked(columns, mask) != []
    requires MaskedMass(exp, columns, mask, HighestScore(Unmasked(columns, mask))) != 0.0
  {
    MaskedMoment(exp, columns, mask, HighestScore(Unmasked(columns, mask)), d) / MaskedMass(exp, columns, mask, HighestScore(Unmasked(columns, mask)))
  }

  /** Masking columns is dropping them. */
  lemma {:induction false} MaskingIsDropping(exp: real -> real, columns: seq<Key>, mask: seq<bool>, top: real, d: nat)
    requires |mask| == |columns|
    ensures MaskedMass(exp, columns, mask, top) == MassFrom(exp, Unmasked(columns, mask), top)
    ensures MaskedMoment(exp, columns, mask, top, d) == MomentFrom(exp, Unmasked(columns, mask), top, d)
  {
    if columns != [] {
      var last := |columns| - 1;
      MaskingIsDropping(exp, columns[..last], mask[..last], top, d);
      var rest := Unmasked(columns[..last], mask[..last]);
      if mask[last] {
        assert Unmasked(columns, mask) == rest;
        ZeroTimes(Component(columns[last].value, d));
      } else {
        assert Unmasked(columns, mask)[..|rest|] == rest;
      }
    }
  }

  lemma ZeroTimes(x: real)
    ensures 0.0 * x == 0.0
  {
  }

  /** A mask that hides exactly the columns past a length leaves the columns before it. */
  lemma {:induction false} LengthMask(columns: seq<Key>, mask: seq<bool>, len: nat)
    requires |mask| == |columns| && forall c :: 0 <= c < |mask| ==> (mask[c] <==> c >= len)
    ensures Unmasked(columns, mask) == if len <= |columns| then columns[..len] else columns
  {
    if columns != [] {
      var last := |columns| - 1;
      LengthMask(columns[..last], mask[..last], len);
      if last < len {
        assert columns == columns[..last] + [columns[last]];
      }
    }
  }

  // ---- Grouped-query heads ----

  /** Repeat each KV head `nRep` times. */
  function RepeatKv<T>(heads: seq<T>, nRep: nat): (r: seq<T>)
    requires nRep >= 1
    ensures |r| == |heads| * nRep
  {
    seq(|heads| * nRep, h requires 0 <= h < |heads| * nRep => (FlatSplit(h, |heads|, nRep); heads[h / nRep]))
  }

  /** Query head `head` reads the KV head of its own group, the `head / nRep`-th. */
  lemma GroupReadsItsHead<T>(heads: seq<T>, nRep: nat, head: nat)
    requires nRep >= 1 && head < |heads| * nRep
    ensures head / nRep < |heads| && RepeatKv(heads, nRep)[head] == heads[head / nRep]
  {
    FlatSplit(head, |heads|, nRep);
  }

  // ---- The two readings of a plan ----

  /** What one query head makes of each stored row. */
  function KeysOf(view: Row -> Key, rows: seq<Row>): (keys: seq<Key>)
    ensures |keys| == |rows|
  {
    seq(|rows|, i requires 0 <= i < |rows| => view(rows[i]))
  }

  /** The mask row of lane `j`'s single query. */
  function QueryMask(plan: LanePlan, j: nat): (r: seq<bool>)
    ensures |r| == plan.lMax
  {
    seq(plan.lMax, c requires 0 <= c < plan.lMax =>
      if Flat(Flat(j, 1, 0), plan.lMax, c) < |plan.mask| then plan.mask[Flat(Flat(j, 1, 0), plan.lMax, c)] else true)
  }

  /** The rows the walk takes from block `b` of lane `j`'s stretch of the block table. */
  function WalkBlockRows(cells: Cells, plan: LanePlan, j: nat, blockSize: nat, b: nat): (rows: seq<Row>)
    requires blockSize >= 1 && j < |plan.lengths| && b < CeilDiv(plan.lengths[j], blockSize)
    requires Flat(j, plan.blocksPerLane, b) < |plan.gatherIdx| && plan.gatherIdx[Flat(j, plan.blocksPerLane, b)] < |cells|
    requires |cells[plan.gatherIdx[Flat(j, plan.blocksPerLane, b)]]| == blockSize
  {
    BlockStartsInside(b, plan.lengths[j], blockSize);
    cells[plan.gatherIdx[Flat(j, plan.blocksPerLane, b)]][..Live(blockSize, plan.lengths[j], b)]
  }

  /** The plan's table names real blocks for every live stretch of every lane. */
  ghost predicate Walkable(cells: Cells, plan: LanePlan, blockSize: nat) {
    && blockSize >= 1 && |plan.lengths| == |plan.lanes|
    && forall j, b {:trigger Flat(j, plan.blocksPerLane, b)} :: 0 <= j < |plan.lengths| && 0 <= b < CeilDiv(plan.lengths[j], blockSize) ==>
         && Flat(j, plan.blocksPerLane, b) < |plan.gatherIdx| && plan.gatherIdx[Flat(j, plan.blocksPerLane, b)] < |cells|
         && |cells[plan.gatherIdx[Flat(j, plan.blocksPerLane, b)]]| == blockSize
  }

  /** Rows met by the length-gated walk before block `n`. */
  function WalkRows(cells: Cells, plan: LanePlan, j: nat, blockSize: nat, n: nat): seq<Row>
    requires Walkable(cells, plan, blockSize) && j < |plan.lengths| && n <= CeilDiv(plan.lengths[j], blockSize)
  {
    if n == 0 then [] else WalkRows(cells, plan, j, blockSize, n - 1) + WalkBlockRows(cells, plan, j, blockSize, n - 1)
  }

  lemma PlanIsWalkable(cache: PagedKvCache, plan: LanePlan, seqLen: nat)
    requires cache.Valid() && Describes(plan, cache.pool.tables, cache.pool.lens, seqLen, cache.pool.blockSize)
    ensures Walkable(cache.store.cells, plan, cache.pool.blockSize)
  {
    var bs := cache.pool.blockSize;
    forall j, b | 0 <= j < |plan.lengths| && 0 <= b < CeilDiv(plan.lengths[j], bs)
      ensures Flat(j, plan.blocksPerLane, b) < |plan.gatherIdx|
      ensures plan.gatherIdx[Flat(j, plan.blocksPerLane, b)] < |cache.store.cells|
      ensures |cache.store.cells[plan.gatherIdx[Flat(j, plan.blocksPerLane, b)]]| == bs
    {
      CeilDivMonotone(plan.lengths[j], plan.lMax, bs);
      GatheredBlock(plan, cache.pool.tables, cache.pool.lens, seqLen, bs, cache.store.numBlocks, j, b);
    }
  }

  /** Row `t` of the walk's block `b` is what the lane holds at that position. */
  lemma WalkedRow(cache: PagedKvCache, plan: LanePlan, seqLen: nat, j: nat, b: nat, t: nat)
    requires cache.Valid() && Describes(plan, cache.pool.tables, cache.pool.lens, seqLen, cache.pool.blockSize)
    requires j < |plan.lanes| && b < CeilDiv(plan.lengths[j], cache.pool.blockSize)
    requires b * cache.pool.blockSize <= plan.lengths[j] && t < Live(cache.pool.blockSize, plan.lengths[j], b)
    ensures Walkable(cache.store.cells, plan, cache.pool.blockSize)
    ensures plan.lanes[j] < |cache.lanes| && Flat(b, cache.pool.blockSize, t) < |cache.lanes[plan.lanes[j]]| == plan.lengths[j]
    ensures WalkBlockRows(cache.store.cells, plan, j, cache.pool.blockSize, b)[t] == cache.lanes[plan.lanes[j]][Flat(b, cache.pool.blockSize, t)]
  {
    var bs, lane, c := cache.pool.blockSize, plan.lanes[j], Flat(b, cache.pool.blockSize, t);
    PlanIsWalkable(cache, plan, seqLen);
    WalkMeetsPositions(bs, plan.lengths[j], b, t);
    GatheredColumn(plan, cache.pool.tables, cache.pool.lens, seqLen, bs, cache.store.numBlocks, j, c);
    LaneRowsAt(cache.store.cells, cache.pool.tables[lane], cache.pool.lens[lane], bs, c);
  }

  /** The walk reads exactly the lane: every position once, in order, and no other cell. */
  lemma {:induction false} WalkIsTheLane(cache: PagedKvCache, plan: LanePlan, seqLen: nat, j: nat, n: nat)
    requires cache.Valid() && Describes(plan, cache.pool.tables, cache.pool.lens, seqLen, cache.pool.blockSize)
    requires j < |plan.lanes| && n <= CeilDiv(plan.lengths[j], cache.pool.blockSize)
    ensures Walkable(cache.store.cells, plan, cache.pool.blockSize)
    ensures plan.lanes[j] < |cache.lanes| && Met(cache.pool.blockSize, plan.lengths[j], n) <= |cache.lanes[plan.lanes[j]]| == plan.lengths[j]
    ensures WalkRows(cache.store.cells, plan, j, cache.pool.blockSize, n) == cache.lanes[plan.lanes[j]][..Met(cache.pool.blockSize, plan.lengths[j], n)]
  {
    hide PagedKvCache.Valid, Describes, Walkable;
    PlanIsWalkable(cache, plan, seqLen);
    var bs, lane := cache.pool.blockSize, plan.lanes[j];
    LaneLength(cache, plan, seqLen, j);
    if n > 0 {
      WalkIsTheLane(cache, plan, seqLen, j, n - 1);
      BlockIsStretch(cache, plan, seqLen, j, n - 1);
      WalkMeetsPositions(bs, plan.lengths[j], n - 1, 0);
    }
  }

  lemma BlockIsStretch(cache: PagedKvCache, plan: LanePlan, seqLen: nat, j: nat, b: nat)
    requires cache.Valid() && Describes(plan, cache.pool.tables, cache.pool.lens, seqLen, cache.pool.blockSize)
    requires j < |plan.lanes| && b < CeilDiv(plan.lengths[j], cache.pool.blockSize)
    ensures Walkable(cache.store.cells, plan, cache.pool.blockSize)
    ensures var from := b * cache.pool.blockSize; var rows := WalkBlockRows(cache.store.cells, plan, j, cache.pool.blockSize, b);
      && plan.lanes[j] < |cache.lanes| && from + |rows| <= |cache.lanes[plan.lanes[j]]|
      && cache.lanes[plan.lanes[j]][..from] + rows == cache.lanes[plan.lanes[j]][..from + |rows|]
  {
    PlanIsWalkable(cache, plan, seqLen);
    LaneLength(cache, plan, seqLen, j);
    var bs, lane := cache.pool.blockSize, cache.lanes[plan.lanes[j]];
    var rows := WalkBlockRows(cache.store.cells, plan, j, bs, b);
    WalkMeetsPositions(bs, plan.lengths[j], b, 0);
    forall t | 0 <= t < |rows|
      ensures rows[t] == lane[b * bs + t]
    {
      WalkedRow(cache, plan, seqLen, j, b, t);
    }
    hide PagedKvCache.Valid, Describes, Walkable, WalkBlockRows;
    Stretch(lane, b * bs, rows);
  }

  lemma LaneLength(cache: PagedKvCache, plan: LanePlan, seqLen: nat, j: nat)
    requires cache.Valid() && Describes(plan, cache.pool.tables, cache.pool.lens, seqLen, cache.pool.blockSize) && j < |plan.lanes|
    ensures cache.pool.blockSize >= 1 && plan.lanes[j] < |cache.lanes| && |cache.lanes[plan.lanes[j]]| == plan.lengths[j] >= 1
  {
  }

  lemma Stretch<T>(whole: seq<T>, from: nat, part: seq<T>)
    requires from + |part| <= |whole| && forall t :: 0 <= t < |part| ==> part[t] == whole[from + t]
    ensures whole[..from] + part == whole[..from + |part|]
  {
  }

  /** The mask of a decode round hides exactly the columns past the lane's length. */
  lemma QueryMaskIsLength(cache: PagedKvCache, plan: LanePlan, j: nat)
    requires cache.Valid() && Describes(plan, cache.pool.tables, cache.pool.lens, 1, cache.pool.blockSize) && j < |plan.lanes|
    ensures forall c :: 0 <= c < plan.lMax ==> (QueryMask(plan, j)[c] <==> c >= plan.lengths[j])
  {
    forall c | 0 <= c < plan.lMax
      ensures QueryMask(plan, j)[c] <==> c >= plan.lengths[j]
    {
      LastRowIsTheLength(plan, cache.pool.tables, cache.pool.lens, 1, cache.pool.blockSize, j, c);
    }
  }

  /** Whatever a query head makes of a row, softmax over the gathered, neutralized scratch under the
      plan's mask is softmax over the rows the length-gated walk reads, whatever the never-written cells
      hold. */
  lemma MaskedIsWalked(exp: real -> real, cache: PagedKvCache, plan: LanePlan, j: nat, view: Row -> Key, d: nat)
    requires Exponential(exp) && cache.Valid() && j < |plan.lanes|
    requires Describes(plan, cache.pool.tables, cache.pool.lens, 1, cache.pool.blockSize)
    ensures |plan.mask| == |plan.lanes| * 1 * plan.lMax
    ensures Walkable(cache.store.cells, plan, cache.pool.blockSize)
    ensures var scratch := Neutralized(cache.Gather(plan, 1), plan.mask, 1, plan.lMax)[j];
      var columns, mask := KeysOf(view, scratch), QueryMask(plan, j);
      var walked := KeysOf(view, WalkRows(cache.store.cells, plan, j, cache.pool.blockSize, CeilDiv(plan.lengths[j], cache.pool.blockSize)));
      && walked != [] && Unmasked(columns, mask) == walked
      && MassFrom(exp, walked, HighestScore(walked)) >= 1.0
      && MaskedMass(exp, columns, mask, HighestScore(walked)) >= 1.0
      && MaskedAttention(exp, columns, mask, d) == Attended(exp, walked, d)
    ensures plan.lanes[j] < |cache.lanes|
    ensures WalkRows(cache.store.cells, plan, j, cache.pool.blockSize, CeilDiv(plan.lengths[j], cache.pool.blockSize)) == cache.lanes[plan.lanes[j]]
  {
    var bs, lane := cache.pool.blockSize, plan.lanes[j];
    cache.NeutralizedIsLaneThenZeros(plan, 1, j);
    var scratch := Neutralized(cache.Gather(plan, 1), plan.mask, 1, plan.lMax)[j];
    LaneLength(cache, plan, 1, j);
    WalkIsTheLane(cache, plan, 1, j, CeilDiv(plan.lengths[j], bs));
    QueryMaskIsLength(cache, plan, j);
    var walked := KeysOf(view, WalkRows(cache.store.cells, plan, j, bs, CeilDiv(plan.lengths[j], bs)));
    var columns := KeysOf(view, scratch);
    hide PagedKvCache.Valid, Describes, Walkable, Neutralized, WalkRows, QueryMask, Exponential;
    assert columns[..plan.lengths[j]] == walked;
    LengthMask(columns, QueryMask(plan, j), plan.lengths[j]);
    MaskingIsDropping(exp, columns, QueryMask(plan, j), HighestScore(walked), d);
    MassAtTop(exp, walked, HighestScore(walked));
  }

  /** Every plan the cache makes meets the kernel's demands on its block table and lengths. */
  lemma PlanFitsKernel(cache: PagedKvCache, plan: LanePlan, s: Shape, mem: Memory)
    requires cache.Valid() && Describes(plan, cache.pool.tables, cache.pool.lens, 1, cache.pool.blockSize)
    requires s.lanes == |plan.lanes| && s.blockSize == cache.pool.blockSize && s.blocksPerLane == plan.blocksPerLane
    requires mem.table == plan.gatherIdx && mem.lengths == plan.lengths
    requires |mem.q| == s.lanes * s.Heads() * s.headDim
    requires |mem.k| == |mem.v| == cache.store.numBlocks * s.blockSize * s.kvHeads * s.headDim
    ensures WellShaped(s, mem, cache.store.numBlocks)
  {
    PlanIsWalkable(cache, plan, 1);
    TableSize(plan, cache.pool.tables, cache.pool.lens, cache.pool.blockSize);
    assert |cache.store.cells| == cache.store.numBlocks;
    forall lane | 0 <= lane < s.lanes
      ensures mem.lengths[lane] >= 1 && CeilDiv(mem.lengths[lane], s.blockSize) <= s.blocksPerLane
    {
      LaneLength(cache, plan, 1, lane);
      CeilDivMonotone(plan.lengths[lane], plan.lMax, s.blockSize);
    }
    hide PagedKvCache.Valid, Describes;
  }

  lemma TableSize(plan: LanePlan, tables: seq<Table>, lens: seq<nat>, blockSize: nat)
    requires Describes(plan, tables, lens, 1, blockSize)
    ensures |plan.gatherIdx| == |plan.lanes| * plan.blocksPerLane && |plan.lengths| == |plan.lanes|
  {
  }

  // ---- One layer's stores, as numbers ----

  /** What a layer's K and V stores keep of a token: one vector per KV head. */
  datatype Layer = Layer(k: Row -> seq<seq<real>>, v: Row -> seq<seq<real>>)

  /** Every row unpacks to `kvHeads` vectors of `headDim` numbers, and the zero row to zeros. */
  ghost predicate Unpacks(view: Row -> seq<seq<real>>, s: Shape) {
    && (forall row: Row :: IsToken(view(row), s))
    && (forall h, d :: 0 <= h < |view(0)| && 0 <= d < |view(0)[h]| ==> view(0)[h][d] == 0.0)
  }

  ghost predicate IsToken(vectors: seq<seq<real>>, s: Shape) {
    |vectors| == s.kvHeads && forall h :: 0 <= h < |vectors| ==> |vectors[h]| == s.headDim
  }

  function VectorOf(view: Row -> seq<seq<real>>, s: Shape, row: Row, h: nat): (r: seq<real>)
    requires Unpacks(view, s) && h < s.kvHeads
    ensures |r| == s.headDim
  {
    assert IsToken(view(row), s);
    view(row)[h]
  }

  /** A device buffer holds a store in `[block, offset, kvHead, headDim]` order. */
  ghost predicate LaidOut(view: Row -> seq<seq<real>>, cells: Cells, s: Shape, buffer: seq<real>)
    requires Unpacks(view, s) && Shaped(cells, |cells|, s.blockSize)
  {
    && |buffer| == |cells| * s.blockSize * s.kvHeads * s.headDim
    && forall block, offset, h {:trigger CellBase(s, block, offset, h)} :: 0 <= block < |cells| && 0 <= offset < s.blockSize && 0 <= h < s.kvHeads ==>
         RowOf(buffer, CellBase(s, block, offset, h), s.headDim) == VectorOf(view, s, cells[block][offset], h)
  }

  // ---- The reference, operation by operation ----

  /** Heads ahead of positions: `[kvHead][column]`. */
  function HeadMajor(view: Row -> seq<seq<real>>, scratch: seq<Row>, s: Shape): (r: seq<seq<seq<real>>>)
    requires Unpacks(view, s)
    ensures |r| == s.kvHeads && forall h :: 0 <= h < |r| ==> |r[h]| == |scratch|
  {
    seq(s.kvHeads, h requires 0 <= h < s.kvHeads => seq(|scratch|, c requires 0 <= c < |scratch| => VectorOf(view, s, scratch[c], h)))
  }

  /** The mask row every head of a lane shares. */
  function MaskOverHeads(mask: seq<bool>, heads: nat): (r: seq<seq<bool>>)
    ensures |r| == heads && forall h :: 0 <= h < heads ==> |r[h]| == |mask|
  {
    seq(heads, _ => mask)
  }

  /** Scores of one query against its head's keys, beside its head's values. */
  function Columns(s: Shape, q: seq<real>, j: nat, head: nat, k: seq<seq<real>>, v: seq<seq<real>>): (r: seq<Key>)
    requires |k| == |v|
    ensures |r| == |k|
  {
    seq(|k|, c requires 0 <= c < |k| => Key(Dot(q, QueryBase(s, j, head), k[c], 0, s.headDim) * s.scale, v[c]))
  }

  /** What query head `head` of lane `j` scores and weighs: the lane's scratch with its KV heads
      repeated. */
  function HeadColumns(layer: Layer, s: Shape, q: seq<real>, scratch: seq<Row>, j: nat, head: nat): (r: seq<Key>)
    requires Unpacks(layer.k, s) && Unpacks(layer.v, s) && s.nRep >= 1 && head < s.Heads()
    ensures |r| == |scratch|
  {
    var k := RepeatKv(HeadMajor(layer.k, scratch, s), s.nRep);
    var v := RepeatKv(HeadMajor(layer.v, scratch, s), s.nRep);
    GroupReadsItsHead(HeadMajor(layer.k, scratch, s), s.nRep, head);
    GroupReadsItsHead(HeadMajor(layer.v, scratch, s), s.nRep, head);
    Columns(s, q, j, head, k[head], v[head])
  }

  /** The lane's gathered whole blocks, trimmed, with every never-written column zeroed. */
  function ScratchOf(cache: PagedKvCache, plan: LanePlan, j: nat): (scratch: seq<Row>)
    requires cache.Valid() && Describes(plan, cache.pool.tables, cache.pool.lens, 1, cache.pool.blockSize)
    requires |plan.mask| == |plan.lanes| * 1 * plan.lMax && j < |plan.lanes|
    reads cache, cache.pool, cache.store
    ensures |scratch| == plan.lMax
  {
    Neutralized(cache.Gather(plan, 1), plan.mask, 1, plan.lMax)[j]
  }

  /** `x` is what the reference gives lane `j`, query head `head`, in component `d`: softmax of the
      head's columns under its row of the spread mask. */
  ghost predicate IsReference(exp: real -> real, layer: Layer, cache: PagedKvCache, plan: LanePlan, s: Shape, q: seq<real>, j: nat, head: nat, d: nat, x: real)
    requires cache.Valid() && Describes(plan, cache.pool.tables, cache.pool.lens, 1, cache.pool.blockSize)
    requires Unpacks(layer.k, s) && Unpacks(layer.v, s)
    requires s.nRep >= 1 && j < |plan.lanes| && head < s.Heads()
    reads cache, cache.pool, cache.store
  {
    && |plan.mask| == |plan.lanes| * 1 * plan.lMax
    && var columns := HeadColumns(layer, s, q, ScratchOf(cache, plan, j), j, head);
    && var mask := MaskOverHeads(QueryMask(plan, j), s.Heads())[head];
    && Unmasked(columns, mask) != [] && MaskedMass(exp, columns, mask, HighestScore(Unmasked(columns, mask))) >= 1.0
    && x == MaskedAttention(exp, columns, mask, d)
  }
}
