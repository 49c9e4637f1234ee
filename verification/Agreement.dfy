/** The kernel and the reference, launched on the same cache and the same plan, give the same numbers. */
module Agreement {
  import opened Arithmetic
  import opened Pools
  import opened Stores
  import opened PagedCaches
  import opened OnlineSoftmax
  import opened Attention
  import opened PlaneDots
  import opened Oracle
  import opened Reference
  import Kernel

  // ---- A store on the device ----

  /** The elements of one store. */
  function Elements(s: Shape, numBlocks: nat): nat {
    numBlocks * s.blockSize * s.kvHeads * s.headDim
  }

  /** Block, offset, KV head and component of a buffer element. */
  function Indices(s: Shape, a: nat): (nat, nat, nat, nat)
    requires s.headDim >= 1 && s.kvHeads >= 1 && s.blockSize >= 1
  {
    var row := a / s.headDim;
    var cell := row / s.kvHeads;
    (cell / s.blockSize, cell % s.blockSize, row % s.kvHeads, a % s.headDim)
  }

  lemma ElementIndices(s: Shape, numBlocks: nat, a: nat)
    requires a < Elements(s, numBlocks)
    ensures s.headDim >= 1 && s.kvHeads >= 1 && s.blockSize >= 1
    ensures var i := Indices(s, a); i.0 < numBlocks && i.1 < s.blockSize && i.2 < s.kvHeads && i.3 < s.headDim
  {
    NoExtentIsZero(numBlocks * s.blockSize * s.kvHeads, s.headDim);
    FlatSplit(a, numBlocks * s.blockSize * s.kvHeads, s.headDim);
    NoExtentIsZero(numBlocks * s.blockSize, s.kvHeads);
    FlatSplit(a / s.headDim, numBlocks * s.blockSize, s.kvHeads);
    NoExtentIsZero(numBlocks, s.blockSize);
    FlatSplit(a / s.headDim / s.kvHeads, numBlocks, s.blockSize);
  }

  lemma NoExtentIsZero(a: nat, b: nat)
    requires a * b > 0
    ensures a >= 1 && b >= 1
  {
  }

  /** A store as the device keeps it. */
  function Buffer(view: Row -> seq<seq<real>>, cells: Cells, s: Shape): (buffer: seq<real>)
    requires Unpacks(view, s) && Shaped(cells, |cells|, s.blockSize)
    ensures |buffer| == Elements(s, |cells|)
  {
    seq(Elements(s, |cells|), a requires 0 <= a < Elements(s, |cells|) => (ElementIndices(s, |cells|, a); ElementAt(view, cells, s, Indices(s, a))))
  }

  function ElementAt(view: Row -> seq<seq<real>>, cells: Cells, s: Shape, i: (nat, nat, nat, nat)): real
    requires Unpacks(view, s) && Shaped(cells, |cells|, s.blockSize)
    requires i.0 < |cells| && i.1 < s.blockSize && i.2 < s.kvHeads && i.3 < s.headDim
  {
    VectorOf(view, s, cells[i.0][i.1], i.2)[i.3]
  }

  lemma BufferIsLaidOut(view: Row -> seq<seq<real>>, cells: Cells, s: Shape)
    requires Unpacks(view, s) && Shaped(cells, |cells|, s.blockSize)
    ensures LaidOut(view, cells, s, Buffer(view, cells, s))
  {
    hide Unpacks, Shaped;
    var buffer := Buffer(view, cells, s);
    forall block, offset, h | 0 <= block < |cells| && 0 <= offset < s.blockSize && 0 <= h < s.kvHeads
      ensures |cells[block]| == s.blockSize
      ensures RowOf(buffer, CellBase(s, block, offset, h), s.headDim) == VectorOf(view, s, cells[block][offset], h)
    {
      CellLength(cells, s, block);
      forall d | 0 <= d < s.headDim
        ensures RowOf(buffer, CellBase(s, block, offset, h), s.headDim)[d] == VectorOf(view, s, cells[block][offset], h)[d]
      {
        BufferAt(view, cells, s, block, offset, h, d);
      }
    }
  }

  lemma CellLength(cells: Cells, s: Shape, block: nat)
    requires Shaped(cells, |cells|, s.blockSize) && block < |cells|
    ensures |cells[block]| == s.blockSize
  {
  }

  lemma BufferAt(view: Row -> seq<seq<real>>, cells: Cells, s: Shape, block: nat, offset: nat, h: nat, d: nat)
    requires Unpacks(view, s) && Shaped(cells, |cells|, s.blockSize)
    requires block < |cells| && offset < s.blockSize && h < s.kvHeads && d < s.headDim
    ensures |cells[block]| == s.blockSize
    ensures Load(Buffer(view, cells, s), CellBase(s, block, offset, h) + d) == VectorOf(view, s, cells[block][offset], h)[d]
  {
    CellInside(s, |cells|, block, offset, h);
    assert CellBase(s, block, offset, h) + d == Flat(Flat(Flat(block, s.blockSize, offset), s.kvHeads, h), s.headDim, d);
    FlatInverse(Flat(Flat(block, s.blockSize, offset), s.kvHeads, h), s.headDim, d);
    FlatInverse(Flat(block, s.blockSize, offset), s.kvHeads, h);
    FlatInverse(block, s.blockSize, offset);
    assert Indices(s, CellBase(s, block, offset, h) + d) == (block, offset, h, d);
  }

  // ---- One position, read both ways ----

  /** The kernel's memory is this layer's stores and this round's plan. */
  ghost predicate Represents(layer: Layer, cache: PagedKvCache, plan: LanePlan, s: Shape, mem: Memory)
    requires cache.Valid() && Describes(plan, cache.pool.tables, cache.pool.lens, 1, cache.pool.blockSize)
    reads cache, cache.pool, cache.store
  {
    && s.lanes == |plan.lanes| && s.blockSize == cache.pool.blockSize && s.blocksPerLane == plan.blocksPerLane && s.nRep >= 1
    && mem.table == plan.gatherIdx && mem.lengths == plan.lengths && |mem.q| == s.lanes * s.Heads() * s.headDim
    && Unpacks(layer.k, s) && Unpacks(layer.v, s)
    && LaidOut(layer.k, cache.store.cells, s, mem.k) && LaidOut(layer.v, cache.store.cells, s, mem.v)
  }

  /** What query head `head` of lane `j` makes of one stored row. */
  function HeadKey(layer: Layer, s: Shape, q: seq<real>, j: nat, head: nat, row: Row): Key
    requires Unpacks(layer.k, s) && Unpacks(layer.v, s) && s.nRep >= 1 && head / s.nRep < s.kvHeads
  {
    Key(Dot(q, QueryBase(s, j, head), VectorOf(layer.k, s, row, head / s.nRep), 0, s.headDim) * s.scale,
      VectorOf(layer.v, s, row, head / s.nRep))
  }

  lemma {:induction false} SameDot(q: seq<real>, base: nat, buffer: seq<real>, from: nat, row: seq<real>, n: nat)
    requires n <= |row| && forall d :: 0 <= d < |row| ==> Component(RowOf(buffer, from, |row|), d) == row[d]
    ensures Dot(q, base, buffer, from, n) == Dot(q, base, row, 0, n)
  {
    if n > 0 {
      SameDot(q, base, buffer, from, row, n - 1);
      assert Component(RowOf(buffer, from, |row|), n - 1) == Load(buffer, from + (n - 1));
    }
  }

  /** Where the kernel looks for position `pos` of lane `j`, the store keeps what the lane holds there. */
  lemma StoredWhereWalked(cache: PagedKvCache, plan: LanePlan, s: Shape, mem: Memory, j: nat, pos: nat)
    requires cache.Valid() && Describes(plan, cache.pool.tables, cache.pool.lens, 1, cache.pool.blockSize)
    requires s.blockSize == cache.pool.blockSize && s.blocksPerLane == plan.blocksPerLane && mem.table == plan.gatherIdx
    requires j < |plan.lanes| && pos < plan.lengths[j]
    ensures s.blockSize >= 1 && pos % s.blockSize < s.blockSize
    ensures var block := BlockOf(s, mem, j, pos / s.blockSize);
      && plan.lanes[j] < |cache.lanes| && |cache.lanes[plan.lanes[j]]| == plan.lengths[j]
      && block < |cache.store.cells| && |cache.store.cells[block]| == s.blockSize
      && cache.store.cells[block][pos % s.blockSize] == cache.lanes[plan.lanes[j]][pos]
  {
    var bs, lane := cache.pool.blockSize, plan.lanes[j];
    LaneLength(cache, plan, 1, j);
    GatheredColumn(plan, cache.pool.tables, cache.pool.lens, 1, bs, cache.store.numBlocks, j, pos);
    LaneRowsAt(cache.store.cells, cache.pool.tables[lane], cache.pool.lens[lane], bs, pos);
  }

  /** The kernel's key for a position is what its query head makes of the row the lane holds there. */
  lemma KeyIsRow(layer: Layer, cache: PagedKvCache, plan: LanePlan, s: Shape, mem: Memory, j: nat, kvHead: nat, g: nat, pos: nat)
    requires cache.Valid() && Describes(plan, cache.pool.tables, cache.pool.lens, 1, cache.pool.blockSize)
    requires Represents(layer, cache, plan, s, mem)
    requires j < |plan.lanes| && pos < plan.lengths[j] && kvHead < s.kvHeads && g < s.nRep
    ensures s.blockSize >= 1 && Flat(kvHead, s.nRep, g) / s.nRep == kvHead
    ensures plan.lanes[j] < |cache.lanes| && |cache.lanes[plan.lanes[j]]| == plan.lengths[j]
    ensures KeyOf(s, mem, j, kvHead, g, pos) == HeadKey(layer, s, mem.q, j, Flat(kvHead, s.nRep, g), cache.lanes[plan.lanes[j]][pos])
  {
    hide PagedKvCache.Valid, Describes, Unpacks, Flat, QueryBase, CellBase, Dot;
    FlatInverse(kvHead, s.nRep, g);
    RepresentsStores(layer, cache, plan, s, mem);
    hide Represents, LaidOut, Shaped;
    StoredWhereWalked(cache, plan, s, mem, j, pos);
    var row := RowBase(s, mem, j, kvHead, pos);
    var stored := cache.lanes[plan.lanes[j]][pos];
    var block, offset := BlockOf(s, mem, j, pos / s.blockSize), pos % s.blockSize;
    assert row == CellBase(s, block, offset, kvHead);
    RowLaidOut(layer.k, cache.store.cells, s, mem.k, block, offset, kvHead);
    RowLaidOut(layer.v, cache.store.cells, s, mem.v, block, offset, kvHead);
    SameDot(mem.q, QueryBase(s, j, Flat(kvHead, s.nRep, g)), mem.k, row, VectorOf(layer.k, s, stored, kvHead), s.headDim);
  }

  lemma RepresentsStores(layer: Layer, cache: PagedKvCache, plan: LanePlan, s: Shape, mem: Memory)
    requires cache.Valid() && Describes(plan, cache.pool.tables, cache.pool.lens, 1, cache.pool.blockSize)
    requires Represents(layer, cache, plan, s, mem)
    ensures s.blockSize == cache.pool.blockSize && s.blocksPerLane == plan.blocksPerLane && mem.table == plan.gatherIdx
    ensures Shaped(cache.store.cells, |cache.store.cells|, s.blockSize)
    ensures LaidOut(layer.k, cache.store.cells, s, mem.k) && LaidOut(layer.v, cache.store.cells, s, mem.v)
  {
  }

  lemma RowLaidOut(view: Row -> seq<seq<real>>, cells: Cells, s: Shape, buffer: seq<real>, block: nat, offset: nat, h: nat)
    requires Unpacks(view, s) && Shaped(cells, |cells|, s.blockSize) && LaidOut(view, cells, s, buffer)
    requires block < |cells| && offset < s.blockSize && h < s.kvHeads
    ensures |cells[block]| == s.blockSize
    ensures RowOf(buffer, CellBase(s, block, offset, h), s.headDim) == VectorOf(view, s, cells[block][offset], h)
  {
  }

  /** The reference's columns are what its query head makes of the scratch, head repetition and all. */
  lemma ColumnsAreRows(layer: Layer, s: Shape, q: seq<real>, scratch: seq<Row>, j: nat, head: nat)
    requires Unpacks(layer.k, s) && Unpacks(layer.v, s) && s.nRep >= 1 && head < s.Heads()
    ensures head / s.nRep < s.kvHeads
    ensures HeadColumns(layer, s, q, scratch, j, head) == KeysOf(row => HeadKey(layer, s, q, j, head, row), scratch)
  {
    GroupReadsItsHead(HeadMajor(layer.k, scratch, s), s.nRep, head);
    GroupReadsItsHead(HeadMajor(layer.v, scratch, s), s.nRep, head);
    hide Unpacks, RepeatKv, Dot, QueryBase;
    forall c | 0 <= c < |scratch|
      ensures HeadColumns(layer, s, q, scratch, j, head)[c] == HeadKey(layer, s, q, j, head, scratch[c])
    {
    }
  }

  // ---- Agreement ----

  /** Kernel and reference attend to the same thing: whatever holds the kernel's result for a lane, KV head
      and group member holds the reference's for that lane and query head, in every component and
      whatever the never-written cells contain. */
  lemma KernelAndReferenceAgree(exp: real -> real, layer: Layer, cache: PagedKvCache, plan: LanePlan, s: Shape, mem: Memory, out: seq<real>, j: nat, kvHead: nat, g: nat, d: nat)
    requires Exponential(exp) && cache.Valid() && Describes(plan, cache.pool.tables, cache.pool.lens, 1, cache.pool.blockSize)
    requires Represents(layer, cache, plan, s, mem) && s.blockSize >= 1
    requires j < |plan.lanes| && kvHead < s.kvHeads && g < s.nRep && d < s.headDim
    requires RowDone(exp, s, mem, out, j, kvHead, g)
    ensures Flat(kvHead, s.nRep, g) < s.Heads() && QueryBase(s, j, Flat(kvHead, s.nRep, g)) + d < |out|
    ensures IsReference(exp, layer, cache, plan, s, mem.q, j, Flat(kvHead, s.nRep, g), d, out[QueryBase(s, j, Flat(kvHead, s.nRep, g)) + d])
  {
    hide PagedKvCache.Valid, Describes, Represents, Exponential, Walkable, WalkRows, Unpacks, HeadColumns, HeadKey, LaneKeys, RowDone, QueryBase, Flat, KeysOf;
    var head := Flat(kvHead, s.nRep, g);
    FlatBound(kvHead, s.kvHeads, s.nRep, g);
    ElementOfRow(exp, s, mem, out, j, kvHead, g, d);
    RepresentsParts(layer, cache, plan, s, mem);
    ColumnsAreRows(layer, s, mem.q, ScratchOf(cache, plan, j), j, head);
    LaneIsRows(layer, cache, plan, s, mem, j, kvHead, g);
    var view := row => HeadKey(layer, s, mem.q, j, head, row);
    MaskedIsWalked(exp, cache, plan, j, view, d);
  }

  lemma RepresentsParts(layer: Layer, cache: PagedKvCache, plan: LanePlan, s: Shape, mem: Memory)
    requires cache.Valid() && Describes(plan, cache.pool.tables, cache.pool.lens, 1, cache.pool.blockSize)
    requires Represents(layer, cache, plan, s, mem)
    ensures Unpacks(layer.k, s) && Unpacks(layer.v, s) && s.nRep >= 1 && s.lanes == |plan.lanes| && mem.lengths == plan.lengths
    ensures |plan.mask| == |plan.lanes| * 1 * plan.lMax
  {
  }

  lemma LaneIsRows(layer: Layer, cache: PagedKvCache, plan: LanePlan, s: Shape, mem: Memory, j: nat, kvHead: nat, g: nat)
    requires cache.Valid() && Describes(plan, cache.pool.tables, cache.pool.lens, 1, cache.pool.blockSize)
    requires Represents(layer, cache, plan, s, mem) && s.blockSize >= 1
    requires j < |plan.lanes| && kvHead < s.kvHeads && g < s.nRep
    ensures Flat(kvHead, s.nRep, g) / s.nRep == kvHead && plan.lanes[j] < |cache.lanes|
    ensures LaneKeys(s, mem, j, kvHead, g, plan.lengths[j])
         == KeysOf(row => HeadKey(layer, s, mem.q, j, Flat(kvHead, s.nRep, g), row), cache.lanes[plan.lanes[j]])
  {
    LaneLength(cache, plan, 1, j);
    FlatInverse(kvHead, s.nRep, g);
    hide PagedKvCache.Valid, Describes, KeyOf, HeadKey, Represents;
    forall pos | 0 <= pos < plan.lengths[j]
      ensures LaneKeys(s, mem, j, kvHead, g, plan.lengths[j])[pos]
           == HeadKey(layer, s, mem.q, j, Flat(kvHead, s.nRep, g), cache.lanes[plan.lanes[j]][pos])
    {
      KeyIsRow(layer, cache, plan, s, mem, j, kvHead, g, pos);
    }
  }

  /** One output row is the reference's, in every component. */
  ghost predicate ReferenceRow(exp: real -> real, layer: Layer, cache: PagedKvCache, plan: LanePlan, s: Shape, q: seq<real>, out: seq<real>, j: nat, head: nat)
    requires cache.Valid() && Describes(plan, cache.pool.tables, cache.pool.lens, 1, cache.pool.blockSize)
    requires Unpacks(layer.k, s) && Unpacks(layer.v, s)
    requires s.nRep >= 1 && j < |plan.lanes| && head < s.Heads()
    reads cache, cache.pool, cache.store
  {
    var base := QueryBase(s, j, head);
    && base + s.headDim <= |out|
    && forall a :: base <= a < base + s.headDim ==> IsReference(exp, layer, cache, plan, s, q, j, head, a - base, out[a])
  }

  lemma RowInOutput(exp: real -> real, s: Shape, mem: Memory, out: seq<real>, j: nat, kvHead: nat, g: nat)
    requires s.blockSize >= 1 && RowDone(exp, s, mem, out, j, kvHead, g)
    ensures QueryBase(s, j, Flat(kvHead, s.nRep, g)) + s.headDim <= |out|
  {
  }

  lemma ElementOfRow(exp: real -> real, s: Shape, mem: Memory, out: seq<real>, j: nat, kvHead: nat, g: nat, d: nat)
    requires s.blockSize >= 1 && RowDone(exp, s, mem, out, j, kvHead, g) && d < s.headDim
    ensures QueryBase(s, j, Flat(kvHead, s.nRep, g)) + d < |out|
    ensures IsAttention(exp, s, mem, j, kvHead, g, d, out[QueryBase(s, j, Flat(kvHead, s.nRep, g)) + d])
  {
    hide IsAttention;
    var a := QueryBase(s, j, Flat(kvHead, s.nRep, g)) + d;
    assert IsAttention(exp, s, mem, j, kvHead, g, a - QueryBase(s, j, Flat(kvHead, s.nRep, g)), out[a]);
  }

  /** A row the kernel is done with is the reference's row of the same query head. */
  lemma RowsAgree(exp: real -> real, layer: Layer, cache: PagedKvCache, plan: LanePlan, s: Shape, mem: Memory, out: seq<real>, j: nat, kvHead: nat, g: nat)
    requires Exponential(exp) && cache.Valid() && Describes(plan, cache.pool.tables, cache.pool.lens, 1, cache.pool.blockSize)
    requires Represents(layer, cache, plan, s, mem) && s.blockSize >= 1
    requires j < |plan.lanes| && kvHead < s.kvHeads && g < s.nRep
    requires RowDone(exp, s, mem, out, j, kvHead, g)
    ensures Flat(kvHead, s.nRep, g) < s.Heads()
    ensures ReferenceRow(exp, layer, cache, plan, s, mem.q, out, j, Flat(kvHead, s.nRep, g))
  {
    hide PagedKvCache.Valid, Describes, Exponential, IsReference, Represents, RowDone, Unpacks, QueryBase, Flat;
    FlatBound(kvHead, s.kvHeads, s.nRep, g);
    RowInOutput(exp, s, mem, out, j, kvHead, g);
    RepresentsParts(layer, cache, plan, s, mem);
    var base := QueryBase(s, j, Flat(kvHead, s.nRep, g));
    forall a | base <= a < base + s.headDim
      ensures IsReference(exp, layer, cache, plan, s, mem.q, j, Flat(kvHead, s.nRep, g), a - base, out[a])
    {
      KernelAndReferenceAgree(exp, layer, cache, plan, s, mem, out, j, kvHead, g, a - base);
    }
  }

  /** A decode round launched on the cache's own stores: every row of the output is the reference's. */
  method PagedAttention(exp: real -> real, layer: Layer, cache: PagedKvCache, plan: LanePlan, s: Shape, q: seq<real>, p: Plane, planes: nat)
    returns (out: array<real>)
    requires Exponential(exp) && cache.Valid() && Describes(plan, cache.pool.tables, cache.pool.lens, 1, cache.pool.blockSize)
    requires s.lanes == |plan.lanes| && s.blockSize == cache.pool.blockSize && s.blocksPerLane == plan.blocksPerLane && s.nRep >= 1
    requires |q| == s.lanes * s.Heads() * s.headDim && Unpacks(layer.k, s) && Unpacks(layer.v, s)
    requires PlaneDots.Covers(p, s.headDim) && p.slots >= 1 && planes >= 1
    ensures fresh(out) && out.Length == s.lanes * s.Heads() * s.headDim
    ensures forall j, head :: 0 <= j < s.lanes && 0 <= head < s.Heads() ==> ReferenceRow(exp, layer, cache, plan, s, q, out[..], j, head)
  {
    hide Unpacks, Exponential, RowDone, WellShaped, ReferenceRow, LaidOut, PlaneDots.Covers;
    StoreIsShaped(cache);
    BufferIsLaidOut(layer.k, cache.store.cells, s);
    BufferIsLaidOut(layer.v, cache.store.cells, s);
    var mem := Memory(q, Buffer(layer.k, cache.store.cells, s), Buffer(layer.v, cache.store.cells, s), plan.gatherIdx, plan.lengths);
    assert Represents(layer, cache, plan, s, mem);
    PlanFitsKernel(cache, plan, s, mem);
    hide PagedKvCache.Valid, Describes, Represents, Buffer;
    out := Kernel.Decode(exp, s, mem, cache.store.numBlocks, p, planes);
    forall j, head | 0 <= j < s.lanes && 0 <= head < s.Heads()
      ensures ReferenceRow(exp, layer, cache, plan, s, q, out[..], j, head)
    {
      var kvHead, g := Kernel.HeadSplit(head, s.kvHeads, s.nRep);
      RowsAgree(exp, layer, cache, plan, s, mem, out[..], j, kvHead, g);
    }
  }

  lemma StoreIsShaped(cache: PagedKvCache)
    requires cache.Valid()
    ensures Shaped(cache.store.cells, |cache.store.cells|, cache.pool.blockSize) && |cache.store.cells| == cache.store.numBlocks
  {
  }
}
