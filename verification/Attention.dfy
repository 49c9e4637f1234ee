/** Decode attention over paged memory: what every implementation must compute. Buffers are flat, as
    on the device; addresses are built from the shape alone. */
module Attention {
  import opened Arithmetic
  import opened OnlineSoftmax

  /** The geometry of one decode round. */
  datatype Shape = Shape(lanes: nat, kvHeads: nat, nRep: nat, headDim: nat, blockSize: nat, blocksPerLane: nat, scale: real) {
    function Heads(): nat { kvHeads * nRep }
  }

  /** Query, key and value buffers, the block table and the lengths. */
  datatype Memory = Memory(q: seq<real>, k: seq<real>, v: seq<real>, table: seq<nat>, lengths: seq<nat>)

  /** What the callers guarantee: the buffers have the shape's sizes, every lane holds a position and
      has table entries for all its live blocks, and those name blocks of the pool. */
  ghost predicate WellShaped(s: Shape, mem: Memory, numBlocks: nat) {
    && s.blockSize >= 1
    && |mem.q| == s.lanes * s.Heads() * s.headDim
    && |mem.k| == |mem.v| == numBlocks * s.blockSize * s.kvHeads * s.headDim
    && |mem.lengths| == s.lanes && |mem.table| == s.lanes * s.blocksPerLane
    && (forall lane :: 0 <= lane < s.lanes ==> mem.lengths[lane] >= 1 && CeilDiv(mem.lengths[lane], s.blockSize) <= s.blocksPerLane)
    && (forall lane, b {:trigger Flat(lane, s.blocksPerLane, b)} ::
          0 <= lane < s.lanes && 0 <= b < CeilDiv(mem.lengths[lane], s.blockSize) ==>
          Flat(lane, s.blocksPerLane, b) < |mem.table| && mem.table[Flat(lane, s.blocksPerLane, b)] < numBlocks)
  }

  function Load(buffer: seq<real>, i: nat): real {
    if i < |buffer| then buffer[i] else 0.0
  }

  /** The first `n` terms of a dot product of two stretches of memory. */
  function Dot(a: seq<real>, aBase: nat, b: seq<real>, bBase: nat, n: nat): real {
    if n == 0 then 0.0 else Dot(a, aBase, b, bBase, n - 1) + Load(a, aBase + (n - 1)) * Load(b, bBase + (n - 1))
  }

  /** Where the query of `head` in `lane` starts. */
  function QueryBase(s: Shape, lane: nat, head: nat): nat {
    Flat(lane, s.Heads(), head) * s.headDim
  }

  /** Where a cell's row for one KV head starts. */
  function CellBase(s: Shape, block: nat, offset: nat, kvHead: nat): nat {
    Flat(Flat(block, s.blockSize, offset), s.kvHeads, kvHead) * s.headDim
  }

  /** The block that holds `b`-th stretch of a lane. */
  function BlockOf(s: Shape, mem: Memory, lane: nat, b: nat): nat {
    if Flat(lane, s.blocksPerLane, b) < |mem.table| then mem.table[Flat(lane, s.blocksPerLane, b)] else 0
  }

  /** Where position `pos` of a lane keeps its row. */
  function RowBase(s: Shape, mem: Memory, lane: nat, kvHead: nat, pos: nat): nat
    requires s.blockSize >= 1
  {
    CellBase(s, BlockOf(s, mem, lane, pos / s.blockSize), pos % s.blockSize, kvHead)
  }

  function RowOf(buffer: seq<real>, base: nat, dim: nat): (r: seq<real>)
    ensures |r| == dim && forall d :: 0 <= d < dim ==> Component(r, d) == Load(buffer, base + d)
  {
    seq(dim, d requires 0 <= d < dim => Load(buffer, base + d))
  }

  /** One attended position: a query head `g` of the group of `kvHead` against position `pos`. */
  function KeyOf(s: Shape, mem: Memory, lane: nat, kvHead: nat, g: nat, pos: nat): Key
    requires s.blockSize >= 1
  {
    var row := RowBase(s, mem, lane, kvHead, pos);
    Key(Dot(mem.q, QueryBase(s, lane, Flat(kvHead, s.nRep, g)), mem.k, row, s.headDim) * s.scale, RowOf(mem.v, row, s.headDim))
  }

  /** The keys of a lane's first `n` positions, in order. */
  function LaneKeys(s: Shape, mem: Memory, lane: nat, kvHead: nat, g: nat, n: nat): (keys: seq<Key>)
    requires s.blockSize >= 1
    ensures |keys| == n
  {
    seq(n, pos requires 0 <= pos < n => KeyOf(s, mem, lane, kvHead, g, pos))
  }

  lemma LaneKeysGrow(s: Shape, mem: Memory, lane: nat, kvHead: nat, g: nat, n: nat)
    requires s.blockSize >= 1
    ensures LaneKeys(s, mem, lane, kvHead, g, n + 1) == LaneKeys(s, mem, lane, kvHead, g, n) + [KeyOf(s, mem, lane, kvHead, g, n)]
  {
  }

  /** Whether a value is what attention of a lane's head over all its positions has in component `d`. */
  ghost predicate IsAttention(exp: real -> real, s: Shape, mem: Memory, lane: nat, kvHead: nat, g: nat, d: nat, x: real)
    requires s.blockSize >= 1
  {
    && lane < |mem.lengths|
    && var keys := LaneKeys(s, mem, lane, kvHead, g, mem.lengths[lane]);
    && keys != [] && MassFrom(exp, keys, HighestScore(keys)) >= 1.0
    && x == Attended(exp, keys, d)
  }

  // ---- Addresses stay inside their buffers ----

  lemma RowInside(rows: nat, dim: nat, row: nat)
    requires row < rows
    ensures row * dim + dim <= rows * dim
  {
    MulLess(row, rows, dim);
  }

  lemma HeadInside(s: Shape, lane: nat, kvHead: nat, g: nat)
    requires lane < s.lanes && kvHead < s.kvHeads && g < s.nRep
    ensures Flat(kvHead, s.nRep, g) < s.Heads() && Flat(lane, s.Heads(), Flat(kvHead, s.nRep, g)) < s.lanes * s.Heads()
    ensures QueryBase(s, lane, Flat(kvHead, s.nRep, g)) + s.headDim <= s.lanes * s.Heads() * s.headDim
  {
    FlatBound(kvHead, s.kvHeads, s.nRep, g);
    FlatBound(lane, s.lanes, s.Heads(), Flat(kvHead, s.nRep, g));
    RowInside(s.lanes * s.Heads(), s.headDim, Flat(lane, s.Heads(), Flat(kvHead, s.nRep, g)));
  }

  lemma CellInside(s: Shape, numBlocks: nat, block: nat, offset: nat, kvHead: nat)
    requires block < numBlocks && offset < s.blockSize && kvHead < s.kvHeads
    ensures CellBase(s, block, offset, kvHead) + s.headDim <= numBlocks * s.blockSize * s.kvHeads * s.headDim
  {
    FlatBound(block, numBlocks, s.blockSize, offset);
    FlatBound(Flat(block, s.blockSize, offset), numBlocks * s.blockSize, s.kvHeads, kvHead);
    RowInside(numBlocks * s.blockSize * s.kvHeads, s.headDim, Flat(Flat(block, s.blockSize, offset), s.kvHeads, kvHead));
  }

  // ---- The length-gated walk ----

  /** Positions the walk takes from block `b`: all of it, or up to the lane's length. */
  function Live(blockSize: nat, len: nat, b: nat): nat
    requires b * blockSize <= len
  {
    Min(blockSize, len - b * blockSize)
  }

  /** Offset `t` of the walk's `b`-th block is position `b * blockSize + t`; the walk meets positions
      `0, 1, ..` in order and ends exactly at the length. */
  lemma WalkMeetsPositions(blockSize: nat, len: nat, b: nat, t: nat)
    requires blockSize >= 1 && b < CeilDiv(len, blockSize)
    ensures b * blockSize < len && 1 <= Live(blockSize, len, b) <= blockSize
    ensures t < Live(blockSize, len, b) ==>
      Flat(b, blockSize, t) < len && Flat(b, blockSize, t) / blockSize == b && Flat(b, blockSize, t) % blockSize == t
    ensures b * blockSize + Live(blockSize, len, b) == if b + 1 == CeilDiv(len, blockSize) then len else (b + 1) * blockSize
  {
    BlockStartsInside(b, len, blockSize);
    if t < Live(blockSize, len, b) {
      FlatInverse(b, blockSize, t);
    }
    CeilDivRounds(len, blockSize);
    MulSucc(b, blockSize);
    if b + 1 < CeilDiv(len, blockSize) {
      BlockStartsInside(b + 1, len, blockSize);
    } else {
      assert CeilDiv(len, blockSize) == b + 1;
    }
  }
}
