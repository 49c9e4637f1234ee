/** Physical KV storage and the address translation onto it. A row is everything one layer stores for
    one token position; its content is opaque here, so it is modelled by a number. */
module Stores {
  import opened Arithmetic
  import opened Pools

  type Row = int
  type Cells = seq<seq<Row>>

  /** A `(block, offset)` pair. */
  type Address = (nat, nat)

  ghost predicate Shaped(cells: Cells, numBlocks: nat, blockSize: nat) {
    && |cells| == numBlocks
    && forall b :: 0 <= b < |cells| ==> |cells[b]| == blockSize
  }

  /** Logical position `p` of a lane lives in block `table[p / bs]` at offset `p % bs`. */
  function AddressOf(table: Table, p: nat, blockSize: nat): Address
    requires blockSize >= 1 && p / blockSize < |table|
  {
    (table[p / blockSize], p % blockSize)
  }

  ghost predicate InStore(a: Address, numBlocks: nat, blockSize: nat) {
    a.0 < numBlocks && a.1 < blockSize
  }

  /** A table whose blocks cover positions `0..len` and all exist. */
  ghost predicate Covers(table: Table, len: nat, numBlocks: nat, blockSize: nat) {
    && blockSize >= 1
    && |table| >= CeilDiv(len, blockSize)
    && forall i :: 0 <= i < |table| ==> table[i] < numBlocks
  }

  /** The content of position `p` as the table addresses it. */
  function ReadAt(cells: Cells, table: Table, p: nat, blockSize: nat): Row
    requires Shaped(cells, |cells|, blockSize) && blockSize >= 1 && p / blockSize < |table|
    requires table[p / blockSize] < |cells|
  {
    cells[table[p / blockSize]][p % blockSize]
  }

  lemma PositionCovered(table: Table, len: nat, numBlocks: nat, blockSize: nat, p: nat)
    requires Covers(table, len, numBlocks, blockSize) && p < len
    ensures p / blockSize < |table| && InStore(AddressOf(table, p, blockSize), numBlocks, blockSize)
  {
    PositionInBlocks(p, len, blockSize);
  }

  /** What a lane holds: its positions `0..len`, read through its table. */
  ghost function LaneRows(cells: Cells, table: Table, len: nat, blockSize: nat): (rows: seq<Row>)
    requires Shaped(cells, |cells|, blockSize) && Covers(table, len, |cells|, blockSize)
    ensures |rows| == len
  {
    seq(len, p requires 0 <= p < len =>
      (PositionCovered(table, len, |cells|, blockSize, p); ReadAt(cells, table, p, blockSize)))
  }

  lemma LaneRowsAt(cells: Cells, table: Table, len: nat, blockSize: nat, p: nat)
    requires Shaped(cells, |cells|, blockSize) && Covers(table, len, |cells|, blockSize) && p < len
    ensures p / blockSize < |table| && table[p / blockSize] < |cells|
    ensures LaneRows(cells, table, len, blockSize)[p] == ReadAt(cells, table, p, blockSize)
  {
    PositionCovered(table, len, |cells|, blockSize, p);
  }

  /** Under the ledger's partition, distinct lane positions live in distinct cells, none of them in
      the sentinel block. */
  lemma AddressesAreDistinct(free: seq<nat>, tables: seq<Table>, usable: nat, blockSize: nat, l1: nat, p1: nat, l2: nat, p2: nat)
    requires Partitioned(free, tables, usable) && blockSize >= 1 && l1 < |tables| && l2 < |tables|
    requires p1 / blockSize < |tables[l1]| && p2 / blockSize < |tables[l2]|
    ensures AddressOf(tables[l1], p1, blockSize).0 != SENTINEL_BLOCK
    ensures AddressOf(tables[l1], p1, blockSize) == AddressOf(tables[l2], p2, blockSize) ==> l1 == l2 && p1 == p2
  {
    NoSharing(free, tables, usable, l1, p1 / blockSize, l2, p2 / blockSize);
    if AddressOf(tables[l1], p1, blockSize) == AddressOf(tables[l2], p2, blockSize) {
      DivModDetermine(p1, p2, blockSize);
    }
  }

  /** The destinations of one round, lane-major: `seqLen` positions of each lane from its start. */
  method WriteIndices(tables: seq<Table>, starts: seq<nat>, seqLen: nat, blockSize: nat) returns (ids: seq<Address>)
    requires blockSize >= 1 && |tables| == |starts|
    requires forall j :: 0 <= j < |tables| ==> CeilDiv(starts[j] + seqLen, blockSize) <= |tables[j]|
    ensures Destinations(ids, tables, starts, seqLen, blockSize)
  {
    ids := [];
    for j := 0 to |tables|
      invariant Destinations(ids, tables[..j], starts[..j], seqLen, blockSize)
    {
      ghost var before := ids;
      for r := 0 to seqLen
        invariant |ids| == |before| + r && before <= ids
        invariant forall k :: 0 <= k < r ==> ids[|before| + k] == Destination(tables[j], starts[j], k, blockSize)
      {
        PositionInBlocks(starts[j] + r, starts[j] + seqLen, blockSize);
        ids := ids + [AddressOf(tables[j], starts[j] + r, blockSize)];
      }
      DestinationsGrow(before, ids, tables, starts, j, seqLen, blockSize);
    }
    assert tables[..|tables|] == tables && starts[..|starts|] == starts;
  }

  /** `AddressOf` made total, for use under a quantifier. */
  ghost function Destination(table: Table, start: nat, r: nat, blockSize: nat): Address
    requires blockSize >= 1
  {
    var p := start + r;
    if p / blockSize < |table| then AddressOf(table, p, blockSize) else (SENTINEL_BLOCK, 0)
  }

  ghost predicate Destinations(ids: seq<Address>, tables: seq<Table>, starts: seq<nat>, seqLen: nat, blockSize: nat)
    requires blockSize >= 1 && |tables| == |starts|
  {
    && |ids| == |tables| * seqLen
    && forall j, r {:trigger Flat(j, seqLen, r)} :: 0 <= j < |tables| && 0 <= r < seqLen ==>
         Flat(j, seqLen, r) < |ids| && ids[Flat(j, seqLen, r)] == Destination(tables[j], starts[j], r, blockSize)
  }

  lemma DestinationsGrow(before: seq<Address>, ids: seq<Address>, tables: seq<Table>, starts: seq<nat>, j: nat, seqLen: nat, blockSize: nat)
    requires blockSize >= 1 && |tables| == |starts| && j < |tables|
    requires Destinations(before, tables[..j], starts[..j], seqLen, blockSize)
    requires |ids| == |before| + seqLen && before <= ids
    requires forall k :: 0 <= k < seqLen ==> ids[|before| + k] == Destination(tables[j], starts[j], k, blockSize)
    ensures Destinations(ids, tables[..j + 1], starts[..j + 1], seqLen, blockSize)
  {
    assert |ids| == (j + 1) * seqLen;
    forall i, r {:trigger Flat(i, seqLen, r)} | 0 <= i < j + 1 && 0 <= r < seqLen
      ensures Flat(i, seqLen, r) < |ids| && ids[Flat(i, seqLen, r)] == Destination(tables[..j + 1][i], starts[..j + 1][i], r, blockSize)
    {
      FlatBound(i, j + 1, seqLen, r);
      if i < j {
        assert ids[Flat(i, seqLen, r)] == before[Flat(i, seqLen, r)];
      } else {
        assert Flat(i, seqLen, r) == |before| + r;
      }
    }
  }

  class BlockStore {
    const numBlocks: nat
    const blockSize: nat
    var cells: Cells

    ghost predicate Valid()
      reads this
    {
      blockSize >= 1 && numBlocks >= 1 && Shaped(cells, numBlocks, blockSize)
    }

    /** Only the sentinel is initialized; every other block starts with whatever memory held. */
    constructor (numBlocks: nat, blockSize: nat, garbage: Cells)
      requires numBlocks >= 1 && blockSize >= 1 && Shaped(garbage, numBlocks, blockSize)
      ensures Valid() && this.numBlocks == numBlocks && this.blockSize == blockSize
      ensures cells[SENTINEL_BLOCK] == seq(blockSize, _ => 0)
      ensures forall b :: 1 <= b < numBlocks ==> cells[b] == garbage[b]
    {
      this.numBlocks := numBlocks;
      this.blockSize := blockSize;
      cells := garbage[SENTINEL_BLOCK := seq(blockSize, _ => 0)];
    }

    /** One indexed scatter; the indices must be unique for the assignment to be well defined. */
    method Write(writeIdx: seq<Address>, rows: seq<Row>)
      requires Valid() && |rows| == |writeIdx| && Distinct(writeIdx)
      requires forall k :: 0 <= k < |writeIdx| ==> InStore(writeIdx[k], numBlocks, blockSize)
      modifies this
      ensures Valid()
      ensures Scattered(old(cells), cells, writeIdx, rows)
    {
      for k := 0 to |writeIdx|
        invariant Valid()
        invariant Scattered(old(cells), cells, writeIdx[..k], rows[..k])
      {
        var (block, offset) := writeIdx[k];
        ghost var before := cells;
        cells := cells[block := cells[block][offset := rows[k]]];
        OneMoreCell(old(cells), before, cells, writeIdx, rows, k);
      }
      assert writeIdx[..|writeIdx|] == writeIdx && rows[..|rows|] == rows;
    }

    /** Read `lMax` positions for each lane, whole blocks selected and stitched, then trimmed. */
    function Gather(idx: seq<nat>, blocksPerLane: nat, lMax: nat): (ragged: seq<seq<Row>>)
      requires Valid() && blocksPerLane >= 1 && |idx| % blocksPerLane == 0 && lMax <= blocksPerLane * blockSize
      requires forall i :: 0 <= i < |idx| ==> idx[i] < numBlocks
      reads this
      ensures |ragged| == |idx| / blocksPerLane
      ensures forall j :: 0 <= j < |ragged| ==> |ragged[j]| == lMax
    {
      seq(|idx| / blocksPerLane, j requires 0 <= j < |idx| / blocksPerLane reads this
          requires Valid() && forall i :: 0 <= i < |idx| ==> idx[i] < numBlocks =>
        seq(lMax, c requires 0 <= c < lMax reads this
            requires Valid() && forall i :: 0 <= i < |idx| ==> idx[i] < numBlocks =>
          (GatherInRange(|idx|, blocksPerLane, blockSize, lMax, j, c);
           cells[idx[Flat(j, blocksPerLane, c / blockSize)]][c % blockSize])))
    }
  }

  lemma GatherInRange(count: nat, blocksPerLane: nat, blockSize: nat, lMax: nat, j: nat, c: nat)
    requires blocksPerLane >= 1 && blockSize >= 1 && count % blocksPerLane == 0 && lMax <= blocksPerLane * blockSize
    requires j < count / blocksPerLane && c < lMax
    ensures c / blockSize < blocksPerLane && c % blockSize < blockSize
    ensures Flat(j, blocksPerLane, c / blockSize) < count
  {
    FlatSplit(c, blocksPerLane, blockSize);
    FlatBound(j, count / blocksPerLane, blocksPerLane, c / blockSize);
    assert (count / blocksPerLane) * blocksPerLane == count;
  }

  /** Exactly the addressed cells took their rows. */
  ghost predicate Scattered(before: Cells, after: Cells, idx: seq<Address>, rows: seq<Row>)
    requires |idx| == |rows|
  {
    && |before| == |after|
    && (forall b :: 0 <= b < |before| ==> |before[b]| == |after[b]|)
    && (forall k :: 0 <= k < |idx| ==> idx[k].0 < |after| && idx[k].1 < |after[idx[k].0]| && after[idx[k].0][idx[k].1] == rows[k])
    && (forall b, o :: 0 <= b < |before| && 0 <= o < |before[b]| && (b, o) !in idx ==> after[b][o] == before[b][o])
  }

  lemma OneMoreCell(cells0: Cells, before: Cells, after: Cells, idx: seq<Address>, rows: seq<Row>, k: nat)
    requires k < |idx| == |rows| && Distinct(idx)
    requires Scattered(cells0, before, idx[..k], rows[..k])
    requires idx[k].0 < |before| && idx[k].1 < |before[idx[k].0]|
    requires after == before[idx[k].0 := before[idx[k].0][idx[k].1 := rows[k]]]
    ensures Scattered(cells0, after, idx[..k + 1], rows[..k + 1])
  {
    assert idx[..k + 1] == idx[..k] + [idx[k]];
    forall i | 0 <= i < k
      ensures after[idx[i].0][idx[i].1] == rows[i]
    {
      assert idx[..k][i] == idx[i] && rows[..k][i] == rows[i];
      assert idx[i] != idx[k];
    }
  }
}
