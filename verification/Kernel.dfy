/** The decode kernel: each plane of a cube walks every `planes`-th block of a lane with the online
    recurrence, and the partial states are merged. */
module Kernel {
  import opened Arithmetic
  import opened OnlineSoftmax
  import opened Attention
  import opened PlaneDots
  import opened PlaneSplits
  import opened Oracle

  // ---- A plane's registers ----

  /** Elements all units of a plane hold together, padding included. */
  function Padded(p: Plane): nat {
    p.dpu * p.planeDim * p.width
  }

  /** The slot an accumulator element belongs to has been updated: units before `u` are done, and unit
      `u` is done with its first `i` steps. */
  predicate Reached(p: Plane, slot: nat, u: nat, i: nat)
    requires p.planeDim >= 1
  {
    slot % p.planeDim < u || (slot % p.planeDim == u && slot / p.planeDim < i)
  }

  lemma ReachedNext(p: Plane, slot: nat, u: nat, i: nat)
    requires p.planeDim >= 1 && u < p.planeDim
    ensures Reached(p, slot, u, i + 1) <==> Reached(p, slot, u, i) || slot == Flat(i, p.planeDim, u)
  {
    FlatInverse(i, p.planeDim, u);
    assert slot == (slot / p.planeDim) * p.planeDim + slot % p.planeDim;
  }

  /** A unit that is done with all its steps is done with all its slots. */
  lemma UnitDone(p: Plane, slot: nat, u: nat)
    requires p.planeDim >= 1 && slot < p.dpu * p.planeDim
    ensures Reached(p, slot, u, p.dpu) <==> Reached(p, slot, u + 1, 0)
  {
    FlatSplit(slot, p.dpu, p.planeDim);
  }

  /** What an accumulator element becomes: rescaled, plus its share of the weighted value row; elements
      past the row only ever add zero. */
  function Accumulated(p: Plane, old_: real, alpha: real, weight: real, v: seq<real>, row: nat, a: nat): real
    requires p.width >= 1
  {
    old_ * alpha + weight * (if a / p.width < p.slots then Load(v, row * p.width + a) else 0.0)
  }

  /** One unit's accumulators for one slot: a vector update. */
  method UpdateSlot(p: Plane, acc: array<real>, alpha: real, weight: real, v: seq<real>, row: nat, slot: nat)
    requires p.width >= 1 && p.slots >= 1 && (row + p.slots) * p.width <= |v| && slot * p.width + p.width <= acc.Length
    modifies acc
    ensures forall a :: 0 <= a < acc.Length ==>
      acc[a] == if a / p.width == slot then Accumulated(p, old(acc[a]), alpha, weight, v, row, a) else old(acc[a])
  {
    hide Accumulated, MaskedLoad;
    var vv := ReadMasked(p, v, row, slot);
    ScaleAdd(acc, alpha, weight, vv, slot * p.width);
    forall a | 0 <= a < acc.Length
      ensures acc[a] == if a / p.width == slot then Accumulated(p, old(acc[a]), alpha, weight, v, row, a) else old(acc[a])
    {
      InSlot(p, slot, a);
      if a / p.width == slot {
        SlotAccumulates(p, old(acc[a]), alpha, weight, v, row, a);
      }
    }
  }

  lemma SlotAccumulates(p: Plane, x: real, alpha: real, weight: real, v: seq<real>, row: nat, a: nat)
    requires p.width >= 1
    ensures x * alpha + weight * MaskedLoad(p, v, row, a / p.width, a % p.width) == Accumulated(p, x, alpha, weight, v, row, a)
  {
    assert a == Flat(a / p.width, p.width, a % p.width);
  }

  /** Rescale a stretch of accumulators and add a weighted vector. */
  method ScaleAdd(acc: array<real>, alpha: real, weight: real, vv: seq<real>, from: nat)
    requires from + |vv| <= acc.Length
    modifies acc
    ensures forall a :: 0 <= a < acc.Length ==>
      acc[a] == if from <= a < from + |vv| then old(acc[a]) * alpha + weight * vv[a - from] else old(acc[a])
  {
    for k := 0 to |vv|
      invariant forall a :: 0 <= a < acc.Length ==>
        acc[a] == if from <= a < from + k then old(acc[a]) * alpha + weight * vv[a - from] else old(acc[a])
    {
      acc[from + k] := acc[from + k] * alpha + weight * vv[k];
    }
  }

  lemma InSlot(p: Plane, slot: nat, a: nat)
    requires p.width >= 1
    ensures a / p.width == slot <==> slot * p.width <= a < slot * p.width + p.width
    ensures a / p.width == slot ==> a == Flat(slot, p.width, a - slot * p.width) && a - slot * p.width == a % p.width
  {
    assert a == (a / p.width) * p.width + a % p.width;
    if slot * p.width <= a < slot * p.width + p.width {
      QuotientUnique(slot, a, p.width);
    }
  }

  /** Every unit updates its own cyclic slice; together they update every accumulator exactly once. */
  method UpdateUnits(p: Plane, acc: array<real>, alpha: real, weight: real, v: seq<real>, row: nat, ghost headDim: nat)
    requires Covers(p, headDim) && p.slots >= 1 && (row + p.slots) * p.width <= |v| && acc.Length == Padded(p)
    modifies acc
    ensures forall a :: 0 <= a < acc.Length ==> acc[a] == Accumulated(p, old(acc[a]), alpha, weight, v, row, a)
  {
    hide Accumulated, Reached;
    ghost var acc0 := acc[..];
    NothingReached(p);
    for u := 0 to p.planeDim
      invariant forall a :: 0 <= a < acc.Length ==> acc[a] == if Reached(p, a / p.width, u, 0) then Accumulated(p, acc0[a], alpha, weight, v, row, a) else acc0[a]
    {
      for i := 0 to p.dpu
        invariant forall a :: 0 <= a < acc.Length ==> acc[a] == if Reached(p, a / p.width, u, i) then Accumulated(p, acc0[a], alpha, weight, v, row, a) else acc0[a]
      {
        var slot := Flat(i, p.planeDim, u);
        SlotInside(p, i, u);
        FreshSlot(p, i, u);
        forall a | 0 <= a < acc.Length
          ensures Reached(p, a / p.width, u, i + 1) <==> Reached(p, a / p.width, u, i) || a / p.width == slot
        {
          ReachedNext(p, a / p.width, u, i);
        }
        UpdateSlot(p, acc, alpha, weight, v, row, slot);
      }
      forall a | 0 <= a < acc.Length
        ensures Reached(p, a / p.width, u, p.dpu) <==> Reached(p, a / p.width, u + 1, 0)
      {
        ElementInside(p, a);
        UnitDone(p, a / p.width, u);
      }
    }
    AllReached(p);
  }

  lemma NothingReached(p: Plane)
    requires p.planeDim >= 1
    ensures forall slot: nat :: !Reached(p, slot, 0, 0)
  {
  }

  lemma AllReached(p: Plane)
    requires p.planeDim >= 1
    ensures forall slot: nat :: Reached(p, slot, p.planeDim, 0)
  {
  }

  lemma FreshSlot(p: Plane, i: nat, u: nat)
    requires p.planeDim >= 1 && u < p.planeDim
    ensures !Reached(p, Flat(i, p.planeDim, u), u, i)
  {
    FlatInverse(i, p.planeDim, u);
  }

  lemma SlotInside(p: Plane, i: nat, u: nat)
    requires i < p.dpu && u < p.planeDim
    ensures Flat(i, p.planeDim, u) < p.dpu * p.planeDim
    ensures Flat(i, p.planeDim, u) * p.width + p.width <= Padded(p)
  {
    FlatBound(i, p.dpu, p.planeDim, u);
    MulLess(Flat(i, p.planeDim, u), p.dpu * p.planeDim, p.width);
  }

  lemma ElementInside(p: Plane, a: nat)
    requires p.width >= 1 && a < Padded(p)
    ensures a / p.width < p.dpu * p.planeDim
  {
    FlatSplit(a, p.dpu * p.planeDim, p.width);
  }

  // ---- One plane's walk ----

  /** A row of slots is a row of elements. */
  lemma SlotsToElements(p: Plane, headDim: nat, x: nat)
    requires Covers(p, headDim)
    ensures (x * p.slots) * p.width == x * headDim
    ensures (x * p.slots + p.slots) * p.width == x * headDim + headDim
  {
    assert (x * p.slots) * p.width == x * (p.slots * p.width);
    assert (x * p.slots + p.slots) * p.width == (x * p.slots) * p.width + p.slots * p.width;
  }

  /** Updating the registers is absorbing the key, padding and all. */
  lemma RegistersAbsorb(exp: real -> real, p: Plane, headDim: nat, st: Partial, key: Key, v: seq<real>, row: nat, after: Partial)
    requires Covers(p, headDim) && |after.acc| == |st.acc|
    requires key.value == RowOf(v, row * p.width, headDim)
    requires var top := Higher(st.m, key.score); var alpha, weight := Rescale(exp, st.m, top), exp(key.score - top);
      && after.m == At(top) && after.l == st.l * alpha + weight
      && forall a :: 0 <= a < |after.acc| ==> after.acc[a] == Accumulated(p, st.acc[a], alpha, weight, v, row, a)
    ensures after == Absorb(exp, st, key)
  {
    forall a | 0 <= a < |after.acc|
      ensures after.acc[a] == Absorb(exp, st, key).acc[a]
    {
      PaddedComponent(p, headDim, v, row, a);
    }
  }

  lemma PaddedComponent(p: Plane, headDim: nat, v: seq<real>, row: nat, a: nat)
    requires Covers(p, headDim)
    ensures Component(RowOf(v, row * p.width, headDim), a) == if a / p.width < p.slots then Load(v, row * p.width + a) else 0.0
  {
    InRow(p, a);
  }

  lemma InRow(p: Plane, a: nat)
    requires p.width >= 1
    ensures a < p.slots * p.width <==> a / p.width < p.slots
  {
    assert a == (a / p.width) * p.width + a % p.width;
    if a / p.width < p.slots {
      MulLess(a / p.width, p.slots, p.width);
    } else if a / p.width > p.slots {
      MulLess(p.slots, a / p.width, p.width);
    }
  }

  /** One key: a plane-uniform score, then the online recurrence on every unit's registers. */
  method VisitKey(exp: real -> real, s: Shape, mem: Memory, p: Plane, lane: nat, kvHead: nat, g: nat, row: nat, m: Peak, l: real, acc: array<real>, ghost pos: nat, ghost keys: seq<Key>)
    returns (mNew: Peak, lNew: real)
    requires Exponential(exp) && s.blockSize >= 1 && Covers(p, s.headDim) && p.slots >= 1 && |mem.v| == |mem.k|
    requires QueryBase(s, lane, Flat(kvHead, s.nRep, g)) + s.headDim <= |mem.q|
    requires row * p.width == RowBase(s, mem, lane, kvHead, pos) && (row + p.slots) * p.width <= |mem.k|
    requires acc.Length == Padded(p) && Summarizes(exp, Partial(m, l, acc[..]), keys)
    modifies acc
    ensures Summarizes(exp, Partial(mNew, lNew, acc[..]), keys + [KeyOf(s, mem, lane, kvHead, g, pos)])
  {
    hide Exponential, Summarizes, RowBase, Absorb, Dot;
    ghost var before, key := Partial(m, l, acc[..]), KeyOf(s, mem, lane, kvHead, g, pos);
    var qbase := Flat(lane, s.Heads(), Flat(kvHead, s.nRep, g)) * p.slots;
    SlotsToElements(p, s.headDim, Flat(lane, s.Heads(), Flat(kvHead, s.nRep, g)));
    var dot := PlaneDot(p, mem.q, qbase, mem.k, row, s.headDim);
    var score := dot * s.scale;
    assert key == Key(score, RowOf(mem.v, row * p.width, s.headDim));
    var top := Higher(m, score);
    var alpha, weight := Rescale(exp, m, top), exp(score - top);
    lNew := l * alpha + weight;
    UpdateUnits(p, acc, alpha, weight, mem.v, row, s.headDim);
    mNew := At(top);
    RegistersAbsorb(exp, p, s.headDim, before, key, mem.v, row, Partial(mNew, lNew, acc[..]));
    AbsorbSummarizes(exp, before, keys, key);
  }

  /** The live part of one block. */
  method PlaneBlock(exp: real -> real, s: Shape, mem: Memory, ghost numBlocks: nat, p: Plane, lane: nat, kvHead: nat, g: nat, b: nat, m: Peak, l: real, acc: array<real>, ghost keys: seq<Key>)
    returns (mNew: Peak, lNew: real)
    requires Exponential(exp) && WellShaped(s, mem, numBlocks) && lane < s.lanes && kvHead < s.kvHeads && g < s.nRep
    requires Covers(p, s.headDim) && p.slots >= 1 && b < CeilDiv(mem.lengths[lane], s.blockSize)
    requires acc.Length == Padded(p) && Summarizes(exp, Partial(m, l, acc[..]), keys)
    modifies acc
    ensures Summarizes(exp, Partial(mNew, lNew, acc[..]), keys + BlockKeys(s, mem, lane, kvHead, g, mem.lengths[lane], b))
  {
    hide WellShaped, Exponential, Summarizes, CellBase, RowBase, BlockOf, Met, CeilDiv, KeyOf;
    ShapeFacts(s, mem, numBlocks);
    LaneFacts(s, mem, numBlocks, lane);
    BlockFacts(s, mem, numBlocks, lane, b);
    HeadInside(s, lane, kvHead, g);
    ghost var block := BlockKeys(s, mem, lane, kvHead, g, mem.lengths[lane], b);
    mNew, lNew := m, l;
    var blk := mem.table[Flat(lane, s.blocksPerLane, b)];
    var live := Min(s.blockSize, mem.lengths[lane] - b * s.blockSize);
    assert keys + block[..0] == keys;
    for t := 0 to live
      invariant Summarizes(exp, Partial(mNew, lNew, acc[..]), keys + block[..t])
    {
      RowOfWalk(s, mem, numBlocks, lane, kvHead, b, t);
      var row := Flat(Flat(blk, s.blockSize, t), s.kvHeads, kvHead) * p.slots;
      RowInSlots(s, p, blk, t, kvHead);
      mNew, lNew := VisitKey(exp, s, mem, p, lane, kvHead, g, row, mNew, lNew, acc, Flat(b, s.blockSize, t), keys + block[..t]);
      assert keys + block[..t + 1] == (keys + block[..t]) + [block[t]];
    }
    assert block[..live] == block;
  }

  lemma RowInSlots(s: Shape, p: Plane, block: nat, offset: nat, kvHead: nat)
    requires Covers(p, s.headDim)
    ensures var row := Flat(Flat(block, s.blockSize, offset), s.kvHeads, kvHead) * p.slots;
      row * p.width == CellBase(s, block, offset, kvHead) && (row + p.slots) * p.width == CellBase(s, block, offset, kvHead) + s.headDim
  {
    SlotsToElements(p, s.headDim, Flat(Flat(block, s.blockSize, offset), s.kvHeads, kvHead));
  }

  /** Plane `id` walks blocks `id`, `id + planes`, .. of the lane; it may draw none. */
  method PlaneWalk(exp: real -> real, s: Shape, mem: Memory, ghost numBlocks: nat, p: Plane, planes: nat, id: nat, lane: nat, kvHead: nat, g: nat) returns (st: Partial)
    requires Exponential(exp) && WellShaped(s, mem, numBlocks) && lane < s.lanes && kvHead < s.kvHeads && g < s.nRep
    requires Covers(p, s.headDim) && p.slots >= 1 && id < planes
    ensures s.blockSize >= 1 && |st.acc| == Padded(p)
    ensures var blocks := LaneBlocks(s, mem, lane, kvHead, g, mem.lengths[lane]);
      Summarizes(exp, st, Share(blocks, id, planes, |blocks|))
  {
    hide WellShaped, Exponential, Summarizes, Share, BlockKeys, Flat;
    LaneFacts(s, mem, numBlocks, lane);
    ShapeFacts(s, mem, numBlocks);
    FirstBlock(planes, id);
    ghost var blocks := LaneBlocks(s, mem, lane, kvHead, g, mem.lengths[lane]);
    var nBlocks := CeilDiv(mem.lengths[lane], s.blockSize);
    var acc := new real[Padded(p)](_ => 0.0);
    var m, l := Empty, 0.0;
    ghost var k := 0;
    var b := id;
    StartSummarizes(exp, acc[..], blocks, id, planes, Min(id, nBlocks));
    while b < nBlocks
      invariant b == Flat(k, planes, id)
      invariant Summarizes(exp, Partial(m, l, acc[..]), Share(blocks, id, planes, Min(b, nBlocks)))
      decreases nBlocks + planes - b
    {
      m, l := PlaneBlock(exp, s, mem, numBlocks, p, lane, kvHead, g, b, m, l, acc, Share(blocks, id, planes, b));
      NextShare(blocks, planes, k, id);
      b := b + planes;
      k := k + 1;
    }
    st := Partial(m, l, acc[..]);
  }

  /** From one of its blocks to the next, a plane meets that one block. */
  lemma NextShare<T>(blocks: seq<seq<T>>, planes: nat, k: nat, id: nat)
    requires id < planes && Flat(k, planes, id) < |blocks|
    ensures var b := Flat(k, planes, id);
      && Flat(k + 1, planes, id) == b + planes
      && Share(blocks, id, planes, Min(b + planes, |blocks|)) == Share(blocks, id, planes, b) + blocks[b]
  {
    MulSucc(k, planes);
    MyBlock(blocks, planes, k, id);
    NothingBetween(blocks, planes, k, id, Flat(k, planes, id) + 1, Min(Flat(k, planes, id) + planes, |blocks|));
  }

  lemma FirstBlock(planes: nat, id: nat)
    ensures Flat(0, planes, id) == id
  {
  }

  lemma StartSummarizes(exp: real -> real, acc: seq<real>, blocks: seq<seq<Key>>, id: nat, planes: nat, n: nat)
    requires id < planes && n <= id && n <= |blocks| && forall a :: 0 <= a < |acc| ==> acc[a] == 0.0
    ensures Summarizes(exp, Partial(Empty, 0.0, acc), Share(blocks, id, planes, n))
  {
    NothingBetween(blocks, planes, 0, id, 0, n);
  }

  lemma MyBlock<T>(blocks: seq<seq<T>>, planes: nat, k: nat, id: nat)
    requires id < planes && Flat(k, planes, id) < |blocks|
    ensures var b := Flat(k, planes, id);
      Share(blocks, id, planes, b + 1) == Share(blocks, id, planes, b) + blocks[b]
  {
    FlatInverse(k, planes, id);
  }

  // ---- A cube ----

  /** All planes of a cube, merged: attention's sums over exactly the lane's positions, whatever the
      number of planes. */
  method AttendHead(exp: real -> real, s: Shape, mem: Memory, ghost numBlocks: nat, p: Plane, planes: nat, lane: nat, kvHead: nat, g: nat) returns (st: Partial)
    requires Exponential(exp) && WellShaped(s, mem, numBlocks) && lane < s.lanes && kvHead < s.kvHeads && g < s.nRep
    requires Covers(p, s.headDim) && p.slots >= 1 && planes >= 1
    ensures s.blockSize >= 1 && |st.acc| == Padded(p)
    ensures Summarizes(exp, st, LaneKeys(s, mem, lane, kvHead, g, mem.lengths[lane]))
  {
    hide WellShaped, Exponential, Summarizes, BlockKeys, KeyOf;
    LaneFacts(s, mem, numBlocks, lane);
    ShapeFacts(s, mem, numBlocks);
    ghost var len := mem.lengths[lane];
    ghost var blocks := LaneBlocks(s, mem, lane, kvHead, g, len);
    var parts: seq<Partial> := [];
    for id := 0 to planes
      invariant |parts| == id && forall q :: 0 <= q < id ==> Summarizes(exp, parts[q], Share(blocks, q, planes, |blocks|)) && |parts[q].acc| == Padded(p)
    {
      var part := PlaneWalk(exp, s, mem, numBlocks, p, planes, id, lane, kvHead, g);
      parts := parts + [part];
    }
    ghost var shares := Shares(blocks, planes, |blocks|);
    if planes == 1 {
      st := parts[0];
      assert shares[..0] == [] && Gathered(shares) == shares[0];
    } else {
      st := Merge(exp, parts, shares, Padded(p));
    }
    SharesPermute(blocks, planes, |blocks|);
    assert blocks[..|blocks|] == blocks;
    BlocksAreTheLane(s, mem, lane, kvHead, g, len, |blocks|);
    SummarizesPermuted(exp, st, Gathered(shares), LaneKeys(s, mem, lane, kvHead, g, len));
  }

  /** Address `a` lies in slot `slot` of the row that starts at `base`. */
  predicate InSlotOf(p: Plane, base: nat, a: nat, slot: nat)
    requires p.width >= 1
  {
    base <= a && (a - base) / p.width == slot
  }

  /** One output slot. */
  method WriteSlot(p: Plane, st: Partial, inv: real, out: array<real>, base: nat, slot: nat)
    requires p.width >= 1 && slot * p.width + p.width <= |st.acc| && base + slot * p.width + p.width <= out.Length
    modifies out
    ensures forall a :: 0 <= a < out.Length ==>
      out[a] == if InSlotOf(p, base, a, slot) then Component(st.acc, a - base) * inv else old(out[a])
  {
    for k := 0 to p.width
      invariant forall a :: 0 <= a < out.Length ==>
        out[a] == if base + slot * p.width <= a < base + slot * p.width + k then Component(st.acc, a - base) * inv else old(out[a])
    {
      out[base + slot * p.width + k] := st.acc[slot * p.width + k] * inv;
    }
    forall a | 0 <= a < out.Length && base <= a
      ensures InSlotOf(p, base, a, slot) <==> base + slot * p.width <= a < base + slot * p.width + p.width
    {
      InSlot(p, slot, a - base);
    }
  }

  /** Address `a` lies in a slot of the row that the units have reached. */
  predicate Stored(p: Plane, base: nat, a: nat, u: nat, i: nat)
    requires p.planeDim >= 1 && p.width >= 1
  {
    base <= a && (a - base) / p.width < p.slots && Reached(p, (a - base) / p.width, u, i)
  }

  lemma StoredNext(p: Plane, base: nat, a: nat, u: nat, i: nat)
    requires p.planeDim >= 1 && p.width >= 1 && u < p.planeDim
    ensures Stored(p, base, a, u, i + 1) <==>
      Stored(p, base, a, u, i) || (Flat(i, p.planeDim, u) < p.slots && InSlotOf(p, base, a, Flat(i, p.planeDim, u)))
  {
    if base <= a {
      ReachedNext(p, (a - base) / p.width, u, i);
    }
  }

  lemma StoredUnit(p: Plane, base: nat, a: nat, u: nat)
    requires p.planeDim >= 1 && p.width >= 1 && p.dpu == CeilDiv(p.slots, p.planeDim)
    ensures Stored(p, base, a, u, p.dpu) <==> Stored(p, base, a, u + 1, 0)
  {
    CeilDivRounds(p.slots, p.planeDim);
    if base <= a && (a - base) / p.width < p.slots {
      UnitDone(p, (a - base) / p.width, u);
    }
  }

  lemma StoredAll(p: Plane, base: nat, a: nat)
    requires p.planeDim >= 1 && p.width >= 1
    ensures Stored(p, base, a, p.planeDim, 0) <==> base <= a < base + p.slots * p.width
    ensures !Stored(p, base, a, 0, 0)
  {
    if base <= a {
      InRow(p, a - base);
    }
  }

  /** Every unit stores its own slots of the row, guarded by the row's end: each element of the row is
      written, and nothing else. */
  method WriteUnits(p: Plane, st: Partial, out: array<real>, base: nat, ghost headDim: nat)
    requires Covers(p, headDim) && |st.acc| == Padded(p) && base + headDim <= out.Length
    modifies out
    ensures headDim <= |st.acc|
    ensures forall a :: base <= a < base + headDim ==> out[a] == Normalized(st, a - base)
    ensures forall a :: 0 <= a < out.Length && !(base <= a < base + headDim) ==> out[a] == old(out[a])
  {
    var inv := 1.0 / (if st.l >= CLAMP then st.l else CLAMP);
    RowFits(p, headDim);
    ghost var before := out[..];
    forall a: nat ensures !Stored(p, base, a, 0, 0) && (Stored(p, base, a, p.planeDim, 0) <==> base <= a < base + headDim) {
      StoredAll(p, base, a);
    }
    hide Stored, InSlotOf;
    for u := 0 to p.planeDim
      invariant forall a :: 0 <= a < out.Length ==> out[a] == if Stored(p, base, a, u, 0) then Component(st.acc, a - base) * inv else before[a]
    {
      WriteUnit(p, st, inv, out, base, u, headDim, before);
    }
  }

  /** One unit's stores. */
  method WriteUnit(p: Plane, st: Partial, inv: real, out: array<real>, base: nat, u: nat, ghost headDim: nat, ghost before: seq<real>)
    requires Covers(p, headDim) && |st.acc| == Padded(p) && base + headDim <= out.Length && u < p.planeDim && |before| == out.Length
    requires forall a :: 0 <= a < out.Length ==> out[a] == if Stored(p, base, a, u, 0) then Component(st.acc, a - base) * inv else before[a]
    modifies out
    ensures forall a :: 0 <= a < out.Length ==> out[a] == if Stored(p, base, a, u + 1, 0) then Component(st.acc, a - base) * inv else before[a]
  {
    RowFits(p, headDim);
    hide Stored, InSlotOf;
    for i := 0 to p.dpu
      invariant forall a :: 0 <= a < out.Length ==> out[a] == if Stored(p, base, a, u, i) then Component(st.acc, a - base) * inv else before[a]
    {
      forall a: nat ensures Stored(p, base, a, u, i + 1) <==>
        Stored(p, base, a, u, i) || (Flat(i, p.planeDim, u) < p.slots && InSlotOf(p, base, a, Flat(i, p.planeDim, u)))
      {
        StoredNext(p, base, a, u, i);
      }
      var slot := Flat(i, p.planeDim, u);
      if slot < p.slots {
        MulLess(slot, p.slots, p.width);
        WriteSlot(p, st, inv, out, base, slot);
      }
    }
    forall a: nat ensures Stored(p, base, a, u, p.dpu) <==> Stored(p, base, a, u + 1, 0) {
      StoredUnit(p, base, a, u);
    }
  }

  lemma RowFits(p: Plane, headDim: nat)
    requires Covers(p, headDim)
    ensures headDim <= Padded(p)
  {
    CeilDivRounds(p.slots, p.planeDim);
    if p.slots < p.dpu * p.planeDim {
      MulLess(p.slots, p.dpu * p.planeDim, p.width);
    }
  }

  /** One cube's output row for one group member. */
  method FinishHead(exp: real -> real, s: Shape, mem: Memory, ghost numBlocks: nat, p: Plane, planes: nat, lane: nat, kvHead: nat, g: nat, out: array<real>)
    requires Exponential(exp) && WellShaped(s, mem, numBlocks) && lane < s.lanes && kvHead < s.kvHeads && g < s.nRep
    requires Covers(p, s.headDim) && p.slots >= 1 && planes >= 1
    requires out.Length == s.lanes * s.Heads() * s.headDim
    requires DoneBefore(exp, s, mem, out[..], Flat(lane, s.Heads(), Flat(kvHead, s.nRep, g)))
    modifies out
    ensures DoneBefore(exp, s, mem, out[..], Flat(lane, s.Heads(), Flat(kvHead, s.nRep, g)) + 1)
  {
    hide Exponential, Summarizes, IsAttention, DoneBefore, Normalized, Flat, LaneKeys;
    ghost var out0 := out[..];
    HeadInside(s, lane, kvHead, g);
    var st := AttendHead(exp, s, mem, numBlocks, p, planes, lane, kvHead, g);
    SlotsToElements(p, s.headDim, Flat(lane, s.Heads(), Flat(kvHead, s.nRep, g)));
    var obase := Flat(lane, s.Heads(), Flat(kvHead, s.nRep, g)) * p.slots;
    var base := obase * p.width;
    WriteUnits(p, st, out, base, s.headDim);
    forall a | base <= a < base + s.headDim
      ensures IsAttention(exp, s, mem, lane, kvHead, g, a - base, out[a])
    {
      MemberIsDone(exp, s, mem, numBlocks, lane, kvHead, st, g, a - base);
    }
    hide WellShaped;
    OneMoreRow(exp, s, mem, out0, out[..], lane, kvHead, g);
  }

  /** The whole launch: one cube per lane and KV head, each writing its query group's rows. */
  method Decode(exp: real -> real, s: Shape, mem: Memory, ghost numBlocks: nat, p: Plane, planes: nat) returns (out: array<real>)
    requires Exponential(exp) && WellShaped(s, mem, numBlocks)
    requires Covers(p, s.headDim) && p.slots >= 1 && planes >= 1
    ensures fresh(out) && out.Length == s.lanes * s.Heads() * s.headDim && s.blockSize >= 1
    ensures forall lane, kvHead, g :: 0 <= lane < s.lanes && 0 <= kvHead < s.kvHeads && 0 <= g < s.nRep ==>
      RowDone(exp, s, mem, out[..], lane, kvHead, g)
  {
    ShapeFacts(s, mem, numBlocks);
    hide WellShaped, Exponential, DoneBefore, RowDone, Flat, Covers;
    out := new real[s.lanes * s.Heads() * s.headDim](_ => 0.0);
    NothingDone(exp, s, mem, out[..]);
    for lane := 0 to s.lanes
      invariant DoneBefore(exp, s, mem, out[..], Flat(lane, s.Heads(), Flat(0, s.nRep, 0)))
    {
      for kvHead := 0 to s.kvHeads
        invariant DoneBefore(exp, s, mem, out[..], Flat(lane, s.Heads(), Flat(kvHead, s.nRep, 0)))
      {
        for g := 0 to s.nRep
          invariant DoneBefore(exp, s, mem, out[..], Flat(lane, s.Heads(), Flat(kvHead, s.nRep, g)))
        {
          FinishHead(exp, s, mem, numBlocks, p, planes, lane, kvHead, g, out);
          NextRow(lane, kvHead, g, s.Heads(), s.nRep);
        }
        LastRow(lane, kvHead, s.Heads(), s.nRep);
      }
      LastGroup(lane, s.kvHeads, s.nRep);
    }
    AllRowsDone(exp, s, mem, out[..]);
  }

  // ---- Agreement ----

  /** Every row of the output belongs to one head of one lane. */
  lemma RowSplit(s: Shape, row: nat) returns (lane: nat, kvHead: nat, g: nat)
    requires s.nRep >= 1 && s.kvHeads >= 1 && row < s.lanes * s.Heads()
    ensures lane < s.lanes && kvHead < s.kvHeads && g < s.nRep
    ensures Flat(lane, s.Heads(), Flat(kvHead, s.nRep, g)) == row
  {
    MulLess(0, s.kvHeads, s.nRep);
    FlatSplit(row, s.lanes, s.Heads());
    lane := row / s.Heads();
    kvHead, g := HeadSplit(row % s.Heads(), s.kvHeads, s.nRep);
  }

  lemma HeadSplit(head: nat, kvHeads: nat, nRep: nat) returns (kvHead: nat, g: nat)
    requires nRep >= 1 && head < kvHeads * nRep
    ensures kvHead < kvHeads && g < nRep && Flat(kvHead, nRep, g) == head
  {
    FlatSplit(head, kvHeads, nRep);
    kvHead, g := head / nRep, head % nRep;
  }

  /** Every element of the output belongs to one row of one head of one lane. */
  lemma ElementRow(s: Shape, a: nat) returns (lane: nat, kvHead: nat, g: nat)
    requires s.headDim >= 1 && s.nRep >= 1 && s.kvHeads >= 1 && a < s.lanes * s.Heads() * s.headDim
    ensures lane < s.lanes && kvHead < s.kvHeads && g < s.nRep
    ensures QueryBase(s, lane, Flat(kvHead, s.nRep, g)) <= a < QueryBase(s, lane, Flat(kvHead, s.nRep, g)) + s.headDim
  {
    FlatSplit(a, s.lanes * s.Heads(), s.headDim);
    lane, kvHead, g := RowSplit(s, a / s.headDim);
  }

  /** Two outputs that both hold attention's results are equal element by element. */
  lemma SameOutputs(exp: real -> real, s: Shape, mem: Memory, x: seq<real>, y: seq<real>)
    requires s.blockSize >= 1 && |x| == |y| == s.lanes * s.Heads() * s.headDim
    requires forall lane, kvHead, g :: 0 <= lane < s.lanes && 0 <= kvHead < s.kvHeads && 0 <= g < s.nRep ==> RowDone(exp, s, mem, x, lane, kvHead, g)
    requires forall lane, kvHead, g :: 0 <= lane < s.lanes && 0 <= kvHead < s.kvHeads && 0 <= g < s.nRep ==> RowDone(exp, s, mem, y, lane, kvHead, g)
    ensures x == y
  {
    hide Flat, LaneKeys, MassFrom, HighestScore, Attended;
    forall a | 0 <= a < |x|
      ensures x[a] == y[a]
    {
      if s.headDim >= 1 && s.nRep >= 1 && s.kvHeads >= 1 {
        var lane, kvHead, g := ElementRow(s, a);
        assert RowDone(exp, s, mem, x, lane, kvHead, g) && RowDone(exp, s, mem, y, lane, kvHead, g);
      } else {
        NoElements(s);
      }
    }
  }

  lemma NoElements(s: Shape)
    requires s.headDim == 0 || s.nRep == 0 || s.kvHeads == 0
    ensures s.lanes * s.Heads() * s.headDim == 0
  {
  }

  /** For every plane count and every geometry of the units, the kernel's output is the oracle's. */
  method KernelMatchesOracle(exp: real -> real, s: Shape, mem: Memory, ghost numBlocks: nat, p: Plane, planes: nat) returns (kernel: array<real>, oracle: array<real>)
    requires Exponential(exp) && WellShaped(s, mem, numBlocks)
    requires Covers(p, s.headDim) && p.slots >= 1 && planes >= 1
    ensures kernel[..] == oracle[..]
  {
    hide WellShaped, Exponential, RowDone, Covers;
    kernel := Decode(exp, s, mem, numBlocks, p, planes);
    oracle := Oracle.Decode(exp, s, mem, numBlocks);
    SameOutputs(exp, s, mem, kernel[..], oracle[..]);
  }

  // ---- Output addressing ----

  /** The output slot a unit stores at one step. */
  function OutputSlot(s: Shape, p: Plane, lane: nat, kvHead: nat, g: nat, u: nat, i: nat): nat {
    Flat(Flat(lane, s.Heads(), Flat(kvHead, s.nRep, g)), p.slots, Flat(i, p.planeDim, u))
  }

  /** No two stores of the launch, by any cube, group member, unit or step, hit the same slot. */
  lemma StoresAreDistinct(s: Shape, p: Plane, lane: nat, kvHead: nat, g: nat, u: nat, i: nat, lane': nat, kvHead': nat, g': nat, u': nat, i': nat)
    requires lane < s.lanes && kvHead < s.kvHeads && g < s.nRep && u < p.planeDim && Flat(i, p.planeDim, u) < p.slots
    requires lane' < s.lanes && kvHead' < s.kvHeads && g' < s.nRep && u' < p.planeDim && Flat(i', p.planeDim, u') < p.slots
    requires OutputSlot(s, p, lane, kvHead, g, u, i) == OutputSlot(s, p, lane', kvHead', g', u', i')
    ensures lane == lane' && kvHead == kvHead' && g == g' && u == u' && i == i'
  {
    HeadInside(s, lane, kvHead, g);
    HeadInside(s, lane', kvHead', g');
    FlatInjective(Flat(lane, s.Heads(), Flat(kvHead, s.nRep, g)), Flat(i, p.planeDim, u), Flat(lane', s.Heads(), Flat(kvHead', s.nRep, g')), Flat(i', p.planeDim, u'), p.slots);
    FlatInjective(lane, Flat(kvHead, s.nRep, g), lane', Flat(kvHead', s.nRep, g'), s.Heads());
    FlatInjective(kvHead, g, kvHead', g', s.nRep);
    FlatInjective(i, u, i', u', p.planeDim);
  }

  /** Every output slot is some unit's, at some step it takes, whether or not the row divides evenly. */
  lemma EverySlotIsStored(s: Shape, p: Plane, slot: nat) returns (lane: nat, kvHead: nat, g: nat, u: nat, i: nat)
    requires s.nRep >= 1 && s.kvHeads >= 1 && p.slots >= 1 && p.planeDim >= 1 && p.dpu == CeilDiv(p.slots, p.planeDim)
    requires slot < s.lanes * s.Heads() * p.slots
    ensures lane < s.lanes && kvHead < s.kvHeads && g < s.nRep && u < p.planeDim && i < p.dpu && Flat(i, p.planeDim, u) < p.slots
    ensures OutputSlot(s, p, lane, kvHead, g, u, i) == slot
  {
    FlatSplit(slot, s.lanes * s.Heads(), p.slots);
    lane, kvHead, g := RowSplit(s, slot / p.slots);
    u, i := StepOf(p, slot % p.slots);
  }

  lemma StepOf(p: Plane, x: nat) returns (u: nat, i: nat)
    requires p.planeDim >= 1 && p.dpu == CeilDiv(p.slots, p.planeDim) && x < p.slots
    ensures u < p.planeDim && i < p.dpu && Flat(i, p.planeDim, u) == x
  {
    CeilDivRounds(p.slots, p.planeDim);
    FlatSplit(x, p.dpu, p.planeDim);
    u, i := x % p.planeDim, x / p.planeDim;
  }
}
