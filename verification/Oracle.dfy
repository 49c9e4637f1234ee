/** The plain form of the decode kernel's recurrence: nested loops over lanes, KV heads, live blocks,
    offsets and the query group, updating running maxima, sums and accumulators in place. */
module Oracle {
  import opened Arithmetic
  import opened OnlineSoftmax
  import opened Attention

  /** Where group member `g`'s accumulator starts. */
  function Base(g: nat, dim: nat): nat {
    g * dim
  }

  /** Group member `g`'s state, in the shared arrays. */
  function StateOf(m: seq<Peak>, l: seq<real>, acc: seq<real>, g: nat, base: nat, dim: nat): (st: Partial)
    requires g < |m| == |l| && base + dim <= |acc|
    ensures |st.acc| == dim
  {
    Partial(m[g], l[g], acc[base..base + dim])
  }

  /** The arrays have room for the group. */
  ghost predicate Roomy(m: seq<Peak>, l: seq<real>, acc: seq<real>, nRep: nat, dim: nat) {
    && |m| == |l| == nRep
    && forall g {:trigger Base(g, dim)} :: 0 <= g < nRep ==> Base(g, dim) + dim <= |acc|
  }

  /** Group member `g` has seen exactly the lane's first `n` positions. */
  ghost predicate MemberAt(exp: real -> real, s: Shape, mem: Memory, lane: nat, kvHead: nat, m: seq<Peak>, l: seq<real>, acc: seq<real>, g: nat, n: nat)
    requires s.blockSize >= 1 && g < |m| == |l| && Base(g, s.headDim) + s.headDim <= |acc|
  {
    Summarizes(exp, StateOf(m, l, acc, g, Base(g, s.headDim), s.headDim), LaneKeys(s, mem, lane, kvHead, g, n))
  }

  method DotProduct(a: seq<real>, aBase: nat, b: seq<real>, bBase: nat, n: nat) returns (dot: real)
    requires aBase + n <= |a| && bBase + n <= |b|
    ensures dot == Dot(a, aBase, b, bBase, n)
  {
    dot := 0.0;
    for d := 0 to n
      invariant dot == Dot(a, aBase, b, bBase, d)
    {
      dot := dot + a[aBase + d] * b[bBase + d];
    }
  }

  /** The rescale: one more key into member `g`'s state, in place. */
  method Update(exp: real -> real, m: array<Peak>, l: array<real>, acc: array<real>, g: nat, base: nat, dim: nat, score: real, v: seq<real>, row: nat)
    requires g < m.Length == l.Length && base + dim <= acc.Length && row + dim <= |v|
    requires l != acc
    modifies m, l, acc
    ensures StateOf(m[..], l[..], acc[..], g, base, dim) == Absorb(exp, old(StateOf(m[..], l[..], acc[..], g, base, dim)), Key(score, RowOf(v, row, dim)))
    ensures m[..] == old(m[..])[g := m[g]] && l[..] == old(l[..])[g := l[g]]
    ensures forall a :: 0 <= a < acc.Length && !(base <= a < base + dim) ==> acc[a] == old(acc[a])
  {
    ghost var before := StateOf(m[..], l[..], acc[..], g, base, dim);
    ghost var key := Key(score, RowOf(v, row, dim));
    var mNew := Higher(m[g], score);
    var alpha := Rescale(exp, m[g], mNew);
    var p := exp(score - mNew);
    l[g] := l[g] * alpha + p;
    Accumulate(acc, base, dim, alpha, p, v, row);
    m[g] := At(mNew);
    ghost var after := StateOf(m[..], l[..], acc[..], g, base, dim);
    forall d | 0 <= d < dim
      ensures after.acc[d] == Absorb(exp, before, key).acc[d]
    {
      assert acc[base + d] == old(acc[base + d]) * alpha + p * v[row + d];
    }
  }

  /** Rescale an accumulator and add a weighted value row. */
  method Accumulate(acc: array<real>, base: nat, dim: nat, alpha: real, p: real, v: seq<real>, row: nat)
    requires base + dim <= acc.Length && row + dim <= |v|
    modifies acc
    ensures forall a :: base <= a < base + dim ==> acc[a] == old(acc[a]) * alpha + p * v[row + (a - base)]
    ensures forall a :: 0 <= a < acc.Length && !(base <= a < base + dim) ==> acc[a] == old(acc[a])
  {
    for d := 0 to dim
      invariant forall a :: base <= a < base + d ==> acc[a] == old(acc[a]) * alpha + p * v[row + (a - base)]
      invariant forall a :: 0 <= a < acc.Length && !(base <= a < base + d) ==> acc[a] == old(acc[a])
    {
      acc[base + d] := acc[base + d] * alpha + p * v[row + d];
    }
  }

  /** Every group member has seen exactly the lane's first `n` positions. */
  ghost predicate GroupAt(exp: real -> real, s: Shape, mem: Memory, lane: nat, kvHead: nat, m: seq<Peak>, l: seq<real>, acc: seq<real>, n: nat) {
    && s.blockSize >= 1 && Roomy(m, l, acc, s.nRep, s.headDim)
    && forall g :: 0 <= g < s.nRep ==> MemberAt(exp, s, mem, lane, kvHead, m, l, acc, g, n)
  }

  lemma BasesApart(g: nat, g': nat, dim: nat)
    requires g != g'
    ensures Base(g, dim) + dim <= Base(g', dim) || Base(g', dim) + dim <= Base(g, dim)
  {
    if g < g' {
      MulLess(g, g', dim);
    } else {
      MulLess(g', g, dim);
    }
  }

  /** Updating one member leaves the others as they were. */
  lemma OtherMember(exp: real -> real, s: Shape, mem: Memory, lane: nat, kvHead: nat, m: seq<Peak>, l: seq<real>, acc: seq<real>, m': seq<Peak>, l': seq<real>, acc': seq<real>, g: nat, g': nat, n: nat)
    requires s.blockSize >= 1 && Roomy(m, l, acc, s.nRep, s.headDim) && |acc'| == |acc| && g < s.nRep && g' < s.nRep && g != g'
    requires |m'| == |l'| == s.nRep && m' == m[g := m'[g]] && l' == l[g := l'[g]]
    requires forall a :: 0 <= a < |acc| && !(Base(g, s.headDim) <= a < Base(g, s.headDim) + s.headDim) ==> acc'[a] == acc[a]
    requires MemberAt(exp, s, mem, lane, kvHead, m, l, acc, g', n)
    ensures MemberAt(exp, s, mem, lane, kvHead, m', l', acc', g', n)
  {
    BasesApart(g, g', s.headDim);
    var base := Base(g', s.headDim);
    hide Base, Summarizes;
    assert acc'[base..base + s.headDim] == acc[base..base + s.headDim];
  }

  /** The position in progress: members before `g` have seen it, the others not yet. */
  ghost predicate GroupSplit(exp: real -> real, s: Shape, mem: Memory, lane: nat, kvHead: nat, m: seq<Peak>, l: seq<real>, acc: seq<real>, g: nat, n: nat, next: nat) {
    && s.blockSize >= 1 && Roomy(m, l, acc, s.nRep, s.headDim)
    && (forall i :: 0 <= i < g && i < s.nRep ==> MemberAt(exp, s, mem, lane, kvHead, m, l, acc, i, next))
    && (forall i :: g <= i < s.nRep ==> MemberAt(exp, s, mem, lane, kvHead, m, l, acc, i, n))
  }

  lemma NextMember(exp: real -> real, s: Shape, mem: Memory, lane: nat, kvHead: nat, m: seq<Peak>, l: seq<real>, acc: seq<real>, m': seq<Peak>, l': seq<real>, acc': seq<real>, g: nat, n: nat, next: nat)
    requires GroupSplit(exp, s, mem, lane, kvHead, m, l, acc, g, n, next) && |acc'| == |acc| && g < s.nRep
    requires |m'| == |l'| == s.nRep && m' == m[g := m'[g]] && l' == l[g := l'[g]]
    requires forall a :: 0 <= a < |acc| && !(Base(g, s.headDim) <= a < Base(g, s.headDim) + s.headDim) ==> acc'[a] == acc[a]
    requires Base(g, s.headDim) + s.headDim <= |acc'| && MemberAt(exp, s, mem, lane, kvHead, m', l', acc', g, next)
    ensures GroupSplit(exp, s, mem, lane, kvHead, m', l', acc', g + 1, n, next)
  {
    hide MemberAt, Base;
    forall i: nat | i < g
      ensures Base(i, s.headDim) + s.headDim <= |acc'| && MemberAt(exp, s, mem, lane, kvHead, m', l', acc', i, next)
    {
      OtherMember(exp, s, mem, lane, kvHead, m, l, acc, m', l', acc', g, i, next);
    }
    forall i: nat | g < i < s.nRep
      ensures Base(i, s.headDim) + s.headDim <= |acc'| && MemberAt(exp, s, mem, lane, kvHead, m', l', acc', i, n)
    {
      OtherMember(exp, s, mem, lane, kvHead, m, l, acc, m', l', acc', g, i, n);
    }
  }

  /** One more key in member `g`'s state is one more position seen. */
  lemma MemberAdvances(exp: real -> real, s: Shape, mem: Memory, lane: nat, kvHead: nat, before: Partial, after: Partial, g: nat, n: nat)
    requires Exponential(exp) && s.blockSize >= 1
    requires Summarizes(exp, before, LaneKeys(s, mem, lane, kvHead, g, n)) && after == Absorb(exp, before, KeyOf(s, mem, lane, kvHead, g, n))
    ensures Summarizes(exp, after, LaneKeys(s, mem, lane, kvHead, g, n + 1))
  {
    AbsorbSummarizes(exp, before, LaneKeys(s, mem, lane, kvHead, g, n), KeyOf(s, mem, lane, kvHead, g, n));
    LaneKeysGrow(s, mem, lane, kvHead, g, n);
  }

  /** One position, for the whole group: every K and V row is addressed once and serves all members. */
  method VisitPosition(exp: real -> real, s: Shape, mem: Memory, ghost numBlocks: nat, lane: nat, kvHead: nat, row: nat, m: array<Peak>, l: array<real>, acc: array<real>, ghost pos: nat)
    requires Exponential(exp) && WellShaped(s, mem, numBlocks) && lane < s.lanes && kvHead < s.kvHeads && l != acc
    requires row == RowBase(s, mem, lane, kvHead, pos) && row + s.headDim <= |mem.k|
    requires GroupAt(exp, s, mem, lane, kvHead, m[..], l[..], acc[..], pos)
    modifies m, l, acc
    ensures GroupAt(exp, s, mem, lane, kvHead, m[..], l[..], acc[..], pos + 1)
  {
    hide WellShaped, Exponential, MemberAt, RowBase, Base;
    for g := 0 to s.nRep
      invariant GroupSplit(exp, s, mem, lane, kvHead, m[..], l[..], acc[..], g, pos, pos + 1)
    {
      ghost var m0, l0, acc0 := m[..], l[..], acc[..];
      VisitMember(exp, s, mem, numBlocks, lane, kvHead, row, m, l, acc, g, pos);
      NextMember(exp, s, mem, lane, kvHead, m0, l0, acc0, m[..], l[..], acc[..], g, pos, pos + 1);
    }
  }

  method VisitMember(exp: real -> real, s: Shape, mem: Memory, ghost numBlocks: nat, lane: nat, kvHead: nat, row: nat, m: array<Peak>, l: array<real>, acc: array<real>, g: nat, ghost pos: nat)
    requires Exponential(exp) && WellShaped(s, mem, numBlocks) && lane < s.lanes && kvHead < s.kvHeads && l != acc && g < s.nRep
    requires row == RowBase(s, mem, lane, kvHead, pos) && row + s.headDim <= |mem.k|
    requires m.Length == l.Length == s.nRep && Base(g, s.headDim) + s.headDim <= acc.Length
    requires MemberAt(exp, s, mem, lane, kvHead, m[..], l[..], acc[..], g, pos)
    modifies m, l, acc
    ensures m[..] == old(m[..])[g := m[g]] && l[..] == old(l[..])[g := l[g]]
    ensures forall a :: 0 <= a < acc.Length && !(Base(g, s.headDim) <= a < Base(g, s.headDim) + s.headDim) ==> acc[a] == old(acc[a])
    ensures MemberAt(exp, s, mem, lane, kvHead, m[..], l[..], acc[..], g, pos + 1)
  {
    hide WellShaped, Exponential, RowBase, Base, QueryBase, Absorb, Summarizes, RowOf, Dot, LaneKeys, Roomy;
    ShapeFacts(s, mem, numBlocks);
    HeadInside(s, lane, kvHead, g);
    var base := Base(g, s.headDim);
    ghost var before := StateOf(m[..], l[..], acc[..], g, base, s.headDim);
    var dot := DotProduct(mem.q, QueryBase(s, lane, Flat(kvHead, s.nRep, g)), mem.k, row, s.headDim);
    assert Key(dot * s.scale, RowOf(mem.v, row, s.headDim)) == KeyOf(s, mem, lane, kvHead, g, pos);
    Update(exp, m, l, acc, g, base, s.headDim, dot * s.scale, mem.v, row);
    assert StateOf(m[..], l[..], acc[..], g, base, s.headDim) == Absorb(exp, before, Key(dot * s.scale, RowOf(mem.v, row, s.headDim)));
    MemberAdvances(exp, s, mem, lane, kvHead, before, StateOf(m[..], l[..], acc[..], g, base, s.headDim), g, pos);
  }

  lemma ShapeFacts(s: Shape, mem: Memory, numBlocks: nat)
    requires WellShaped(s, mem, numBlocks)
    ensures s.blockSize >= 1 && |mem.v| == |mem.k| && |mem.q| == s.lanes * s.Heads() * s.headDim
  {
  }

  lemma LaneFacts(s: Shape, mem: Memory, numBlocks: nat, lane: nat)
    requires WellShaped(s, mem, numBlocks) && lane < s.lanes
    ensures lane < |mem.lengths| && mem.lengths[lane] >= 1
    ensures forall b :: 0 <= b < CeilDiv(mem.lengths[lane], s.blockSize) ==>
      Flat(lane, s.blocksPerLane, b) < |mem.table| && BlockOf(s, mem, lane, b) < numBlocks
  {
  }

  /** Position `b * blockSize + t` keeps its row at offset `t` of the lane's `b`-th block, inside the
      pool. */
  lemma RowOfWalk(s: Shape, mem: Memory, numBlocks: nat, lane: nat, kvHead: nat, b: nat, t: nat)
    requires WellShaped(s, mem, numBlocks) && lane < s.lanes && kvHead < s.kvHeads
    requires b < CeilDiv(mem.lengths[lane], s.blockSize) && b * s.blockSize <= mem.lengths[lane] && t < Live(s.blockSize, mem.lengths[lane], b)
    ensures RowBase(s, mem, lane, kvHead, Flat(b, s.blockSize, t)) == CellBase(s, BlockOf(s, mem, lane, b), t, kvHead)
    ensures CellBase(s, BlockOf(s, mem, lane, b), t, kvHead) + s.headDim <= |mem.k| == |mem.v|
  {
    WalkMeetsPositions(s.blockSize, mem.lengths[lane], b, t);
    LaneFacts(s, mem, numBlocks, lane);
    CellInside(s, numBlocks, BlockOf(s, mem, lane, b), t, kvHead);
  }

  /** Positions met before block `b`. */
  function Met(blockSize: nat, len: nat, b: nat): nat
    requires blockSize >= 1
  {
    if b >= CeilDiv(len, blockSize) then len else b * blockSize
  }

  lemma BlockFacts(s: Shape, mem: Memory, numBlocks: nat, lane: nat, b: nat)
    requires WellShaped(s, mem, numBlocks) && lane < s.lanes && b < CeilDiv(mem.lengths[lane], s.blockSize)
    ensures Flat(lane, s.blocksPerLane, b) < |mem.table| && mem.table[Flat(lane, s.blocksPerLane, b)] == BlockOf(s, mem, lane, b)
    ensures Flat(b, s.blockSize, 0) == b * s.blockSize == Met(s.blockSize, mem.lengths[lane], b) <= mem.lengths[lane]
    ensures Flat(b, s.blockSize, Live(s.blockSize, mem.lengths[lane], b)) == Met(s.blockSize, mem.lengths[lane], b + 1)
  {
    LaneFacts(s, mem, numBlocks, lane);
    WalkMeetsPositions(s.blockSize, mem.lengths[lane], b, 0);
  }

  /** The live part of one block. */
  method VisitBlock(exp: real -> real, s: Shape, mem: Memory, ghost numBlocks: nat, lane: nat, kvHead: nat, b: nat, m: array<Peak>, l: array<real>, acc: array<real>)
    requires Exponential(exp) && WellShaped(s, mem, numBlocks) && lane < s.lanes && kvHead < s.kvHeads && l != acc
    requires b < CeilDiv(mem.lengths[lane], s.blockSize)
    requires GroupAt(exp, s, mem, lane, kvHead, m[..], l[..], acc[..], Met(s.blockSize, mem.lengths[lane], b))
    modifies m, l, acc
    ensures GroupAt(exp, s, mem, lane, kvHead, m[..], l[..], acc[..], Met(s.blockSize, mem.lengths[lane], b + 1))
  {
    hide WellShaped, Exponential, GroupAt, CellBase, RowBase, BlockOf, Met, Flat, CeilDiv;
    LaneFacts(s, mem, numBlocks, lane);
    BlockFacts(s, mem, numBlocks, lane, b);
    var blk := mem.table[Flat(lane, s.blocksPerLane, b)];
    var live := Min(s.blockSize, mem.lengths[lane] - b * s.blockSize);
    for t := 0 to live
      invariant GroupAt(exp, s, mem, lane, kvHead, m[..], l[..], acc[..], Flat(b, s.blockSize, t))
    {
      RowOfWalk(s, mem, numBlocks, lane, kvHead, b, t);
      var row := CellBase(s, blk, t, kvHead);
      VisitPosition(exp, s, mem, numBlocks, lane, kvHead, row, m, l, acc, Flat(b, s.blockSize, t));
      NextOffset(b, s.blockSize, t);
    }
  }

  lemma NextOffset(b: nat, blockSize: nat, t: nat)
    ensures Flat(b, blockSize, t + 1) == Flat(b, blockSize, t) + 1
  {
  }

  /** The whole lane: its live blocks in table order, and nothing else. */
  method WalkLane(exp: real -> real, s: Shape, mem: Memory, ghost numBlocks: nat, lane: nat, kvHead: nat, m: array<Peak>, l: array<real>, acc: array<real>)
    requires Exponential(exp) && WellShaped(s, mem, numBlocks) && lane < s.lanes && kvHead < s.kvHeads && l != acc
    requires GroupAt(exp, s, mem, lane, kvHead, m[..], l[..], acc[..], 0)
    modifies m, l, acc
    ensures GroupAt(exp, s, mem, lane, kvHead, m[..], l[..], acc[..], mem.lengths[lane])
  {
    LaneFacts(s, mem, numBlocks, lane);
    assert s.blockSize >= 1;
    var nBlocks := CeilDiv(mem.lengths[lane], s.blockSize);
    hide WellShaped, Exponential, GroupAt;
    for b := 0 to nBlocks
      invariant GroupAt(exp, s, mem, lane, kvHead, m[..], l[..], acc[..], Met(s.blockSize, mem.lengths[lane], b))
    {
      VisitBlock(exp, s, mem, numBlocks, lane, kvHead, b, m, l, acc);
    }
  }

  // ---- Writing the output ----

  /** One output row holds attention's result for one head of one lane. */
  ghost predicate RowDone(exp: real -> real, s: Shape, mem: Memory, out: seq<real>, lane: nat, kvHead: nat, g: nat)
    requires s.blockSize >= 1
  {
    var base := QueryBase(s, lane, Flat(kvHead, s.nRep, g));
    && base + s.headDim <= |out|
    && forall a :: base <= a < base + s.headDim ==> IsAttention(exp, s, mem, lane, kvHead, g, a - base, out[a])
  }

  /** All rows before row number `r` are done. */
  ghost predicate DoneBefore(exp: real -> real, s: Shape, mem: Memory, out: seq<real>, r: nat)
    requires s.blockSize >= 1
  {
    forall lane, kvHead, g :: 0 <= lane < s.lanes && 0 <= kvHead < s.kvHeads && 0 <= g < s.nRep && Flat(lane, s.Heads(), Flat(kvHead, s.nRep, g)) < r ==>
      RowDone(exp, s, mem, out, lane, kvHead, g)
  }

  lemma OneMoreRow(exp: real -> real, s: Shape, mem: Memory, out: seq<real>, out': seq<real>, lane: nat, kvHead: nat, g: nat)
    requires s.blockSize >= 1 && lane < s.lanes && kvHead < s.kvHeads && g < s.nRep && |out'| == |out|
    requires var r := Flat(lane, s.Heads(), Flat(kvHead, s.nRep, g));
      && DoneBefore(exp, s, mem, out, r) && RowDone(exp, s, mem, out', lane, kvHead, g)
      && forall a :: 0 <= a < |out| && !(Base(r, s.headDim) <= a < Base(r, s.headDim) + s.headDim) ==> out'[a] == out[a]
    ensures DoneBefore(exp, s, mem, out', Flat(lane, s.Heads(), Flat(kvHead, s.nRep, g)) + 1)
  {
    var r := Flat(lane, s.Heads(), Flat(kvHead, s.nRep, g));
    forall lane', kvHead', g' | 0 <= lane' < s.lanes && 0 <= kvHead' < s.kvHeads && 0 <= g' < s.nRep && Flat(lane', s.Heads(), Flat(kvHead', s.nRep, g')) < r + 1
      ensures RowDone(exp, s, mem, out', lane', kvHead', g')
    {
      SameOrEarlier(exp, s, mem, out, out', lane, kvHead, g, lane', kvHead', g');
    }
  }

  lemma SameOrEarlier(exp: real -> real, s: Shape, mem: Memory, out: seq<real>, out': seq<real>, lane: nat, kvHead: nat, g: nat, lane': nat, kvHead': nat, g': nat)
    requires s.blockSize >= 1 && lane < s.lanes && kvHead < s.kvHeads && g < s.nRep && |out'| == |out|
    requires lane' < s.lanes && kvHead' < s.kvHeads && g' < s.nRep
    requires var r := Flat(lane, s.Heads(), Flat(kvHead, s.nRep, g));
      && DoneBefore(exp, s, mem, out, r) && RowDone(exp, s, mem, out', lane, kvHead, g)
      && (forall a :: 0 <= a < |out| && !(Base(r, s.headDim) <= a < Base(r, s.headDim) + s.headDim) ==> out'[a] == out[a])
      && Flat(lane', s.Heads(), Flat(kvHead', s.nRep, g')) <= r
    ensures RowDone(exp, s, mem, out', lane', kvHead', g')
  {
    var r, r' := Flat(lane, s.Heads(), Flat(kvHead, s.nRep, g)), Flat(lane', s.Heads(), Flat(kvHead', s.nRep, g'));
    HeadInside(s, lane, kvHead, g);
    HeadInside(s, lane', kvHead', g');
    if r' == r {
      FlatInjective(lane, Flat(kvHead, s.nRep, g), lane', Flat(kvHead', s.nRep, g'), s.Heads());
      FlatInjective(kvHead, g, kvHead', g', s.nRep);
    } else {
      BasesApart(r', r, s.headDim);
      hide IsAttention, Flat;
      assert RowDone(exp, s, mem, out, lane', kvHead', g');
    }
  }

  /** Fresh arrays have seen nothing. */
  lemma GroupStarts(exp: real -> real, s: Shape, mem: Memory, lane: nat, kvHead: nat, m: seq<Peak>, l: seq<real>, acc: seq<real>)
    requires s.blockSize >= 1 && |m| == |l| == s.nRep && |acc| == s.nRep * s.headDim
    requires (forall g :: 0 <= g < s.nRep ==> m[g] == Empty && l[g] == 0.0) && forall a :: 0 <= a < |acc| ==> acc[a] == 0.0
    ensures GroupAt(exp, s, mem, lane, kvHead, m, l, acc, 0)
  {
    forall g: nat | g < s.nRep
      ensures Base(g, s.headDim) + s.headDim <= |acc|
      ensures MemberAt(exp, s, mem, lane, kvHead, m, l, acc, g, 0)
    {
      MulLess(g, s.nRep, s.headDim);
    }
  }

  /** Write one member's normalized accumulator. */
  method WriteRow(st: Partial, dim: nat, out: array<real>, base: nat)
    requires |st.acc| == dim && base + dim <= out.Length
    modifies out
    ensures forall a :: base <= a < base + dim ==> out[a] == Normalized(st, a - base)
    ensures forall a :: 0 <= a < out.Length && !(base <= a < base + dim) ==> out[a] == old(out[a])
  {
    var inv := 1.0 / (if st.l >= CLAMP then st.l else CLAMP);
    for d := 0 to dim
      invariant forall a :: base <= a < base + d ==> out[a] == Normalized(st, a - base)
      invariant forall a :: 0 <= a < out.Length && !(base <= a < base + d) ==> out[a] == old(out[a])
    {
      out[base + d] := st.acc[d] * inv;
    }
  }

  lemma MemberIsDone(exp: real -> real, s: Shape, mem: Memory, numBlocks: nat, lane: nat, kvHead: nat, st: Partial, g: nat, d: nat)
    requires Exponential(exp) && WellShaped(s, mem, numBlocks) && lane < s.lanes && d < |st.acc|
    requires Summarizes(exp, st, LaneKeys(s, mem, lane, kvHead, g, mem.lengths[lane]))
    ensures IsAttention(exp, s, mem, lane, kvHead, g, d, Normalized(st, d))
  {
    LaneFacts(s, mem, numBlocks, lane);
    OnePassIsTwoPass(exp, st, LaneKeys(s, mem, lane, kvHead, g, mem.lengths[lane]), d);
  }

  /** One member's output row. */
  method FinishMember(exp: real -> real, s: Shape, mem: Memory, ghost numBlocks: nat, lane: nat, kvHead: nat, g: nat, st: Partial, out: array<real>)
    requires Exponential(exp) && WellShaped(s, mem, numBlocks) && lane < s.lanes && kvHead < s.kvHeads && g < s.nRep
    requires out.Length == s.lanes * s.Heads() * s.headDim && |st.acc| == s.headDim
    requires Summarizes(exp, st, LaneKeys(s, mem, lane, kvHead, g, mem.lengths[lane]))
    requires DoneBefore(exp, s, mem, out[..], Flat(lane, s.Heads(), Flat(kvHead, s.nRep, g)))
    modifies out
    ensures DoneBefore(exp, s, mem, out[..], Flat(lane, s.Heads(), Flat(kvHead, s.nRep, g)) + 1)
  {
    hide Exponential, Summarizes, IsAttention, DoneBefore, Normalized, Flat, LaneKeys;
    ghost var out0 := out[..];
    HeadInside(s, lane, kvHead, g);
    var base := QueryBase(s, lane, Flat(kvHead, s.nRep, g));
    WriteRow(st, s.headDim, out, base);
    forall a | base <= a < base + s.headDim
      ensures IsAttention(exp, s, mem, lane, kvHead, g, a - base, out[a])
    {
      MemberIsDone(exp, s, mem, numBlocks, lane, kvHead, st, g, a - base);
    }
    hide WellShaped;
    OneMoreRow(exp, s, mem, out0, out[..], lane, kvHead, g);
  }

  /** One lane's work for one KV head. */
  method AttendGroup(exp: real -> real, s: Shape, mem: Memory, ghost numBlocks: nat, lane: nat, kvHead: nat, out: array<real>)
    requires Exponential(exp) && WellShaped(s, mem, numBlocks) && lane < s.lanes && kvHead < s.kvHeads
    requires out.Length == s.lanes * s.Heads() * s.headDim
    requires DoneBefore(exp, s, mem, out[..], Flat(lane, s.Heads(), Flat(kvHead, s.nRep, 0)))
    modifies out
    ensures DoneBefore(exp, s, mem, out[..], Flat(lane, s.Heads(), Flat(kvHead + 1, s.nRep, 0)))
  {
    ShapeFacts(s, mem, numBlocks);
    hide WellShaped, Exponential, DoneBefore, Summarizes, LaneKeys, Flat, Base;
    var m := new Peak[s.nRep](_ => Empty);
    var l := new real[s.nRep](_ => 0.0);
    var acc := new real[s.nRep * s.headDim](_ => 0.0);
    GroupStarts(exp, s, mem, lane, kvHead, m[..], l[..], acc[..]);
    WalkLane(exp, s, mem, numBlocks, lane, kvHead, m, l, acc);
    for g := 0 to s.nRep
      invariant GroupAt(exp, s, mem, lane, kvHead, m[..], l[..], acc[..], mem.lengths[lane])
      invariant DoneBefore(exp, s, mem, out[..], Flat(lane, s.Heads(), Flat(kvHead, s.nRep, g)))
    {
      var base := Base(g, s.headDim);
      assert MemberAt(exp, s, mem, lane, kvHead, m[..], l[..], acc[..], g, mem.lengths[lane]);
      var st := Partial(m[g], l[g], acc[base..base + s.headDim]);
      assert st == StateOf(m[..], l[..], acc[..], g, base, s.headDim);
      FinishMember(exp, s, mem, numBlocks, lane, kvHead, g, st, out);
      NextRow(lane, kvHead, g, s.Heads(), s.nRep);
    }
    LastRow(lane, kvHead, s.Heads(), s.nRep);
  }

  lemma NextRow(lane: nat, kvHead: nat, g: nat, heads: nat, nRep: nat)
    ensures Flat(lane, heads, Flat(kvHead, nRep, g + 1)) == Flat(lane, heads, Flat(kvHead, nRep, g)) + 1
  {
  }

  lemma LastRow(lane: nat, kvHead: nat, heads: nat, nRep: nat)
    ensures Flat(lane, heads, Flat(kvHead, nRep, nRep)) == Flat(lane, heads, Flat(kvHead + 1, nRep, 0))
  {
    MulSucc(kvHead, nRep);
  }

  lemma LastGroup(lane: nat, kvHeads: nat, nRep: nat)
    ensures Flat(lane, kvHeads * nRep, Flat(kvHeads, nRep, 0)) == Flat(lane + 1, kvHeads * nRep, Flat(0, nRep, 0))
  {
    MulSucc(lane, kvHeads * nRep);
  }

  /** The whole decode: every lane, every head, every component is attention over exactly the lane's
      positions. */
  method Decode(exp: real -> real, s: Shape, mem: Memory, ghost numBlocks: nat) returns (out: array<real>)
    requires Exponential(exp) && WellShaped(s, mem, numBlocks)
    ensures fresh(out) && out.Length == s.lanes * s.Heads() * s.headDim && s.blockSize >= 1
    ensures forall lane, kvHead, g :: 0 <= lane < s.lanes && 0 <= kvHead < s.kvHeads && 0 <= g < s.nRep ==>
      RowDone(exp, s, mem, out[..], lane, kvHead, g)
  {
    ShapeFacts(s, mem, numBlocks);
    hide WellShaped, Exponential, DoneBefore, RowDone, Flat;
    out := new real[s.lanes * s.Heads() * s.headDim](_ => 0.0);
    NothingDone(exp, s, mem, out[..]);
    for lane := 0 to s.lanes
      invariant DoneBefore(exp, s, mem, out[..], Flat(lane, s.Heads(), Flat(0, s.nRep, 0)))
    {
      for kvHead := 0 to s.kvHeads
        invariant DoneBefore(exp, s, mem, out[..], Flat(lane, s.Heads(), Flat(kvHead, s.nRep, 0)))
      {
        AttendGroup(exp, s, mem, numBlocks, lane, kvHead, out);
      }
      LastGroup(lane, s.kvHeads, s.nRep);
    }
    AllRowsDone(exp, s, mem, out[..]);
  }

  lemma NothingDone(exp: real -> real, s: Shape, mem: Memory, out: seq<real>)
    requires s.blockSize >= 1
    ensures DoneBefore(exp, s, mem, out, Flat(0, s.Heads(), Flat(0, s.nRep, 0)))
  {
  }

  lemma AllRowsDone(exp: real -> real, s: Shape, mem: Memory, out: seq<real>)
    requires s.blockSize >= 1 && DoneBefore(exp, s, mem, out, Flat(s.lanes, s.Heads(), Flat(0, s.nRep, 0)))
    ensures forall lane, kvHead, g :: 0 <= lane < s.lanes && 0 <= kvHead < s.kvHeads && 0 <= g < s.nRep ==>
      RowDone(exp, s, mem, out, lane, kvHead, g)
  {
    forall lane, kvHead, g | 0 <= lane < s.lanes && 0 <= kvHead < s.kvHeads && 0 <= g < s.nRep
      ensures RowDone(exp, s, mem, out, lane, kvHead, g)
    {
      HeadInside(s, lane, kvHead, g);
    }
  }
}
