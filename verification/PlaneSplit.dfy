/** Splitting a lane's blocks over planes and merging their partial states: why the number of planes
    does not show in the result. */
module PlaneSplits {
  import opened Arithmetic
  import opened OnlineSoftmax
  import opened Attention
  import opened Oracle

  // ---- The cyclic split of the blocks ----

  function Gathered<T>(parts: seq<seq<T>>): seq<T> {
    if parts == [] then [] else Gathered(parts[..|parts| - 1]) + parts[|parts| - 1]
  }

  /** What plane `p` meets in the first `n` blocks: blocks `p`, `p + planes`, .. in order. */
  function Share<T>(blocks: seq<seq<T>>, p: nat, planes: nat, n: nat): seq<T>
    requires planes >= 1 && n <= |blocks|
  {
    if n == 0 then [] else Share(blocks, p, planes, n - 1) + if (n - 1) % planes == p then blocks[n - 1] else []
  }

  function Shares<T>(blocks: seq<seq<T>>, planes: nat, n: nat): (r: seq<seq<T>>)
    requires planes >= 1 && n <= |blocks|
    ensures |r| == planes
  {
    seq(planes, p requires 0 <= p < planes => Share(blocks, p, planes, n))
  }

  lemma {:induction false} GatherMore<T>(parts: seq<seq<T>>, p: nat, more: seq<T>)
    requires p < |parts|
    ensures multiset(Gathered(parts[p := parts[p] + more])) == multiset(Gathered(parts)) + multiset(more)
  {
    var last := |parts| - 1;
    var parts' := parts[p := parts[p] + more];
    if p == last {
      assert parts'[..last] == parts[..last];
    } else {
      assert parts'[..last] == parts[..last][p := parts[..last][p] + more];
      GatherMore(parts[..last], p, more);
    }
  }

  lemma {:induction false} GatherNothing<T>(parts: seq<seq<T>>)
    requires forall p :: 0 <= p < |parts| ==> parts[p] == []
    ensures Gathered(parts) == []
  {
    if parts != [] {
      GatherNothing(parts[..|parts| - 1]);
    }
  }

  /** However many planes there are, together they meet every key of every block exactly once. */
  lemma {:induction false} SharesPermute<T>(blocks: seq<seq<T>>, planes: nat, n: nat)
    requires planes >= 1 && n <= |blocks|
    ensures multiset(Gathered(Shares(blocks, planes, n))) == multiset(Gathered(blocks[..n]))
  {
    if n == 0 {
      GatherNothing(Shares(blocks, planes, 0));
    } else {
      SharesPermute(blocks, planes, n - 1);
      var before := Shares(blocks, planes, n - 1);
      DealOne(blocks, planes, n);
      GatheredPrefix(blocks, n);
      hide Shares, Share, Gathered;
      GatherMore(before, (n - 1) % planes, blocks[n - 1]);
    }
  }

  lemma GatheredPrefix<T>(parts: seq<seq<T>>, n: nat)
    requires 0 < n <= |parts|
    ensures Gathered(parts[..n]) == Gathered(parts[..n - 1]) + parts[n - 1]
  {
    assert parts[..n][..n - 1] == parts[..n - 1];
  }

  /** Block `n - 1` goes to exactly one plane. */
  lemma DealOne<T>(blocks: seq<seq<T>>, planes: nat, n: nat)
    requires planes >= 1 && 0 < n <= |blocks|
    ensures var before, p := Shares(blocks, planes, n - 1), (n - 1) % planes;
      p < planes && Shares(blocks, planes, n) == before[p := before[p] + blocks[n - 1]]
  {
    var before, p := Shares(blocks, planes, n - 1), (n - 1) % planes;
    forall q | 0 <= q < planes
      ensures Shares(blocks, planes, n)[q] == before[p := before[p] + blocks[n - 1]][q]
    {
      assert Share(blocks, q, planes, n - 1) + [] == Share(blocks, q, planes, n - 1);
    }
  }

  /** Between two of its own blocks a plane meets nothing. */
  lemma {:induction false} NothingBetween<T>(blocks: seq<seq<T>>, planes: nat, k: nat, p: nat, n: nat, upTo: nat)
    requires p < planes && n <= upTo <= |blocks|
    requires (Flat(k, planes, p) + 1 <= n && upTo <= Flat(k + 1, planes, p)) || upTo <= p
    ensures Share(blocks, p, planes, upTo) == Share(blocks, p, planes, n)
  {
    if n < upTo {
      NothingBetween(blocks, planes, k, p, n, upTo - 1);
      NotMine(planes, k, p, upTo - 1);
    }
  }

  lemma NotMine(planes: nat, k: nat, p: nat, b: nat)
    requires p < planes && (Flat(k, planes, p) < b < Flat(k + 1, planes, p) || b < p)
    ensures b % planes != p
  {
    MulSucc(k, planes);
    if b % planes == p {
      var q := b / planes;
      assert b == q * planes + p;
      if q <= k {
        if q < k {
          MulLess(q, k, planes);
        }
      } else if q > k + 1 {
        MulLess(k + 1, q, planes);
      }
    }
  }

  // ---- A lane's blocks as keys ----

  /** The keys in the live part of block `b`. */
  function BlockKeys(s: Shape, mem: Memory, lane: nat, kvHead: nat, g: nat, len: nat, b: nat): (keys: seq<Key>)
    requires s.blockSize >= 1 && b < CeilDiv(len, s.blockSize)
    ensures b * s.blockSize <= len && |keys| == Live(s.blockSize, len, b)
  {
    WalkMeetsPositions(s.blockSize, len, b, 0);
    seq(Live(s.blockSize, len, b), t requires 0 <= t < Live(s.blockSize, len, b) => KeyOf(s, mem, lane, kvHead, g, Flat(b, s.blockSize, t)))
  }

  function LaneBlocks(s: Shape, mem: Memory, lane: nat, kvHead: nat, g: nat, len: nat): (blocks: seq<seq<Key>>)
    requires s.blockSize >= 1
    ensures |blocks| == CeilDiv(len, s.blockSize)
  {
    seq(CeilDiv(len, s.blockSize), b requires 0 <= b < CeilDiv(len, s.blockSize) => BlockKeys(s, mem, lane, kvHead, g, len, b))
  }

  /** The length-gated walk, flattened: exactly the keys of positions `0..len`, once each, in order. */
  lemma {:induction false} BlocksAreTheLane(s: Shape, mem: Memory, lane: nat, kvHead: nat, g: nat, len: nat, n: nat)
    requires s.blockSize >= 1 && n <= CeilDiv(len, s.blockSize)
    ensures Gathered(LaneBlocks(s, mem, lane, kvHead, g, len)[..n]) == LaneKeys(s, mem, lane, kvHead, g, Met(s.blockSize, len, n))
  {
    var blocks := LaneBlocks(s, mem, lane, kvHead, g, len);
    if n == 0 {
      assert Met(s.blockSize, len, 0) == 0;
    } else {
      BlocksAreTheLane(s, mem, lane, kvHead, g, len, n - 1);
      assert blocks[..n][..n - 1] == blocks[..n - 1];
      WalkMeetsPositions(s.blockSize, len, n - 1, 0);
      BlockExtends(s, mem, lane, kvHead, g, len, n - 1);
    }
  }

  lemma BlockExtends(s: Shape, mem: Memory, lane: nat, kvHead: nat, g: nat, len: nat, b: nat)
    requires s.blockSize >= 1 && b < CeilDiv(len, s.blockSize)
    ensures LaneKeys(s, mem, lane, kvHead, g, Met(s.blockSize, len, b)) + BlockKeys(s, mem, lane, kvHead, g, len, b)
         == LaneKeys(s, mem, lane, kvHead, g, Met(s.blockSize, len, b + 1))
  {
    WalkMeetsPositions(s.blockSize, len, b, 0);
    hide KeyOf;
    assert Met(s.blockSize, len, b + 1) == b * s.blockSize + Live(s.blockSize, len, b);
  }

  // ---- Merging partial states ----

  lemma {:induction false} SumsConcat(exp: real -> real, a: seq<Key>, b: seq<Key>, top: real, d: nat)
    ensures MassFrom(exp, a + b, top) == MassFrom(exp, a, top) + MassFrom(exp, b, top)
    ensures MomentFrom(exp, a + b, top, d) == MomentFrom(exp, a, top, d) + MomentFrom(exp, b, top, d)
  {
    if b == [] {
      assert a + b == a;
    } else {
      assert (a + b)[..|a + b| - 1] == a + b[..|b| - 1];
      SumsConcat(exp, a, b[..|b| - 1], top, d);
    }
  }

  function HigherPeak(a: Peak, b: Peak): Peak {
    if a.Empty? then b else if b.Empty? then a else if a.score >= b.score then a else b
  }

  /** `exp(m - top)`; with nobody having any work both are the sentinel, and the factor meets zeros. */
  function RescalePeak(exp: real -> real, m: Peak, top: Peak): real {
    if top.Empty? then 1.0 else Rescale(exp, m, top.score)
  }

  /** A peak over a collection of parts: empty, or the top of all their keys. */
  ghost predicate PeakOf(m: Peak, keys: seq<Key>) {
    match m
    case Empty => keys == []
    case At(top) => IsTop(top, keys)
  }

  lemma PeakConcat(a: Peak, x: seq<Key>, b: Peak, y: seq<Key>)
    requires PeakOf(a, x) && PeakOf(b, y)
    ensures PeakOf(HigherPeak(a, b), x + y)
  {
    var m := HigherPeak(a, b);
    if m.At? {
      if m == a {
        var k :| k in x && k.score == m.score;
        assert k in x + y;
      } else {
        var k :| k in y && k.score == m.score;
        assert k in x + y;
      }
    }
  }

  /** All partial states summarize their own shares. */
  ghost predicate AllSummarize(exp: real -> real, parts: seq<Partial>, shares: seq<seq<Key>>, dim: nat) {
    && |parts| == |shares|
    && forall p :: 0 <= p < |parts| ==> Summarizes(exp, parts[p], shares[p]) && |parts[p].acc| == dim
  }

  /** Merge the planes' partial states: the maximum of the maxima, then rescale and add. A plane that
      drew no blocks contributes nothing. */
  method Merge(exp: real -> real, parts: seq<Partial>, ghost shares: seq<seq<Key>>, dim: nat) returns (merged: Partial)
    requires Exponential(exp) && parts != [] && AllSummarize(exp, parts, shares, dim)
    ensures Summarizes(exp, merged, Gathered(shares)) && |merged.acc| == dim
  {
    hide Exponential, PeakOf, Summarizes, RescalePeak, Gathered;
    var mAll := TopOf(exp, parts, shares, dim);
    var lAll, accAll := 0.0, seq(dim, _ => 0.0);
    StartSums(exp, shares, mAll, dim);
    for other := 0 to |parts|
      invariant |accAll| == dim && SumsSoFar(exp, shares[..other], mAll, lAll, accAll)
    {
      var alpha := RescalePeak(exp, parts[other].m, mAll);
      ghost var l0, acc0 := lAll, accAll;
      lAll := lAll + parts[other].l * alpha;
      accAll := seq(dim, d requires 0 <= d < dim => accAll[d] + parts[other].acc[d] * alpha);
      AddPart(exp, shares, other, mAll, l0, acc0, parts[other], lAll, accAll);
    }
    assert shares[..|parts|] == shares;
    merged := Partial(mAll, lAll, accAll);
    hide SumsSoFar;
    EmptySums(exp, merged, shares);
  }

  /** The maximum of the maxima. */
  method TopOf(exp: real -> real, parts: seq<Partial>, ghost shares: seq<seq<Key>>, ghost dim: nat) returns (mAll: Peak)
    requires parts != [] && AllSummarize(exp, parts, shares, dim)
    ensures PeakOf(mAll, Gathered(shares))
  {
    mAll := parts[0].m;
    assert shares[..1][..0] == [] && Gathered(shares[..1]) == shares[0];
    for other := 1 to |parts|
      invariant PeakOf(mAll, Gathered(shares[..other]))
    {
      assert shares[..other + 1][..other] == shares[..other];
      PeakConcat(mAll, Gathered(shares[..other]), parts[other].m, shares[other]);
      mAll := HigherPeak(mAll, parts[other].m);
    }
    assert shares[..|parts|] == shares;
  }

  /** Running totals of the rescaled parts. */
  ghost predicate SumsSoFar(exp: real -> real, shares: seq<seq<Key>>, mAll: Peak, l: real, acc: seq<real>) {
    match mAll
    case Empty => l == 0.0 && forall d :: 0 <= d < |acc| ==> acc[d] == 0.0
    case At(top) =>
      && l == MassFrom(exp, Gathered(shares), top)
      && forall d :: 0 <= d < |acc| ==> acc[d] == MomentFrom(exp, Gathered(shares), top, d)
  }

  lemma StartSums(exp: real -> real, shares: seq<seq<Key>>, mAll: Peak, dim: nat)
    ensures SumsSoFar(exp, shares[..0], mAll, 0.0, seq(dim, _ => 0.0))
  {
  }

  lemma AddPart(exp: real -> real, shares: seq<seq<Key>>, other: nat, mAll: Peak, l: real, acc: seq<real>, part: Partial, l': real, acc': seq<real>)
    requires Exponential(exp) && other < |shares| && PeakOf(mAll, Gathered(shares)) && |part.acc| == |acc| == |acc'|
    requires SumsSoFar(exp, shares[..other], mAll, l, acc) && Summarizes(exp, part, shares[other])
    requires l' == l + part.l * RescalePeak(exp, part.m, mAll)
    requires forall d :: 0 <= d < |acc| ==> acc'[d] == acc[d] + part.acc[d] * RescalePeak(exp, part.m, mAll)
    ensures SumsSoFar(exp, shares[..other + 1], mAll, l', acc')
  {
    hide Exponential, Summarizes, MassFrom, MomentFrom, Gathered, Rescale, IsTop;
    if mAll.Empty? {
      NothingGathered(shares, other);
      IdlePart(exp, part);
    } else {
      AddRealPart(exp, shares, other, mAll.score, l, acc, part);
    }
  }

  lemma IdlePart(exp: real -> real, part: Partial)
    requires Summarizes(exp, part, [])
    ensures part.m.Empty? && part.l == 0.0 && forall d :: 0 <= d < |part.acc| ==> part.acc[d] == 0.0
  {
  }

  lemma AddRealPart(exp: real -> real, shares: seq<seq<Key>>, other: nat, top: real, l: real, acc: seq<real>, part: Partial)
    requires Exponential(exp) && other < |shares| && |part.acc| == |acc| && Summarizes(exp, part, shares[other])
    requires l == MassFrom(exp, Gathered(shares[..other]), top)
    requires forall d :: 0 <= d < |acc| ==> acc[d] == MomentFrom(exp, Gathered(shares[..other]), top, d)
    ensures l + part.l * Rescale(exp, part.m, top) == MassFrom(exp, Gathered(shares[..other + 1]), top)
    ensures forall d :: 0 <= d < |acc| ==> acc[d] + part.acc[d] * Rescale(exp, part.m, top) == MomentFrom(exp, Gathered(shares[..other + 1]), top, d)
  {
    AddMass(exp, shares, other, top, l, part);
    forall d | 0 <= d < |acc|
      ensures acc[d] + part.acc[d] * Rescale(exp, part.m, top) == MomentFrom(exp, Gathered(shares[..other + 1]), top, d)
    {
      AddMoment(exp, shares, other, top, acc[d], part, d);
    }
  }

  lemma AddMass(exp: real -> real, shares: seq<seq<Key>>, other: nat, top: real, l: real, part: Partial)
    requires Exponential(exp) && other < |shares| && Summarizes(exp, part, shares[other])
    requires l == MassFrom(exp, Gathered(shares[..other]), top)
    ensures l + part.l * Rescale(exp, part.m, top) == MassFrom(exp, Gathered(shares[..other + 1]), top)
  {
    assert shares[..other + 1][..other] == shares[..other];
    RescaleMass(exp, part, shares[other], top);
    SumsConcat(exp, Gathered(shares[..other]), shares[other], top, 0);
  }

  lemma AddMoment(exp: real -> real, shares: seq<seq<Key>>, other: nat, top: real, x: real, part: Partial, d: nat)
    requires Exponential(exp) && other < |shares| && Summarizes(exp, part, shares[other]) && d < |part.acc|
    requires x == MomentFrom(exp, Gathered(shares[..other]), top, d)
    ensures x + part.acc[d] * Rescale(exp, part.m, top) == MomentFrom(exp, Gathered(shares[..other + 1]), top, d)
  {
    assert shares[..other + 1][..other] == shares[..other];
    RescaleSums(exp, part, shares[other], top, d);
    SumsConcat(exp, Gathered(shares[..other]), shares[other], top, d);
  }

  lemma {:induction false} NothingGathered<T>(shares: seq<seq<T>>, i: nat)
    requires Gathered(shares) == [] && i < |shares|
    ensures shares[i] == []
  {
    if i < |shares| - 1 {
      NothingGathered(shares[..|shares| - 1], i);
    }
  }

  lemma EmptySums(exp: real -> real, st: Partial, shares: seq<seq<Key>>)
    requires PeakOf(st.m, Gathered(shares)) && SumsSoFar(exp, shares, st.m, st.l, st.acc)
    ensures Summarizes(exp, st, Gathered(shares))
  {
  }

  /** A state that summarizes some keys summarizes them in any order. */
  lemma SummarizesPermuted(exp: real -> real, st: Partial, a: seq<Key>, b: seq<Key>)
    requires Summarizes(exp, st, a) && multiset(a) == multiset(b)
    ensures Summarizes(exp, st, b)
  {
    if st.m.Empty? {
      assert |multiset(b)| == 0;
    } else {
      PermutedTop(a, b, st.m.score);
      Permuted(exp, a, b, st.m.score, 0);
      forall d | 0 <= d < |st.acc|
        ensures st.acc[d] == MomentFrom(exp, b, st.m.score, d)
      {
        Permuted(exp, a, b, st.m.score, d);
      }
    }
  }
}
