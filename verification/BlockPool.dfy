/** Host-side bookkeeping for the paged KV cache: the free stack, and per lane its length and block
    table. Everything here is about block ids; the storage they name is `Stores`. */
module Pools {
  import opened Arithmetic
  import opened Wrappers

  /** The block id ragged gathers pad with; owned by no lane. */
  const SENTINEL_BLOCK: nat := 0

  /** Block ids are `u32`, and `num_blocks` is cast to that width when the free stack is filled. */
  const U32: nat := 0x1_0000_0000

  datatype PoolExhausted = PoolExhausted(shortBy: nat)

  type Table = seq<nat>

  // ---- What the ledger means ----

  /** How often block `id` appears in the lane tables. */
  ghost function Held(tables: seq<Table>, id: nat): nat {
    if tables == [] then 0
    else Held(tables[..|tables| - 1], id) + multiset(tables[|tables| - 1])[id]
  }

  /** How often block `id` appears anywhere: in the free stack or in a table. */
  ghost function Owners(free: seq<nat>, tables: seq<Table>, id: nat): nat {
    multiset(free)[id] + Held(tables, id)
  }

  function TotalLength(tables: seq<Table>): nat {
    if tables == [] then 0 else TotalLength(tables[..|tables| - 1]) + |tables[|tables| - 1]|
  }

  /** The partition: free stack and lane tables together hold each usable id `1..=usable` exactly
      once, and hold nothing else; in particular the sentinel is nowhere. */
  ghost predicate Partitioned(free: seq<nat>, tables: seq<Table>, usable: nat) {
    && (forall id: nat :: Owners(free, tables, id) == if 1 <= id <= usable then 1 else 0)
    && |free| + TotalLength(tables) == usable
  }

  /** Blocks only moved: every id has as many owners as before. */
  ghost predicate Conserved(free: seq<nat>, tables: seq<Table>, free': seq<nat>, tables': seq<Table>) {
    && (forall id: nat :: Owners(free', tables', id) == Owners(free, tables, id))
    && |free'| + TotalLength(tables') == |free| + TotalLength(tables)
  }

  /** Blocks one lane must gain to take `seqLen` more tokens. */
  function Extra(len: nat, seqLen: nat, blockSize: nat): nat
    requires blockSize >= 1
  {
    CeilDivMonotone(len, len + seqLen, blockSize);
    CeilDiv(len + seqLen, blockSize) - CeilDiv(len, blockSize)
  }

  ghost predicate InRange(lanes: seq<nat>, count: nat) {
    forall i :: 0 <= i < |lanes| ==> lanes[i] < count
  }

  ghost predicate Distinct<T>(s: seq<T>) {
    forall i, j :: 0 <= i < j < |s| ==> s[i] != s[j]
  }

  /** Extra blocks a whole round needs. */
  ghost function RoundNeed(lens: seq<nat>, blockSize: nat, lanes: seq<nat>, seqLen: nat): nat
    requires blockSize >= 1 && InRange(lanes, |lens|)
  {
    if lanes == [] then 0
    else Extra(lens[lanes[0]], seqLen, blockSize) + RoundNeed(lens, blockSize, lanes[1..], seqLen)
  }

  /** How many blocks short the first lane that cannot be served is, lanes being served in order
      from `avail` free blocks; zero when every lane is served. */
  ghost function Shortfall(lens: seq<nat>, blockSize: nat, lanes: seq<nat>, seqLen: nat, avail: nat): nat
    requires blockSize >= 1 && InRange(lanes, |lens|)
  {
    if lanes == [] then 0
    else
      var need := Extra(lens[lanes[0]], seqLen, blockSize);
      if need > avail then need - avail
      else Shortfall(lens, blockSize, lanes[1..], seqLen, avail - need)
  }

  function StartsOf(lens: seq<nat>, lanes: seq<nat>): (r: seq<nat>)
    requires InRange(lanes, |lens|)
    ensures |r| == |lanes|
  {
    seq(|lanes|, i requires 0 <= i < |lanes| => lens[lanes[i]])
  }

  /** Halfway through a round: the first `done` lanes have the tables their new length needs. */
  ghost predicate MidRound(tables0: seq<Table>, tables: seq<Table>, lens: seq<nat>, blockSize: nat, lanes: seq<nat>, done: nat, seqLen: nat)
    requires blockSize >= 1 && done <= |lanes|
  {
    && |tables0| == |tables| == |lens|
    && (forall lane :: 0 <= lane < |lens| ==> tables0[lane] <= tables[lane])
    && (forall lane :: 0 <= lane < |lens| ==> |tables0[lane]| == CeilDiv(lens[lane], blockSize))
    && (forall k :: 0 <= k < done && lanes[k] < |lens| ==> |tables[lanes[k]]| == CeilDiv(lens[lanes[k]] + seqLen, blockSize))
    && (forall lane :: 0 <= lane < |lens| && lane !in lanes[..done] ==> tables[lane] == tables0[lane])
  }

  ghost predicate OnlyLaneGrew(before: seq<Table>, after: seq<Table>, lane: nat) {
    && lane < |before| == |after|
    && before[lane] <= after[lane]
    && forall other :: 0 <= other < |before| && other != lane ==> after[other] == before[other]
  }

  /** What the rollback needs to remember: each grown lane and the length its table had. */
  ghost predicate Remembers(grown: seq<(nat, nat)>, lanes: seq<nat>, tables0: seq<Table>) {
    && |grown| <= |lanes| && InRange(lanes, |tables0|)
    && forall k :: 0 <= k < |grown| ==> grown[k] == (lanes[k], |tables0[lanes[k]]|)
  }

  /** The state of a round with the first `i` lanes grown. */
  ghost predicate Growing(blockSize: nat, usable: nat, grown: seq<(nat, nat)>, lanes: seq<nat>, i: nat, seqLen: nat, free0: seq<nat>, tables0: seq<Table>, lens: seq<nat>, free: seq<nat>, tables: seq<Table>)
    requires blockSize >= 1 && InRange(lanes, |lens|) && i <= |lanes|
  {
    && |grown| == i && Remembers(grown, lanes, tables0)
    && MidRound(tables0, tables, lens, blockSize, lanes, i, seqLen)
    && Partitioned(free, tables, usable) && Partitioned(free0, tables0, usable)
    && free <= free0
    && |free0| - |free| + RoundNeed(lens, blockSize, lanes[i..], seqLen) == RoundNeed(lens, blockSize, lanes, seqLen)
    && Shortfall(lens, blockSize, lanes[i..], seqLen, |free|) == Shortfall(lens, blockSize, lanes, seqLen, |free0|)
  }

  /** The lengths after a committed round. */
  function Advanced(lens: seq<nat>, lanes: seq<nat>, seqLen: nat): (r: seq<nat>)
    ensures |r| == |lens|
  {
    seq(|lens|, lane requires 0 <= lane < |lens| => if lane in lanes then lens[lane] + seqLen else lens[lane])
  }

  class BlockPool {
    const blockSize: nat
    ghost const usable: nat
    var free: seq<nat>
    var tables: seq<Table>
    var lens: seq<nat>

    ghost predicate Valid()
      reads this
    {
      && blockSize >= 1
      && usable < U32
      && |tables| == |lens|
      && (forall lane :: 0 <= lane < |lens| ==> |tables[lane]| == CeilDiv(lens[lane], blockSize))
      && Partitioned(free, tables, usable)
    }

    /** `num_blocks` is cast to `u32`, so a count past that width wraps before the stack is filled. */
    constructor (blockSize: nat, numBlocks: nat, numLanes: nat)
      requires blockSize >= 1 && numBlocks >= 2
      ensures Valid() && this.blockSize == blockSize
      ensures numBlocks < U32 ==> usable == numBlocks - 1
      ensures usable < numBlocks
      ensures lens == seq(numLanes, _ => 0)
    {
      var top := numBlocks % U32;
      var count := if top == 0 then 0 else top - 1;
      this.blockSize := blockSize;
      usable := count;
      free := OneUpTo(count);
      tables := seq(numLanes, _ => []);
      lens := seq(numLanes, _ => 0);
      new;
      assert forall lane :: 0 <= lane < numLanes ==> |tables[lane]| == 0 == CeilDiv(lens[lane], blockSize);
      NoTables(tables);
      forall id: nat ensures Owners(free, tables, id) == if 1 <= id <= usable then 1 else 0 {
        Ascending(count, id);
      }
    }

    /** Free and owned blocks together. */
    function UsableBlocks(): nat
      reads this
    {
      |free| + TotalLength(tables)
    }

    /** `usable_blocks` is a constant of the pool: no operation changes it. */
    lemma UsableIsConstant()
      requires Valid()
      ensures UsableBlocks() == usable
    {
    }

    /** Grow one lane's table to cover `newLen` tokens, all or nothing. Inside a round the other
        tables may already be ahead of their lengths, so only the partition is assumed. */
    method GrowTable(lane: nat, newLen: nat) returns (r: Option<PoolExhausted>)
      requires blockSize >= 1 && lane < |tables| && Partitioned(free, tables, usable)
      modifies this`free, this`tables
      ensures Partitioned(free, tables, usable)
      ensures var need := CeilDiv(newLen, blockSize); var have := |old(tables)[lane]|;
        && (r.Some? <==> need > have && need - have > |old(free)|)
        && (r.Some? ==> r.value.shortBy == need - have - |old(free)|)
        && (r.Some? || need <= have ==> free == old(free) && tables == old(tables))
        && (r.None? && need > have ==> free == old(free)[..|old(free)| - (need - have)])
      ensures OnlyLaneGrew(old(tables), tables, lane)
      ensures r.None? && CeilDiv(newLen, blockSize) > |old(tables)[lane]| ==> |tables[lane]| == CeilDiv(newLen, blockSize)
    {
      var need := CeilDiv(newLen, blockSize);
      var have := |tables[lane]|;
      if need <= have {
        return None;
      }
      var short := need - have;
      if short > |free| {
        return Some(PoolExhausted(short - |free|));
      }
      for k := 0 to short
        invariant |old(free)| >= short && free == old(free)[..|old(free)| - k]
        invariant OnlyLaneGrew(old(tables), tables, lane) && |tables[lane]| == have + k
        invariant Partitioned(free, tables, usable)
      {
        var block := free[|free| - 1];
        TakeBlock(free, tables, lane);
        free := free[..|free| - 1];
        tables := tables[lane := tables[lane] + [block]];
      }
      r := None;
    }

    /** Commit one round of `seqLen` tokens over distinct lanes: all of them or none. */
    method BeginRound(lanes: seq<nat>, seqLen: nat) returns (r: Result<seq<nat>, PoolExhausted>)
      requires Valid() && InRange(lanes, |lens|) && Distinct(lanes)
      modifies this`free, this`tables, this`lens
      ensures Valid()
      ensures r.Success? <==> RoundNeed(old(lens), blockSize, lanes, seqLen) <= |old(free)|
      ensures r.Success? ==>
        && r.value == StartsOf(old(lens), lanes)
        && lens == Advanced(old(lens), lanes, seqLen)
        && free <= old(free)
        && |free| == |old(free)| - RoundNeed(old(lens), blockSize, lanes, seqLen)
        && (forall lane :: 0 <= lane < |tables| ==> old(tables)[lane] <= tables[lane])
      ensures r.Failure? ==>
        && r.error.shortBy == Shortfall(old(lens), blockSize, lanes, seqLen, |old(free)|)
        && tables == old(tables) && lens == old(lens)
        && multiset(free) == multiset(old(free))
    {
      ShortfallMeaning(lens, blockSize, lanes, seqLen, |free|);
      ghost var tables0 := tables;
      var exhausted := GrowLanes(lanes, seqLen);
      if exhausted.Some? {
        return Failure(exhausted.value);
      }
      RoundGrown(tables0, tables, lens, blockSize, lanes, seqLen);
      var starts := seq(|lanes|, i requires 0 <= i < |lanes| && lanes[i] < |lens| reads this => lens[lanes[i]]);
      AdvanceLens(lanes, seqLen);
      r := Success(starts);
    }

    /** The growing half of a round: every lane's table reaches its new length, or none moves. */
    method GrowLanes(lanes: seq<nat>, seqLen: nat) returns (r: Option<PoolExhausted>)
      requires Valid() && InRange(lanes, |lens|) && Distinct(lanes)
      modifies this`free, this`tables
      ensures Partitioned(free, tables, usable)
      ensures var short := Shortfall(lens, blockSize, lanes, seqLen, |old(free)|);
        && (r.Some? <==> short > 0)
        && (r.Some? ==> r.value.shortBy == short && tables == old(tables) && multiset(free) == multiset(old(free)))
      ensures r.None? ==>
        && MidRound(old(tables), tables, lens, blockSize, lanes, |lanes|, seqLen)
        && free <= old(free)
        && |free| == |old(free)| - RoundNeed(lens, blockSize, lanes, seqLen)
    {
      ghost var free0, tables0, lens0 := free, tables, lens;
      var grown: seq<(nat, nat)> := [];
      for i := 0 to |lanes|
        invariant lens == lens0 && Growing(blockSize, usable, grown, lanes, i, seqLen, free0, tables0, lens0, free, tables)
      {
        r, grown := GrowNext(grown, lanes, i, seqLen, free0, tables0, lens0);
        if r.Some? {
          Rollback(grown, lanes, free0, tables0);
          return;
        }
      }
      r := None;
    }

    /** Grow lane `i` of the round, or say how many blocks it is short. */
    method GrowNext(grown: seq<(nat, nat)>, lanes: seq<nat>, i: nat, seqLen: nat, ghost free0: seq<nat>, ghost tables0: seq<Table>, ghost lens0: seq<nat>)
      returns (r: Option<PoolExhausted>, grown': seq<(nat, nat)>)
      requires blockSize >= 1 && InRange(lanes, |lens0|) && Distinct(lanes) && i < |lanes|
      requires lens == lens0 && Growing(blockSize, usable, grown, lanes, i, seqLen, free0, tables0, lens0, free, tables)
      modifies this`free, this`tables
      ensures r.None? ==> Growing(blockSize, usable, grown', lanes, i + 1, seqLen, free0, tables0, lens0, free, tables)
      ensures r.Some? ==>
        && r.value.shortBy > 0
        && r.value.shortBy == Shortfall(lens0, blockSize, lanes, seqLen, |free0|)
        && free == old(free) && tables == old(tables) && grown' == grown
    {
      hide RoundNeed, Shortfall, Owners, TotalLength;
      var lane := lanes[i];
      TableBeforeGrowing(tables0, tables, lens0, blockSize, lanes, i, seqLen);
      NextLane(lens0, blockSize, lanes, i, seqLen, |free|);
      var before: nat := |tables[lane]|;
      ghost var mid, avail := tables, |free|;
      r := GrowTable(lane, lens[lane] + seqLen);
      if r.Some? {
        return r, grown;
      }
      grown' := grown + [(lane, before)];
      OneMoreLane(tables0, mid, tables, lens0, blockSize, lanes, i, seqLen);
    }

    /** The failure path of a round: every lane grown so far gives back what it took. */
    method Rollback(grown: seq<(nat, nat)>, ghost lanes: seq<nat>, ghost free0: seq<nat>, ghost tables0: seq<Table>)
      requires Partitioned(free, tables, usable) && Partitioned(free0, tables0, usable)
      requires Distinct(lanes) && |tables| == |tables0| && Remembers(grown, lanes, tables0)
      requires forall lane :: 0 <= lane < |tables0| ==> tables0[lane] <= tables[lane]
      requires forall lane :: 0 <= lane < |tables0| && lane !in lanes[..|grown|] ==> tables[lane] == tables0[lane]
      modifies this`free, this`tables
      ensures tables == tables0 && multiset(free) == multiset(free0)
      ensures Partitioned(free, tables, usable)
    {
      for k := 0 to |grown|
        invariant |tables| == |tables0|
        invariant forall lane :: 0 <= lane < |tables0| ==> tables0[lane] <= tables[lane]
        invariant forall lane :: 0 <= lane < |tables0| && lane !in lanes[k..|grown|] ==> tables[lane] == tables0[lane]
        invariant Partitioned(free, tables, usable)
      {
        var (lane, keep) := grown[k];
        assert lanes[k..|grown|] == [lane] + lanes[k + 1..|grown|];
        GiveBack(free, tables, lane, keep);
        var excess := tables[lane][keep..];
        tables := tables[lane := tables[lane][..keep]];
        free := free + excess;
      }
      assert tables == tables0;
      SameStack(free, free0, tables0, usable);
    }

    method AdvanceLens(lanes: seq<nat>, seqLen: nat)
      requires InRange(lanes, |lens|) && Distinct(lanes)
      modifies this`lens
      ensures lens == Advanced(old(lens), lanes, seqLen)
    {
      for i := 0 to |lanes|
        invariant |lens| == |old(lens)|
        invariant forall lane :: 0 <= lane < |lens| ==>
          lens[lane] == if lane in lanes[..i] then old(lens)[lane] + seqLen else old(lens)[lane]
      {
        assert lanes[..i + 1] == lanes[..i] + [lanes[i]];
        lens := lens[lanes[i] := lens[lanes[i]] + seqLen];
      }
      assert lanes[..|lanes|] == lanes;
    }

    /** Give every block of `lane` back and zero its length. */
    method FreeLane(lane: nat)
      requires Valid() && lane < |lens|
      modifies this`free, this`tables, this`lens
      ensures Valid()
      ensures lens == old(lens)[lane := 0] && tables == old(tables)[lane := []]
      ensures free == old(free) + old(tables)[lane]
    {
      GiveBack(free, tables, lane, 0);
      assert tables[lane][..0] == [] && tables[lane][0..] == tables[lane];
      var blocks := tables[lane];
      tables := tables[lane := []];
      free := free + blocks;
      lens := lens[lane := 0];
    }
  }

  // ---- Facts about the ledger ----

  lemma {:induction false} NoTables(tables: seq<Table>)
    requires forall i :: 0 <= i < |tables| ==> tables[i] == []
    ensures TotalLength(tables) == 0 && forall id: nat :: Held(tables, id) == 0
  {
    if tables != [] {
      NoTables(tables[..|tables| - 1]);
    }
  }

  /** The ids `1..=n`, ascending. */
  function OneUpTo(n: nat): (s: seq<nat>)
    ensures |s| == n
  {
    if n == 0 then [] else OneUpTo(n - 1) + [n]
  }

  lemma {:induction false} Ascending(n: nat, id: nat)
    ensures multiset(OneUpTo(n))[id] == if 1 <= id <= n then 1 else 0
  {
    if n > 0 {
      Ascending(n - 1, id);
    }
  }

  /** Replacing one table moves exactly its blocks. */
  lemma {:induction false} HeldUpdate(tables: seq<Table>, lane: nat, t: Table, id: nat)
    requires lane < |tables|
    ensures Held(tables[lane := t], id) + multiset(tables[lane])[id] == Held(tables, id) + multiset(t)[id]
    ensures TotalLength(tables[lane := t]) + |tables[lane]| == TotalLength(tables) + |t|
  {
    var last := |tables| - 1;
    if lane == last {
      assert tables[lane := t][..last] == tables[..last];
    } else {
      assert tables[lane := t][..last] == tables[..last][lane := t];
      HeldUpdate(tables[..last], lane, t, id);
    }
  }

  lemma TakeBlock(free: seq<nat>, tables: seq<Table>, lane: nat)
    requires free != [] && lane < |tables|
    ensures Conserved(free, tables, free[..|free| - 1], tables[lane := tables[lane] + [free[|free| - 1]]])
  {
    var block := free[|free| - 1];
    var rest := free[..|free| - 1];
    assert free == rest + [block];
    HeldUpdate(tables, lane, tables[lane] + [block], 0);
    forall id: nat
      ensures Owners(rest, tables[lane := tables[lane] + [block]], id) == Owners(free, tables, id)
    {
      HeldUpdate(tables, lane, tables[lane] + [block], id);
    }
  }

  lemma GiveBack(free: seq<nat>, tables: seq<Table>, lane: nat, keep: nat)
    requires lane < |tables| && keep <= |tables[lane]|
    ensures Conserved(free, tables, free + tables[lane][keep..], tables[lane := tables[lane][..keep]])
  {
    var kept, excess := tables[lane][..keep], tables[lane][keep..];
    assert tables[lane] == kept + excess;
    HeldUpdate(tables, lane, kept, 0);
    forall id: nat
      ensures Owners(free + excess, tables[lane := kept], id) == Owners(free, tables, id)
    {
      HeldUpdate(tables, lane, kept, id);
    }
  }

  /** With the tables back as they were, the free stack holds the same blocks, in some order. */
  lemma SameStack(free: seq<nat>, free0: seq<nat>, tables: seq<Table>, usable: nat)
    requires Partitioned(free, tables, usable) && Partitioned(free0, tables, usable)
    ensures multiset(free) == multiset(free0)
  {
    forall id: nat
      ensures multiset(free)[id] == multiset(free0)[id]
    {
      assert Owners(free, tables, id) == Owners(free0, tables, id);
    }
  }

  lemma TableBeforeGrowing(tables0: seq<Table>, tables: seq<Table>, lens: seq<nat>, blockSize: nat, lanes: seq<nat>, i: nat, seqLen: nat)
    requires blockSize >= 1 && i < |lanes| && Distinct(lanes) && InRange(lanes, |lens|)
    requires MidRound(tables0, tables, lens, blockSize, lanes, i, seqLen)
    ensures tables[lanes[i]] == tables0[lanes[i]] && |tables[lanes[i]]| == CeilDiv(lens[lanes[i]], blockSize)
  {
    assert lanes[i] !in lanes[..i];
  }

  lemma NextLane(lens: seq<nat>, blockSize: nat, lanes: seq<nat>, i: nat, seqLen: nat, avail: nat)
    requires blockSize >= 1 && InRange(lanes, |lens|) && i < |lanes|
    ensures CeilDiv(lens[lanes[i]], blockSize) <= CeilDiv(lens[lanes[i]] + seqLen, blockSize)
    ensures var need := Extra(lens[lanes[i]], seqLen, blockSize);
      && RoundNeed(lens, blockSize, lanes[i..], seqLen) == need + RoundNeed(lens, blockSize, lanes[i + 1..], seqLen)
      && Shortfall(lens, blockSize, lanes[i..], seqLen, avail)
         == if need > avail then need - avail else Shortfall(lens, blockSize, lanes[i + 1..], seqLen, avail - need)
  {
    assert lanes[i..][0] == lanes[i] && lanes[i..][1..] == lanes[i + 1..];
    CeilDivMonotone(lens[lanes[i]], lens[lanes[i]] + seqLen, blockSize);
  }

  lemma OneMoreLane(tables0: seq<Table>, mid: seq<Table>, tables: seq<Table>, lens: seq<nat>, blockSize: nat, lanes: seq<nat>, i: nat, seqLen: nat)
    requires blockSize >= 1 && i < |lanes| && Distinct(lanes) && InRange(lanes, |lens|)
    requires MidRound(tables0, mid, lens, blockSize, lanes, i, seqLen)
    requires OnlyLaneGrew(mid, tables, lanes[i]) && |tables[lanes[i]]| == CeilDiv(lens[lanes[i]] + seqLen, blockSize)
    ensures MidRound(tables0, tables, lens, blockSize, lanes, i + 1, seqLen)
  {
    assert lanes[..i + 1] == lanes[..i] + [lanes[i]];
  }

  /** A finished round has grown every table to its lane's new length. */
  lemma RoundGrown(tables0: seq<Table>, tables: seq<Table>, lens: seq<nat>, blockSize: nat, lanes: seq<nat>, seqLen: nat)
    requires blockSize >= 1 && MidRound(tables0, tables, lens, blockSize, lanes, |lanes|, seqLen)
    ensures forall lane :: 0 <= lane < |lens| ==>
      |tables[lane]| == CeilDiv(Advanced(lens, lanes, seqLen)[lane], blockSize)
  {
    assert lanes[..|lanes|] == lanes;
    forall lane | 0 <= lane < |lens|
      ensures |tables[lane]| == CeilDiv(Advanced(lens, lanes, seqLen)[lane], blockSize)
    {
      if lane in lanes {
        var k :| 0 <= k < |lanes| && lanes[k] == lane;
        assert |tables[lanes[k]]| == CeilDiv(lens[lanes[k]] + seqLen, blockSize);
      }
    }
  }

  /** A round succeeds exactly when the whole round's need is available. */
  lemma {:induction false} ShortfallMeaning(lens: seq<nat>, blockSize: nat, lanes: seq<nat>, seqLen: nat, avail: nat)
    requires blockSize >= 1 && InRange(lanes, |lens|)
    ensures Shortfall(lens, blockSize, lanes, seqLen, avail) == 0 <==> RoundNeed(lens, blockSize, lanes, seqLen) <= avail
  {
    if lanes != [] {
      var need := Extra(lens[lanes[0]], seqLen, blockSize);
      if need <= avail {
        ShortfallMeaning(lens, blockSize, lanes[1..], seqLen, avail - need);
      }
    }
  }

  /** The shortfall is that of the first lane that cannot be served once those before it are. */
  lemma {:induction false} ShortfallIsFirst(lens: seq<nat>, blockSize: nat, lanes: seq<nat>, seqLen: nat, avail: nat) returns (i: nat)
    requires blockSize >= 1 && InRange(lanes, |lens|) && Shortfall(lens, blockSize, lanes, seqLen, avail) > 0
    ensures i < |lanes| && RoundNeed(lens, blockSize, lanes[..i], seqLen) <= avail
    ensures Shortfall(lens, blockSize, lanes, seqLen, avail) == RoundNeed(lens, blockSize, lanes[..i + 1], seqLen) - avail
  {
    var need := Extra(lens[lanes[0]], seqLen, blockSize);
    if need > avail {
      i := 0;
      assert lanes[..1][1..] == [];
    } else {
      var k := ShortfallIsFirst(lens, blockSize, lanes[1..], seqLen, avail - need);
      i := k + 1;
      assert lanes[..i][1..] == lanes[1..][..k] && lanes[..i + 1][1..] == lanes[1..][..k + 1];
    }
  }

  lemma TwiceInTable(t: Table, i: nat, j: nat)
    requires i < j < |t| && t[i] == t[j]
    ensures multiset(t)[t[i]] >= 2
  {
    assert t == t[..j] + t[j..];
    assert t[i] in t[..j] && t[i] in t[j..];
  }

  lemma HeldIncludes(tables: seq<Table>, lane: nat, id: nat)
    requires lane < |tables|
    ensures multiset(tables[lane])[id] <= Held(tables, id)
  {
    HeldUpdate(tables, lane, [], id);
  }

  /** No two table slots name the same block; no table names the sentinel or a free block. */
  lemma NoSharing(free: seq<nat>, tables: seq<Table>, usable: nat, l1: nat, i1: nat, l2: nat, i2: nat)
    requires Partitioned(free, tables, usable)
    requires l1 < |tables| && i1 < |tables[l1]| && l2 < |tables| && i2 < |tables[l2]|
    ensures 1 <= tables[l1][i1] <= usable && tables[l1][i1] !in free
    ensures tables[l1][i1] == tables[l2][i2] ==> l1 == l2 && i1 == i2
  {
    var b := tables[l1][i1];
    HeldIncludes(tables, l1, b);
    assert b in multiset(tables[l1]);
    assert Owners(free, tables, b) == 1;
    assert b in free ==> b in multiset(free);
    if b == tables[l2][i2] {
      assert b in multiset(tables[l2]);
      if l1 != l2 {
        HeldUpdate(tables, l1, [], b);
        HeldIncludes(tables[l1 := []], l2, b);
      } else if i1 != i2 {
        TwiceInTable(tables[l1], Min(i1, i2), if i1 < i2 then i2 else i1);
      }
    }
  }
}
