/** The Llama decoder over the paged cache. The network itself is opaque: one position's cached rows
    depend on the rows before it and on its token, and the logits depend on a lane's rows. What is
    proved is that, through all the paging, a lane behaves as its own token prefix. */
module Decoders {
  import opened Arithmetic
  import opened Wrappers
  import opened Pools
  import opened Stores
  import opened PagedCaches
  import opened Errors

  type Token = nat
  type Logits = int

  /** The network: the row of a new token given the rows before it, and the logits of a full lane. */
  datatype Model = Model(row: (seq<Row>, Token) -> Row, head: seq<Row> -> Logits)

  datatype DecodeRow = DecodeRow(slot: nat, token: Token)

  /** The rows a lane holds after reading `tokens` from empty. */
  function Encode(model: Model, tokens: seq<Token>): (rows: seq<Row>)
    ensures |rows| == |tokens|
  {
    if tokens == [] then []
    else
      var before := Encode(model, tokens[..|tokens| - 1]);
      before + [model.row(before, tokens[|tokens| - 1])]
  }

  lemma {:induction false} EncodeAppend(model: Model, before: seq<Token>, tokens: seq<Token>, k: nat)
    requires k < |tokens|
    ensures Encode(model, before + tokens[..k + 1])
         == Encode(model, before + tokens[..k]) + [model.row(Encode(model, before + tokens[..k]), tokens[k])]
  {
    var all := before + tokens[..k + 1];
    assert all[..|all| - 1] == before + tokens[..k];
  }

  // ---- Block accounting in terms of lanes ----

  ghost function Blocks(lens: seq<nat>, blockSize: nat): nat
    requires blockSize >= 1
  {
    if lens == [] then 0 else Blocks(lens[..|lens| - 1], blockSize) + CeilDiv(lens[|lens| - 1], blockSize)
  }

  /** Blocks a set of lanes occupies. */
  ghost function Used(lanes: seq<seq<Token>>, blockSize: nat): nat
    requires blockSize >= 1
  {
    Blocks(Lengths(lanes), blockSize)
  }

  ghost function Lengths<T>(lanes: seq<seq<T>>): (lens: seq<nat>)
    ensures |lens| == |lanes|
  {
    seq(|lanes|, l requires 0 <= l < |lanes| => |lanes[l]|)
  }

  lemma {:induction false} BlocksUpdate(lens: seq<nat>, blockSize: nat, lane: nat, len: nat)
    requires blockSize >= 1 && lane < |lens|
    ensures Blocks(lens[lane := len], blockSize) + CeilDiv(lens[lane], blockSize) == Blocks(lens, blockSize) + CeilDiv(len, blockSize)
  {
    var last := |lens| - 1;
    if lane == last {
      assert lens[lane := len][..last] == lens[..last];
    } else {
      assert lens[lane := len][..last] == lens[..last][lane := len];
      BlocksUpdate(lens[..last], blockSize, lane, len);
    }
  }

  lemma {:induction false} TablesHoldBlocks(tables: seq<Table>, lens: seq<nat>, blockSize: nat)
    requires blockSize >= 1 && |tables| == |lens|
    requires forall lane :: 0 <= lane < |lens| ==> |tables[lane]| == CeilDiv(lens[lane], blockSize)
    ensures TotalLength(tables) == Blocks(lens, blockSize)
  {
    if tables != [] {
      TablesHoldBlocks(tables[..|tables| - 1], lens[..|lens| - 1], blockSize);
    }
  }

  /** What a round needs is what the lanes occupy afterwards, less what they occupy now. */
  lemma {:induction false} NeedIsGrowth(lens: seq<nat>, blockSize: nat, lanes: seq<nat>, seqLen: nat)
    requires blockSize >= 1 && InRange(lanes, |lens|) && Distinct(lanes)
    ensures Blocks(Advanced(lens, lanes, seqLen), blockSize) == Blocks(lens, blockSize) + RoundNeed(lens, blockSize, lanes, seqLen)
  {
    if lanes == [] {
      assert Advanced(lens, lanes, seqLen) == lens;
    } else {
      var rest := lanes[1..];
      assert lanes == [lanes[0]] + rest;
      assert lanes[0] !in rest;
      NeedIsGrowth(lens, blockSize, rest, seqLen);
      AdvancedFirst(lens, lanes, seqLen);
      hide Advanced, Blocks, CeilDiv;
      BlocksUpdate(Advanced(lens, rest, seqLen), blockSize, lanes[0], lens[lanes[0]] + seqLen);
      CeilDivMonotone(lens[lanes[0]], lens[lanes[0]] + seqLen, blockSize);
    }
  }

  lemma AdvancedFirst(lens: seq<nat>, lanes: seq<nat>, seqLen: nat)
    requires lanes != [] && InRange(lanes, |lens|) && lanes[0] !in lanes[1..]
    ensures var mid := Advanced(lens, lanes[1..], seqLen);
      && |mid| == |lens| && mid[lanes[0]] == lens[lanes[0]]
      && Advanced(lens, lanes, seqLen) == mid[lanes[0] := lens[lanes[0]] + seqLen]
  {
    assert lanes == [lanes[0]] + lanes[1..];
  }

  // ---- One round on plain token lanes ----

  /** The lanes after each listed slot takes its tokens. */
  ghost function Pushed<T>(lanes: seq<seq<T>>, slots: seq<nat>, input: seq<seq<T>>): (r: seq<seq<T>>)
    requires InRange(slots, |lanes|) && |input| == |slots|
    ensures |r| == |lanes|
  {
    if slots == [] then lanes
    else
      var last := |slots| - 1;
      Pushed(lanes, slots[..last], input[..last])[slots[last] := lanes[slots[last]] + input[last]]
  }

  lemma {:induction false} PushedAt<T>(lanes: seq<seq<T>>, slots: seq<nat>, input: seq<seq<T>>)
    requires InRange(slots, |lanes|) && |input| == |slots| && Distinct(slots)
    ensures forall j :: 0 <= j < |slots| ==> Pushed(lanes, slots, input)[slots[j]] == lanes[slots[j]] + input[j]
    ensures forall l :: 0 <= l < |lanes| && l !in slots ==> Pushed(lanes, slots, input)[l] == lanes[l]
  {
    if slots != [] {
      var last := |slots| - 1;
      PushedAt(lanes, slots[..last], input[..last]);
      assert slots == slots[..last] + [slots[last]];
      forall j | 0 <= j < |slots|
        ensures Pushed(lanes, slots, input)[slots[j]] == lanes[slots[j]] + input[j]
      {
        if j < last {
          assert slots[..last][j] == slots[j] != slots[last] && input[..last][j] == input[j];
        }
      }
    }
  }

  lemma PushedLengths(lanes: seq<seq<Token>>, slots: seq<nat>, input: seq<seq<Token>>, seqLen: nat)
    requires InRange(slots, |lanes|) && |input| == |slots| && Distinct(slots)
    requires forall j :: 0 <= j < |input| ==> |input[j]| == seqLen
    ensures Lengths(Pushed(lanes, slots, input)) == Advanced(Lengths(lanes), slots, seqLen)
  {
    PushedAt(lanes, slots, input);
    forall l | 0 <= l < |lanes|
      ensures |Pushed(lanes, slots, input)[l]| == Advanced(Lengths(lanes), slots, seqLen)[l]
    {
      if l in slots {
        var j :| 0 <= j < |slots| && slots[j] == l;
        assert Pushed(lanes, slots, input)[slots[j]] == lanes[slots[j]] + input[j];
      }
    }
  }

  lemma PushedOne(lanes0: seq<seq<Token>>, lanes: seq<seq<Token>>, slot: nat, tokens: seq<Token>)
    requires slot < |lanes0| && |lanes| == |lanes0| && lanes == lanes0[slot := lanes[slot]]
    ensures Pushed(lanes, [slot], [tokens]) == lanes0[slot := lanes[slot] + tokens]
  {
    assert [slot][..0] == [] && [tokens][..0] == [];
  }

  /** Every lane's rows are the encoding of its tokens. */
  ghost predicate Holds(rows: seq<seq<Row>>, model: Model, lanes: seq<seq<Token>>) {
    && |rows| == |lanes|
    && forall l :: 0 <= l < |lanes| ==> rows[l] == Encode(model, lanes[l])
  }

  /** Appending each listed lane's new rows keeps every lane the encoding of its tokens. */
  lemma RoundAbsorbed(before: seq<seq<Row>>, after: seq<seq<Row>>, model: Model, lanes: seq<seq<Token>>, plan: LanePlan, rows: seq<seq<Row>>, input: seq<seq<Token>>)
    requires InRange(plan.lanes, |lanes|) && Distinct(plan.lanes) && |before| == |after| == |lanes|
    requires |rows| == |plan.lanes| == |input| == |plan.starts|
    requires forall j :: 0 <= j < |plan.lanes| ==> plan.starts[j] == |lanes[plan.lanes[j]]|
    requires forall l :: 0 <= l < |lanes| ==> Encode(model, lanes[l]) <= before[l]
    requires forall l :: 0 <= l < |lanes| && l !in plan.lanes ==> |lanes[l]| == |before[l]| && after[l] == before[l]
    requires forall j :: 0 <= j < |plan.lanes| ==> plan.starts[j] <= |before[plan.lanes[j]]|
    requires forall j :: 0 <= j < |rows| ==> after[plan.lanes[j]] == before[plan.lanes[j]][..plan.starts[j]] + rows[j]
    requires forall j :: 0 <= j < |rows| ==>
      Encode(model, lanes[plan.lanes[j]]) + rows[j] == Encode(model, lanes[plan.lanes[j]] + input[j])
    ensures Holds(after, model, Pushed(lanes, plan.lanes, input))
  {
    PushedAt(lanes, plan.lanes, input);
    forall l | 0 <= l < |lanes|
      ensures after[l] == Encode(model, Pushed(lanes, plan.lanes, input)[l])
    {
      if l in plan.lanes {
        var j :| 0 <= j < |plan.lanes| && plan.lanes[j] == l;
        assert before[l][..plan.starts[j]] == Encode(model, lanes[l]);
      }
    }
  }

  /** Why a round over these lanes is refused: the first lane past the window and the length it would
      reach, or the blocks the first lane that cannot be served is short of. */
  ghost function Refusal(lanes: seq<seq<Token>>, slots: seq<nat>, seqLen: nat, window: nat, blockSize: nat, totalBlocks: nat): (error: InferenceError)
    requires blockSize >= 1 && InRange(slots, |lanes|)
    ensures error.ContextLengthExceeded? || error.KvPoolExhausted?
  {
    var over := TooLong(Lengths(lanes), slots, seqLen, window);
    if over > 0 then ContextLengthExceeded(over, window)
    else
      var free := if Used(lanes, blockSize) <= totalBlocks then totalBlocks - Used(lanes, blockSize) else 0;
      KvPoolExhausted(Shortfall(Lengths(lanes), blockSize, slots, seqLen, free))
  }

  class LlamaDecoder {
    const cache: PagedKvCache
    const model: Model
    /** What each lane has read since it was last released. */
    ghost var lanes: seq<seq<Token>>

    ghost function Repr(): set<object> {
      {this, cache, cache.pool, cache.store}
    }

    ghost predicate Valid()
      reads Repr()
    {
      && cache.Valid()
      && |lanes| == |cache.pool.lens|
      && Holds(cache.lanes, model, lanes)
    }

    ghost function BlockSize(): nat { cache.pool.blockSize }

    ghost function TotalBlocks(): nat { cache.pool.usable }

    constructor (model: Model, maxSeqLen: nat, maxLanes: nat, blockSize: nat, usableBlocks: nat, garbage: Cells)
      requires 1 <= blockSize <= maxSeqLen && usableBlocks >= 1
      requires Shaped(garbage, usableBlocks + 1, blockSize)
      ensures Valid() && fresh(Repr()) && this.model == model && cache.maxSeqLen == maxSeqLen
      ensures BlockSize() == blockSize && lanes == seq(maxLanes, _ => [])
      ensures usableBlocks + 1 < U32 ==> TotalBlocks() == usableBlocks
    {
      cache := new PagedKvCache(maxSeqLen, maxLanes, blockSize, usableBlocks, garbage);
      this.model := model;
      lanes := seq(maxLanes, _ => []);
    }

    /** The ledger's lengths are the lanes' lengths, so block accounting can speak of lanes. */
    lemma LedgerMatchesLanes()
      requires Valid()
      ensures cache.pool.lens == Lengths(lanes)
      ensures |cache.pool.free| + Used(lanes, BlockSize()) == TotalBlocks()
    {
      forall l | 0 <= l < |lanes|
        ensures cache.pool.lens[l] == |lanes[l]|
      {
        assert |cache.lanes[l]| == |Encode(model, lanes[l])|;
      }
      TablesHoldBlocks(cache.pool.tables, cache.pool.lens, BlockSize());
    }

    /** Forward the same number of new tokens for each slot. It goes through exactly when every slot
        stays inside the window and the lanes, so extended, fit the pool. */
    method ForwardLanes(slots: seq<nat>, input: seq<seq<Token>>, seqLen: nat) returns (r: Result<seq<Logits>, InferenceError>)
      requires Valid() && InRange(slots, |lanes|) && Distinct(slots) && slots != [] && seqLen >= 1
      requires |input| == |slots| && forall j :: 0 <= j < |input| ==> |input[j]| == seqLen
      modifies Repr()
      ensures Valid() && |lanes| == |old(lanes)|
      ensures r.Success? <==>
        && (forall j :: 0 <= j < |slots| ==> |old(lanes)[slots[j]]| + seqLen <= cache.maxSeqLen)
        && Used(Pushed(old(lanes), slots, input), BlockSize()) <= TotalBlocks()
      ensures r.Success? ==>
        && lanes == Pushed(old(lanes), slots, input) && |r.value| == |slots|
        && forall j :: 0 <= j < |slots| ==> r.value[j] == model.head(Encode(model, old(lanes)[slots[j]] + input[j]))
      ensures BlockSize() >= 1
      ensures r.Failure? ==> lanes == old(lanes) && r.error == Refusal(lanes, slots, seqLen, cache.maxSeqLen, BlockSize(), TotalBlocks())
    {
      hide LlamaDecoder.Valid, Committed, Describes;
      var planned := PlanRound(slots, input, seqLen);
      if planned.Failure? {
        return Failure(planned.error);
      }
      var plan := planned.value;
      var rows := Compute(plan, input, seqLen);
      Absorb(plan, rows, input, seqLen);
      var logits := ReadHeads(plan, seqLen);
      PushedAt(old(lanes), slots, input);
      r := Success(logits);
    }

    /** Plan the round, turning the planner's errors into the engine's. */
    method PlanRound(slots: seq<nat>, ghost input: seq<seq<Token>>, seqLen: nat) returns (r: Result<LanePlan, InferenceError>)
      requires Valid() && InRange(slots, |lanes|) && Distinct(slots) && slots != [] && seqLen >= 1
      requires |input| == |slots| && forall j :: 0 <= j < |input| ==> |input[j]| == seqLen
      modifies cache`lanes, cache.pool
      ensures r.Success? <==>
        && (forall j :: 0 <= j < |slots| ==> |lanes[slots[j]]| + seqLen <= cache.maxSeqLen)
        && Used(Pushed(lanes, slots, input), BlockSize()) <= TotalBlocks()
      ensures r.Success? ==>
        && r.value.lanes == slots && Committed(r.value, seqLen)
        && Describes(r.value, cache.pool.tables, cache.pool.lens, seqLen, cache.pool.blockSize)
      ensures BlockSize() >= 1
      ensures r.Failure? ==> Valid() && r.error == Refusal(lanes, slots, seqLen, cache.maxSeqLen, BlockSize(), TotalBlocks())
    {
      hide Describes, AllRows, AllCovered, RoundNeed, Shortfall, Used, Pushed, TooLong;
      RoundFits(slots, input, seqLen);
      LedgerMatchesLanes();
      var planned := cache.PrepareLanes(slots, seqLen);
      r := match planned
        case Success(plan) => Success(plan)
        case Failure(MaxSequenceLengthExceeded(actual, max)) => Failure(ContextLengthExceeded(actual, max))
        case Failure(OutOfBlocks(shortBy)) => Failure(KvPoolExhausted(shortBy));
    }

    /** The planner's test, in terms of lanes. */
    lemma RoundFits(slots: seq<nat>, input: seq<seq<Token>>, seqLen: nat)
      requires Valid() && InRange(slots, |lanes|) && Distinct(slots)
      requires |input| == |slots| && forall j :: 0 <= j < |input| ==> |input[j]| == seqLen
      ensures cache.pool.lens == Lengths(lanes)
      ensures RoundNeed(cache.pool.lens, BlockSize(), slots, seqLen) <= |cache.pool.free|
         <==> Used(Pushed(lanes, slots, input), BlockSize()) <= TotalBlocks()
    {
      LedgerMatchesLanes();
      NeedIsGrowth(cache.pool.lens, BlockSize(), slots, seqLen);
      PushedLengths(lanes, slots, input, seqLen);
    }

    /** A round is planned and committed but not yet written. */
    ghost predicate Committed(plan: LanePlan, seqLen: nat)
      reads Repr()
    {
      && cache.Valid() && |lanes| == |cache.pool.lens|
      && Describes(plan, cache.pool.tables, cache.pool.lens, seqLen, cache.pool.blockSize)
      && (forall j :: 0 <= j < |plan.lanes| ==> plan.starts[j] == |lanes[plan.lanes[j]]|)
      && (forall l :: 0 <= l < |lanes| ==> Encode(model, lanes[l]) <= cache.lanes[l])
      && (forall l :: 0 <= l < |lanes| && l !in plan.lanes ==> |lanes[l]| == |cache.lanes[l]|)
    }

    /** Write the round's rows; every lane then holds its extended token prefix. */
    method Absorb(plan: LanePlan, rows: seq<seq<Row>>, input: seq<seq<Token>>, seqLen: nat)
      requires Committed(plan, seqLen)
      requires |rows| == |plan.lanes| == |input| && forall j :: 0 <= j < |rows| ==> |rows[j]| == seqLen
      requires forall j :: 0 <= j < |rows| ==>
        Encode(model, lanes[plan.lanes[j]]) + rows[j] == Encode(model, lanes[plan.lanes[j]] + input[j])
      modifies this`lanes, cache`lanes, cache.store
      ensures Valid() && lanes == Pushed(old(lanes), plan.lanes, input)
    {
      cache.Write(plan, rows, seqLen);
      lanes := Pushed(lanes, plan.lanes, input);
      RoundAbsorbed(old(cache.lanes), cache.lanes, model, old(lanes), plan, rows, input);
    }

    /** New rows, lane by lane, from the history read back through the plan. */
    method Compute(plan: LanePlan, input: seq<seq<Token>>, seqLen: nat) returns (rows: seq<seq<Row>>)
      requires Committed(plan, seqLen)
      requires |input| == |plan.lanes| && forall j :: 0 <= j < |input| ==> |input[j]| == seqLen
      ensures |rows| == |input| && forall j :: 0 <= j < |rows| ==> |rows[j]| == seqLen
      ensures forall j :: 0 <= j < |rows| ==>
        Encode(model, lanes[plan.lanes[j]]) + rows[j] == Encode(model, lanes[plan.lanes[j]] + input[j])
    {
      hide Committed, PagedKvCache.Valid, Describes, Encode, PagedKvCache.Gather;
      HistoryOf(plan, seqLen);
      rows := [];
      var ragged := cache.Gather(plan, seqLen);
      for j := 0 to |plan.lanes|
        invariant |rows| == j && forall i :: 0 <= i < j ==> |rows[i]| == seqLen
        invariant forall i :: 0 <= i < j ==>
          Encode(model, lanes[plan.lanes[i]]) + rows[i] == Encode(model, lanes[plan.lanes[i]] + input[i])
      {
        var history := ragged[j][..plan.starts[j]];
        var appended := Extend(history, input[j], lanes[plan.lanes[j]]);
        rows := rows + [appended];
      }
    }

    /** Each lane's history is what its columns of the gathered scratch hold before its start. */
    lemma HistoryOf(plan: LanePlan, seqLen: nat)
      requires Committed(plan, seqLen)
      ensures cache.Valid() && Describes(plan, cache.pool.tables, cache.pool.lens, seqLen, cache.pool.blockSize)
      ensures |plan.starts| == |plan.lanes| == |cache.Gather(plan, seqLen)|
      ensures forall j :: 0 <= j < |plan.lanes| ==>
        && plan.lanes[j] < |lanes| && plan.starts[j] <= |cache.Gather(plan, seqLen)[j]|
        && cache.Gather(plan, seqLen)[j][..plan.starts[j]] == Encode(model, lanes[plan.lanes[j]])
    {
      hide PagedKvCache.Gather;
      forall j | 0 <= j < |plan.lanes|
        ensures plan.lanes[j] < |lanes| && plan.starts[j] <= |cache.Gather(plan, seqLen)[j]|
        ensures cache.Gather(plan, seqLen)[j][..plan.starts[j]] == Encode(model, lanes[plan.lanes[j]])
      {
        cache.GatherReadsLane(plan, seqLen, j);
        assert cache.Gather(plan, seqLen)[j][..plan.starts[j]] == cache.lanes[plan.lanes[j]][..plan.starts[j]];
      }
    }

    method Extend(history: seq<Row>, tokens: seq<Token>, ghost before: seq<Token>) returns (rows: seq<Row>)
      requires history == Encode(model, before)
      ensures |rows| == |tokens| && history + rows == Encode(model, before + tokens)
    {
      rows := [];
      assert before + tokens[..0] == before;
      for k := 0 to |tokens|
        invariant |rows| == k && history + rows == Encode(model, before + tokens[..k])
      {
        EncodeAppend(model, before, tokens, k);
        rows := rows + [model.row(history + rows, tokens[k])];
      }
      assert tokens[..|tokens|] == tokens;
    }

    /** Logits of each lane's last position, from the neutralized scratch. */
    method ReadHeads(plan: LanePlan, seqLen: nat) returns (logits: seq<Logits>)
      requires Valid() && Describes(plan, cache.pool.tables, cache.pool.lens, seqLen, cache.pool.blockSize)
      ensures |logits| == |plan.lanes|
      ensures forall j :: 0 <= j < |logits| ==> logits[j] == model.head(Encode(model, lanes[plan.lanes[j]]))
    {
      logits := [];
      var ragged := cache.Gather(plan, seqLen);
      cache.NeutralizedIsLaneThenZeros(plan, seqLen, 0);
      var scratch := Neutralized(ragged, plan.mask, seqLen, plan.lMax);
      for j := 0 to |plan.lanes|
        invariant |logits| == j
        invariant forall i :: 0 <= i < j ==> logits[i] == model.head(Encode(model, lanes[plan.lanes[i]]))
      {
        cache.NeutralizedIsLaneThenZeros(plan, seqLen, j);
        assert scratch[j][..plan.lengths[j]] == cache.lanes[plan.lanes[j]];
        logits := logits + [model.head(scratch[j][..plan.lengths[j]])];
      }
    }

    /** The lane a prefill extends: a prompt starting at 0 always starts from an empty lane. */
    ghost function Base(slot: nat, position: nat): seq<Token>
      requires slot < |lanes|
      reads this
    {
      if position == 0 then [] else lanes[slot]
    }

    /** Run a slice of a prompt into one slot. */
    method Prefill(slot: nat, tokens: seq<Token>, position: nat) returns (r: Result<seq<Logits>, InferenceError>)
      requires Valid() && slot < |lanes| && tokens != []
      requires position != 0 ==> position == |lanes[slot]|
      modifies Repr()
      ensures Valid()
      ensures r.Success? <==>
        && position + |tokens| <= cache.maxSeqLen
        && Used(old(lanes)[slot := old(Base(slot, position)) + tokens], BlockSize()) <= TotalBlocks()
      ensures r.Success? ==>
        && lanes == old(lanes)[slot := old(Base(slot, position)) + tokens]
        && r.value == [model.head(Encode(model, old(Base(slot, position)) + tokens))]
      ensures r.Failure? ==>
        && lanes == old(lanes)[slot := old(Base(slot, position))]
        && BlockSize() >= 1 && r.error == Refusal(lanes, [slot], |tokens|, cache.maxSeqLen, BlockSize(), TotalBlocks())
    {
      if position == 0 {
        Release(slot);
      }
      PushedOne(old(lanes), lanes, slot, tokens);
      r := ForwardLanes([slot], [tokens], |tokens|);
    }

    /** Advance every row's lane by one token in one fused forward. */
    method Decode(rows: seq<DecodeRow>) returns (r: Result<seq<Logits>, InferenceError>)
      requires Valid() && rows != [] && InRange(SlotsOf(rows), |lanes|) && Distinct(SlotsOf(rows))
      modifies Repr()
      ensures Valid() && |lanes| == |old(lanes)|
      ensures r.Success? <==>
        && (forall j :: 0 <= j < |rows| ==> |old(lanes)[SlotsOf(rows)[j]]| + 1 <= cache.maxSeqLen)
        && Used(Pushed(old(lanes), SlotsOf(rows), InputOf(rows)), BlockSize()) <= TotalBlocks()
      ensures r.Success? ==>
        && lanes == Pushed(old(lanes), SlotsOf(rows), InputOf(rows)) && |r.value| == |rows|
        && forall j :: 0 <= j < |rows| ==>
             r.value[j] == model.head(Encode(model, old(lanes)[SlotsOf(rows)[j]] + [rows[j].token]))
      ensures r.Failure? ==>
        && lanes == old(lanes) && BlockSize() >= 1
        && r.error == Refusal(lanes, SlotsOf(rows), 1, cache.maxSeqLen, BlockSize(), TotalBlocks())
    {
      var slots, input := SlotsOf(rows), InputOf(rows);
      r := ForwardLanes(slots, input, 1);
    }

    /** Free the slot; a slot past the lanes, or already free, is left alone. */
    method Release(slot: nat)
      requires Valid()
      modifies Repr()
      ensures Valid()
      ensures lanes == if slot < |old(lanes)| then old(lanes)[slot := []] else old(lanes)
    {
      cache.ResetLane(slot);
      if slot < |lanes| {
        lanes := lanes[slot := []];
      }
    }

    /** Drop everything, as a freshly loaded model does. */
    method Reset()
      requires Valid()
      modifies Repr()
      ensures Valid() && lanes == seq(|old(lanes)|, _ => [])
    {
      cache.Reset();
      lanes := seq(|lanes|, _ => []);
    }
  }

  function SlotsOf(rows: seq<DecodeRow>): (r: seq<nat>)
    ensures |r| == |rows|
  {
    seq(|rows|, j requires 0 <= j < |rows| => rows[j].slot)
  }

  function InputOf(rows: seq<DecodeRow>): (r: seq<seq<Token>>)
    ensures |r| == |rows| && forall j :: 0 <= j < |r| ==> r[j] == [rows[j].token]
  {
    seq(|rows|, j requires 0 <= j < |rows| => [rows[j].token])
  }
}
