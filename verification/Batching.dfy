/** The shared decode core: one round turns a batch of in-flight sequences into at most one new token
    each. `StepRound` owns no queue and no streaming; it advances sequences and reports outcomes. */
module Batching {
  import opened Arithmetic
  import opened Wrappers
  import opened Pools
  import opened Decoders
  import opened Errors

  datatype KvBudget = KvBudget(blockSize: nat, totalBlocks: nat)

  /** One in-flight sequence: the generic core, and whatever its driver rides along in `extra`. */
  datatype ActiveSeq<X> = ActiveSeq(
    slot: nat,
    tokens: seq<Token>,
    processed: nat,
    generated: nat,
    maxGen: nat,
    finished: bool,
    kvReservation: nat,
    paused: bool,
    extra: X)

  datatype StepOutcome =
    | Skipped
    | Stepped(token: Token, isStop: bool, finished: bool)
    | Prefilling
    | Failed(error: InferenceError)

  /** The active set, borrowed mutably by a round. */
  class ActiveSet<X> {
    var seqs: seq<ActiveSeq<X>>

    constructor ()
      ensures seqs == []
    {
      seqs := [];
    }
  }

  // ---- The round's prefill allowance ----

  ghost predicate IsDecoding<X>(s: ActiveSeq<X>) {
    !s.finished && s.generated < s.maxGen && s.processed > 0 && |s.tokens| == s.processed + 1
  }

  /** What a prompt wanting `wanted` tokens gets from what is left. */
  function Share(remaining: Option<nat>, wanted: nat): nat {
    match remaining
    case None => wanted
    case Some(left) => Min(wanted, left)
  }

  function Spend(remaining: Option<nat>, wanted: nat): Option<nat> {
    match remaining
    case None => None
    case Some(left) => Some(left - Min(wanted, left))
  }

  class PrefillBudget {
    var remaining: Option<nat>

    /** Bounded only while something decodes and the operator set an allowance. */
    constructor ForRound<X>(seqs: seq<ActiveSeq<X>>, tokenBudget: nat)
      ensures remaining == if tokenBudget > 0 && (exists i :: 0 <= i < |seqs| && IsDecoding(seqs[i])) then Some(tokenBudget) else None
    {
      var anyDecoding := false;
      for i := 0 to |seqs|
        invariant anyDecoding <==> exists k :: 0 <= k < i && IsDecoding(seqs[k])
      {
        var s := seqs[i];
        anyDecoding := anyDecoding || (!s.finished && s.generated < s.maxGen && s.processed > 0 && |s.tokens| == s.processed + 1);
        assert anyDecoding ==> exists k :: 0 <= k < i + 1 && IsDecoding(seqs[k]) by {
          if IsDecoding(seqs[i]) {
            assert 0 <= i < i + 1;
          }
        }
      }
      remaining := if anyDecoding && tokenBudget > 0 then Some(tokenBudget) else None;
    }

    /** Claim up to `wanted` tokens; `None` when the round is already full. */
    method AdmitPrefill(wanted: nat) returns (granted: Option<nat>)
      modifies this
      ensures remaining == Spend(old(remaining), wanted)
      ensures granted == if old(remaining) == Some(0) then None else Some(Share(old(remaining), wanted))
    {
      match remaining {
        case None => granted := Some(wanted);
        case Some(left) =>
          if left == 0 {
            granted := None;
          } else {
            granted := Some(Min(wanted, left));
            remaining := Some(left - Min(wanted, left));
          }
      }
    }
  }

  // ---- What one round does to one sequence ----

  datatype Kind = Idle | NoOp | TooLong | Prompt | Row

  function KindOf<X>(s: ActiveSeq<X>, ctx: nat): Kind {
    if s.finished || s.paused then Idle
    else if s.generated >= s.maxGen || s.processed >= |s.tokens| then NoOp
    else if |s.tokens| > ctx then TooLong
    else if |s.tokens| - s.processed > 1 then Prompt
    else Row
  }

  function Wanted<X>(s: ActiveSeq<X>, chunk: nat): nat
    requires s.processed <= |s.tokens|
  {
    if chunk == 0 then |s.tokens| - s.processed else Min(chunk, |s.tokens| - s.processed)
  }

  /** A sampled token: everything so far is processed, the token joins, stop and cap are checked. */
  function Advance<X>(s: ActiveSeq<X>, token: Token, stops: seq<Token>): (ActiveSeq<X>, StepOutcome) {
    var finished := token in stops || s.generated + 1 >= s.maxGen;
    (s.(processed := |s.tokens|, tokens := s.tokens + [token], generated := s.generated + 1, finished := s.finished || finished),
     Stepped(token, token in stops, s.finished || finished))
  }

  function Finish<X>(s: ActiveSeq<X>): ActiveSeq<X> {
    s.(finished := true)
  }

  /** The greedy next token of a prefix: what the network and the sampler make of it. */
  function Next(model: Model, sample: Logits -> Token, tokens: seq<Token>): Token {
    sample(model.head(Encode(model, tokens)))
  }

  /** The round's effect on a sequence that no planner error touches, given its share of the prefill
      allowance. It mentions no other sequence: that is what makes batching invisible. */
  function Alone<X>(s: ActiveSeq<X>, share: nat, ctx: nat, stops: seq<Token>, model: Model, sample: Logits -> Token): (ActiveSeq<X>, StepOutcome)
  {
    match KindOf(s, ctx)
    case Idle => (s, Skipped)
    case NoOp => (Finish(s), Skipped)
    case TooLong => (Finish(s), Failed(ContextLengthExceeded(|s.tokens|, ctx)))
    case Prompt =>
      if share == 0 then (s, Skipped)
      else if s.processed + share < |s.tokens| then (s.(processed := s.processed + share), Prefilling)
      else Advance(s, Next(model, sample, s.tokens), stops)
    case Row => Advance(s, Next(model, sample, s.tokens), stops)
  }

  /** A planner error retires the sequence where it stands. */
  ghost predicate PlannerFailed<X>(s: ActiveSeq<X>, s': ActiveSeq<X>, outcome: StepOutcome, ctx: nat) {
    && (KindOf(s, ctx) == Prompt || KindOf(s, ctx) == Row)
    && s' == Finish(s) && outcome.Failed?
    && (outcome.error.ContextLengthExceeded? || outcome.error.KvPoolExhausted?)
  }

  /** What is left of the allowance when the round reaches sequence `i`. */
  function BudgetAt<X>(seqs: seq<ActiveSeq<X>>, ctx: nat, chunk: nat, budget: Option<nat>, i: nat): Option<nat>
    requires i <= |seqs| && InBounds(seqs)
  {
    if i == 0 then budget
    else
      var before := BudgetAt(seqs, ctx, chunk, budget, i - 1);
      if KindOf(seqs[i - 1], ctx) == Prompt then Spend(before, Wanted(seqs[i - 1], chunk)) else before
  }

  predicate InBounds<X>(seqs: seq<ActiveSeq<X>>) {
    forall i :: 0 <= i < |seqs| ==> seqs[i].processed <= |seqs[i].tokens|
  }

  /** Prompt tokens sequence `i` prefills this round. */
  function ShareOf<X>(seqs: seq<ActiveSeq<X>>, ctx: nat, chunk: nat, budget: Option<nat>, i: nat): nat
    requires i < |seqs| && InBounds(seqs)
  {
    if KindOf(seqs[i], ctx) == Prompt then Share(BudgetAt(seqs, ctx, chunk, budget, i), Wanted(seqs[i], chunk)) else 0
  }

  // ---- The decoder contract the driver keeps ----

  function Slots<X>(seqs: seq<ActiveSeq<X>>): (r: seq<nat>)
    ensures |r| == |seqs|
  {
    seq(|seqs|, i requires 0 <= i < |seqs| => seqs[i].slot)
  }

  /** Every sequence's lane holds exactly its processed prefix, and slots are distinct lanes. */
  ghost predicate InLockstep<X>(seqs: seq<ActiveSeq<X>>, lanes: seq<seq<Token>>) {
    && InBounds(seqs)
    && Distinct(Slots(seqs)) && InRange(Slots(seqs), |lanes|)
    && forall i :: 0 <= i < |seqs| ==> lanes[Slots(seqs)[i]] == seqs[i].tokens[..seqs[i].processed]
  }

  function Reservations<X>(seqs: seq<ActiveSeq<X>>): nat {
    if seqs == [] then 0 else Reservations(seqs[..|seqs| - 1]) + seqs[|seqs| - 1].kvReservation
  }

  /** Admission's promise: reservations fit the pool, every lane is inside its reservation, every
      sequence about to run stays inside it after the round, and nobody else holds blocks. */
  ghost predicate Promised<X>(seqs: seq<ActiveSeq<X>>, lanes: seq<seq<Token>>, blockSize: nat, totalBlocks: nat, ctx: nat)
    requires blockSize >= 1
  {
    && Reservations(seqs) <= totalBlocks
    && (forall i :: 0 <= i < |seqs| ==> CeilDiv(seqs[i].processed, blockSize) <= seqs[i].kvReservation)
    && (forall i :: 0 <= i < |seqs| && !seqs[i].finished && !seqs[i].paused && |seqs[i].tokens| <= ctx ==>
          CeilDiv(|seqs[i].tokens|, blockSize) <= seqs[i].kvReservation)
    && (forall l :: 0 <= l < |lanes| && l !in Slots(seqs) ==> lanes[l] == [])
  }

  /** Lanes inside their sequences' reservations, other lanes empty. */
  ghost predicate Within<X>(seqs: seq<ActiveSeq<X>>, lanes: seq<seq<Token>>, blockSize: nat)
    requires blockSize >= 1 && InRange(Slots(seqs), |lanes|)
  {
    && (forall i :: 0 <= i < |seqs| ==> CeilDiv(|lanes[Slots(seqs)[i]]|, blockSize) <= seqs[i].kvReservation)
    && (forall l :: 0 <= l < |lanes| && l !in Slots(seqs) ==> lanes[l] == [])
  }

  lemma {:induction false} EmptyLanesUseNothing(lanes: seq<seq<Token>>, blockSize: nat)
    requires blockSize >= 1 && forall l :: 0 <= l < |lanes| ==> lanes[l] == []
    ensures Used(lanes, blockSize) == 0
  {
    if lanes != [] {
      var last := |lanes| - 1;
      EmptyLanesUseNothing(lanes[..last], blockSize);
      assert Lengths(lanes)[..last] == Lengths(lanes[..last]);
    }
  }

  /** Physical use is at most what is reserved, whatever the slot order. */
  lemma {:induction false} UseIsReserved<X>(seqs: seq<ActiveSeq<X>>, lanes: seq<seq<Token>>, blockSize: nat)
    requires blockSize >= 1 && Distinct(Slots(seqs)) && InRange(Slots(seqs), |lanes|) && Within(seqs, lanes, blockSize)
    ensures Used(lanes, blockSize) <= Reservations(seqs)
  {
    if seqs == [] {
      EmptyLanesUseNothing(lanes, blockSize);
    } else {
      hide CeilDiv, Used, Lengths;
      var last := |seqs| - 1;
      var rest, slot := seqs[..last], seqs[last].slot;
      assert Slots(seqs) == Slots(rest) + [slot];
      assert slot == Slots(seqs)[last];
      var without := lanes[slot := []];
      assert slot !in Slots(rest);
      assert Within(rest, without, blockSize) by {
        forall i | 0 <= i < |rest|
          ensures CeilDiv(|without[Slots(rest)[i]]|, blockSize) <= rest[i].kvReservation
        {
          assert Slots(seqs)[i] == Slots(rest)[i];
        }
      }
      UseIsReserved(rest, without, blockSize);
      assert Lengths(without) == Lengths(lanes)[slot := 0];
      BlocksUpdate(Lengths(lanes), blockSize, slot, 0);
    }
  }

  // ---- The round ----

  /** The positions below `n` of one kind, ascending. */
  function IndicesOf<X>(seqs: seq<ActiveSeq<X>>, ctx: nat, kind: Kind, n: nat): seq<nat>
    requires n <= |seqs|
  {
    if n == 0 then []
    else IndicesOf(seqs, ctx, kind, n - 1) + (if KindOf(seqs[n - 1], ctx) == kind then [n - 1] else [])
  }

  lemma {:induction false} IndicesFacts<X>(seqs: seq<ActiveSeq<X>>, ctx: nat, kind: Kind, n: nat)
    requires n <= |seqs|
    ensures var ids := IndicesOf(seqs, ctx, kind, n);
      && (forall k :: 0 <= k < |ids| ==> ids[k] < n && KindOf(seqs[ids[k]], ctx) == kind)
      && (forall k, k' :: 0 <= k < k' < |ids| ==> ids[k] < ids[k'])
      && (forall i :: 0 <= i < n && KindOf(seqs[i], ctx) == kind ==> i in ids)
  {
    if n > 0 {
      IndicesFacts(seqs, ctx, kind, n - 1);
    }
  }

  /** What the caller is told about one sequence. With the promise kept the round does to it exactly
      what it would do to it alone; without the promise the planner may have retired it. */
  ghost predicate Settled<X>(s: ActiveSeq<X>, s': ActiveSeq<X>, outcome: StepOutcome, share: nat, ctx: nat, stops: seq<Token>, model: Model, sample: Logits -> Token, promised: bool) {
    (s', outcome) == Alone(s, share, ctx, stops, model, sample) || (!promised && PlannerFailed(s, s', outcome, ctx))
  }

  /** A sequence the round has not reached. */
  ghost predicate Untouched<X>(s: ActiveSeq<X>, s': ActiveSeq<X>, outcome: StepOutcome) {
    s' == s && outcome == Skipped
  }

  /** The parameters of a round that never change within it. */
  datatype Round<!X> = Round(
    seqs: seq<ActiveSeq<X>>, lanes: seq<seq<Token>>, ctx: nat, chunk: nat, budget: Option<nat>, stops: seq<Token>,
    model: Model, sample: Logits -> Token, blockSize: nat, totalBlocks: nat, promised: bool)

  /** Midway: prompts before position `p` are settled, rows only once `rowsDone`. */
  ghost predicate Midway<X>(r: Round<X>, seqs: seq<ActiveSeq<X>>, outcomes: seq<StepOutcome>, lanes: seq<seq<Token>>, p: nat, rowsDone: bool)
  {
    && r.blockSize >= 1 && InBounds(r.seqs) && |seqs| == |outcomes| == |r.seqs|
    && InLockstep(seqs, lanes)
    && (forall i :: 0 <= i < |seqs| ==> seqs[i].slot == r.seqs[i].slot && seqs[i].kvReservation == r.seqs[i].kvReservation)
    && (forall i :: 0 <= i < |seqs| ==>
          if Pending(r, i, p, rowsDone) then Untouched(r.seqs[i], seqs[i], outcomes[i])
          else Settled(r.seqs[i], seqs[i], outcomes[i], ShareOf(r.seqs, r.ctx, r.chunk, r.budget, i), r.ctx, r.stops, r.model, r.sample, r.promised))
    && (r.promised ==> Within(seqs, lanes, r.blockSize))
    && |lanes| == |r.lanes| && forall l :: 0 <= l < |lanes| && l !in Slots(r.seqs) ==> lanes[l] == r.lanes[l]
  }

  ghost predicate Pending<X>(r: Round<X>, i: nat, p: nat, rowsDone: bool)
    requires i < |r.seqs|
  {
    match KindOf(r.seqs[i], r.ctx)
    case Prompt => i >= p
    case Row => !rowsDone
    case _ => false
  }

  /** Prefill one prompt slice, sampling only when it completes the prompt. */
  method PrefillOne<X>(decoder: LlamaDecoder, s: ActiveSeq<X>, granted: nat, stops: seq<Token>, sample: Logits -> Token)
    returns (s': ActiveSeq<X>, outcome: StepOutcome)
    requires decoder.Valid() && s.slot < |decoder.lanes|
    requires KindOf(s, decoder.cache.maxSeqLen) == Prompt && 1 <= granted <= |s.tokens| - s.processed
    requires decoder.lanes[s.slot] == s.tokens[..s.processed]
    modifies decoder.Repr()
    ensures decoder.Valid()
    ensures s'.slot == s.slot && s'.kvReservation == s.kvReservation && s'.processed <= |s'.tokens|
    ensures decoder.lanes == old(decoder.lanes)[s.slot := s'.tokens[..s'.processed]]
    ensures var filled := old(decoder.lanes)[s.slot := s.tokens[..s.processed + granted]];
      var fits := Used(filled, decoder.BlockSize()) <= decoder.TotalBlocks();
      && (fits ==> decoder.lanes == filled)
      && (!fits ==> decoder.lanes == old(decoder.lanes))
      && Settled(s, s', outcome, granted, decoder.cache.maxSeqLen, stops, decoder.model, sample, fits)
  {
    hide LlamaDecoder.Valid;
    var chunkEnd := s.processed + granted;
    assert s.tokens[..chunkEnd] == s.tokens[..s.processed] + s.tokens[s.processed..chunkEnd];
    assert s.tokens[..|s.tokens|] == s.tokens;
    var logits := decoder.Prefill(s.slot, s.tokens[s.processed..chunkEnd], s.processed);
    if logits.Failure? {
      assert decoder.lanes == old(decoder.lanes);
      return Finish(s), Failed(logits.error);
    }
    if chunkEnd < |s.tokens| {
      return s.(processed := chunkEnd), Prefilling;
    }
    s', outcome := Advance(s, sample(logits.value[0]), stops).0, Advance(s, sample(logits.value[0]), stops).1;
    assert s'.tokens[..s'.processed] == s.tokens;
  }

  /** What the promise means for the sequences that will run this round. */
  ghost predicate Kept<X>(r: Round<X>) {
    && r.blockSize >= 1 && InBounds(r.seqs)
    && (r.promised ==>
          && Reservations(r.seqs) <= r.totalBlocks
          && forall i :: 0 <= i < |r.seqs| && (KindOf(r.seqs[i], r.ctx) == Prompt || KindOf(r.seqs[i], r.ctx) == Row) ==>
               CeilDiv(|r.seqs[i].tokens|, r.blockSize) <= r.seqs[i].kvReservation)
  }

  /** The round is over this decoder, with these settings. */
  ghost predicate Drives<X>(r: Round<X>, decoder: LlamaDecoder, stops: seq<Token>, chunk: nat, sample: Logits -> Token) {
    && r.ctx == decoder.cache.maxSeqLen && r.model == decoder.model
    && r.blockSize == decoder.BlockSize() && r.totalBlocks == decoder.TotalBlocks()
    && r.stops == stops && r.chunk == chunk && r.sample == sample
  }

  lemma {:induction false} SameReservations<X>(a: seq<ActiveSeq<X>>, b: seq<ActiveSeq<X>>)
    requires |a| == |b| && forall i :: 0 <= i < |a| ==> a[i].kvReservation == b[i].kvReservation
    ensures Reservations(a) == Reservations(b)
  {
    if a != [] {
      SameReservations(a[..|a| - 1], b[..|b| - 1]);
    }
  }

  /** Lanes inside the reservations fit the pool. */
  lemma WithinFits<X>(r: Round<X>, seqs: seq<ActiveSeq<X>>, lanes: seq<seq<Token>>)
    requires Kept(r) && r.promised && |seqs| == |r.seqs|
    requires forall i :: 0 <= i < |seqs| ==> seqs[i].kvReservation == r.seqs[i].kvReservation
    requires Distinct(Slots(seqs)) && InRange(Slots(seqs), |lanes|) && Within(seqs, lanes, r.blockSize)
    ensures Used(lanes, r.blockSize) <= r.totalBlocks
  {
    UseIsReserved(seqs, lanes, r.blockSize);
    SameReservations(seqs, r.seqs);
  }

  /** A lane cut to a prefix of its own tokens stays inside its reservation. */
  lemma PrefixWithin<X>(r: Round<X>, seqs: seq<ActiveSeq<X>>, lanes: seq<seq<Token>>, i: nat, len: nat)
    requires Kept(r) && r.promised && |seqs| == |r.seqs| && i < |seqs|
    requires forall k :: 0 <= k < |seqs| ==> seqs[k].kvReservation == r.seqs[k].kvReservation
    requires KindOf(r.seqs[i], r.ctx) == Prompt || KindOf(r.seqs[i], r.ctx) == Row
    requires len <= |r.seqs[i].tokens|
    requires Distinct(Slots(seqs)) && InRange(Slots(seqs), |lanes|) && Within(seqs, lanes, r.blockSize)
    ensures Within(seqs, lanes[seqs[i].slot := r.seqs[i].tokens[..len]], r.blockSize)
  {
    var slot := Slots(seqs)[i];
    var after := lanes[slot := r.seqs[i].tokens[..len]];
    CeilDivMonotone(len, |r.seqs[i].tokens|, r.blockSize);
    forall k | 0 <= k < |seqs|
      ensures CeilDiv(|after[Slots(seqs)[k]]|, r.blockSize) <= seqs[k].kvReservation
    {
      if k != i {
        assert Slots(seqs)[k] != slot;
      }
    }
  }

  /** Settling prompt `i` moves the round past it. */
  lemma PromptSettled<X>(r: Round<X>, seqs: seq<ActiveSeq<X>>, outcomes: seq<StepOutcome>, lanes: seq<seq<Token>>, i: nat, s': ActiveSeq<X>, outcome: StepOutcome, lanes': seq<seq<Token>>)
    requires i < |r.seqs| && Midway(r, seqs, outcomes, lanes, i, false) && KindOf(r.seqs[i], r.ctx) == Prompt
    requires s'.slot == seqs[i].slot && s'.kvReservation == seqs[i].kvReservation && s'.processed <= |s'.tokens|
    requires lanes' == lanes[s'.slot := s'.tokens[..s'.processed]]
    requires Settled(r.seqs[i], s', outcome, ShareOf(r.seqs, r.ctx, r.chunk, r.budget, i), r.ctx, r.stops, r.model, r.sample, r.promised)
    requires r.promised ==> Within(seqs, lanes', r.blockSize)
    ensures Midway(r, seqs[i := s'], outcomes[i := outcome], lanes', i + 1, false)
  {
    hide Settled, ShareOf;
    var seqs' := seqs[i := s'];
    assert Slots(seqs') == Slots(seqs) == Slots(r.seqs);
    assert Slots(seqs)[i] in Slots(r.seqs);
    forall k | 0 <= k < |seqs'|
      ensures lanes'[Slots(seqs')[k]] == seqs'[k].tokens[..seqs'[k].processed]
    {
      if k != i {
        assert Slots(seqs)[k] != Slots(seqs)[i];
      }
    }
  }

  /** Nothing is pending between two consecutive prompts. */
  lemma {:induction false} SkipToPrompt<X>(r: Round<X>, seqs: seq<ActiveSeq<X>>, outcomes: seq<StepOutcome>, lanes: seq<seq<Token>>, p: nat, p': nat)
    requires p <= p' <= |r.seqs| && Midway(r, seqs, outcomes, lanes, p, false)
    requires forall i :: p <= i < p' ==> KindOf(r.seqs[i], r.ctx) != Prompt
    ensures Midway(r, seqs, outcomes, lanes, p', false)
    ensures BudgetAt(r.seqs, r.ctx, r.chunk, r.budget, p') == BudgetAt(r.seqs, r.ctx, r.chunk, r.budget, p)
  {
    hide Settled, Untouched, InLockstep, Within;
    if p < p' {
      SkipToPrompt(r, seqs, outcomes, lanes, p, p' - 1);
    }
  }

  /** The prefill pass: prompts in admission order share the round's allowance. */
  method PrefillPass<X>(decoder: LlamaDecoder, active: ActiveSet<X>, prefills: seq<nat>, outcomes0: seq<StepOutcome>, stops: seq<Token>, budget: PrefillBudget, chunk: nat, sample: Logits -> Token, ghost r: Round<X>)
    returns (outcomes: seq<StepOutcome>)
    requires decoder.Valid() && Kept(r) && Drives(r, decoder, stops, chunk, sample) && budget.remaining == r.budget
    requires prefills == IndicesOf(r.seqs, r.ctx, Prompt, |r.seqs|)
    requires Midway(r, active.seqs, outcomes0, decoder.lanes, 0, false)
    modifies decoder.Repr(), active, budget
    ensures decoder.Valid()
    ensures Midway(r, active.seqs, outcomes, decoder.lanes, |r.seqs|, false)
  {
    hide LlamaDecoder.Valid, Midway;
    outcomes := outcomes0;
    ghost var p := 0;
    IndicesFacts(r.seqs, r.ctx, Prompt, |r.seqs|);
    for k := 0 to |prefills|
      invariant decoder.Valid() && p <= |r.seqs|
      invariant p == if k == 0 then 0 else prefills[k - 1] + 1
      invariant Midway(r, active.seqs, outcomes, decoder.lanes, p, false)
      invariant budget.remaining == BudgetAt(r.seqs, r.ctx, r.chunk, r.budget, p)
    {
      var i := prefills[k];
      NoPromptBetween(r, prefills, k, p);
      SkipToPrompt(r, active.seqs, outcomes, decoder.lanes, p, i);
      outcomes := PrefillNext(decoder, active, i, outcomes, stops, budget, chunk, sample, r);
      p := i + 1;
    }
    NoPromptBetween(r, prefills, |prefills|, p);
    SkipToPrompt(r, active.seqs, outcomes, decoder.lanes, p, |r.seqs|);
  }

  lemma NoPromptBetween<X>(r: Round<X>, prefills: seq<nat>, k: nat, p: nat)
    requires prefills == IndicesOf(r.seqs, r.ctx, Prompt, |r.seqs|) && k <= |prefills|
    requires p == if k == 0 then 0 else prefills[k - 1] + 1
    ensures var next := if k < |prefills| then prefills[k] else |r.seqs|;
      p <= next <= |r.seqs| && forall i :: p <= i < next ==> KindOf(r.seqs[i], r.ctx) != Prompt
  {
    IndicesFacts(r.seqs, r.ctx, Prompt, |r.seqs|);
  }

  /** One turn of the prefill pass. */
  method PrefillNext<X>(decoder: LlamaDecoder, active: ActiveSet<X>, i: nat, outcomes0: seq<StepOutcome>, stops: seq<Token>, budget: PrefillBudget, chunk: nat, sample: Logits -> Token, ghost r: Round<X>)
    returns (outcomes: seq<StepOutcome>)
    requires decoder.Valid() && Kept(r) && Drives(r, decoder, stops, chunk, sample)
    requires i < |r.seqs| && KindOf(r.seqs[i], r.ctx) == Prompt
    requires Midway(r, active.seqs, outcomes0, decoder.lanes, i, false)
    requires budget.remaining == BudgetAt(r.seqs, r.ctx, r.chunk, r.budget, i)
    modifies decoder.Repr(), active, budget
    ensures decoder.Valid()
    ensures Midway(r, active.seqs, outcomes, decoder.lanes, i + 1, false)
    ensures budget.remaining == BudgetAt(r.seqs, r.ctx, r.chunk, r.budget, i + 1)
  {
    hide LlamaDecoder.Valid, Midway, Settled, Within, InLockstep, Used, Kept, Promised, Reservations, CeilDiv, InBounds;
    PendingPrompt(r, active.seqs, outcomes0, decoder.lanes, i);
    var s := active.seqs[i];
    var wanted := if chunk == 0 then |s.tokens| - s.processed else Min(chunk, |s.tokens| - s.processed);
    var granted := budget.AdmitPrefill(wanted);
    if granted == None || granted == Some(0) {
      NothingGranted(r, active.seqs, outcomes0, decoder.lanes, i);
      return outcomes0;
    }
    ghost var lanes0 := decoder.lanes;
    ghost var filled := lanes0[s.slot := s.tokens[..s.processed + granted.value]];
    ghost var fits := Used(filled, decoder.BlockSize()) <= decoder.TotalBlocks();
    if r.promised {
      PrefixWithin(r, active.seqs, lanes0, i, s.processed + granted.value);
      WithinFits(r, active.seqs, filled);
    }
    assert granted.value == ShareOf(r.seqs, r.ctx, r.chunk, r.budget, i);
    var s', outcome := PrefillOne(decoder, s, granted.value, stops, sample);
    SettledWeakens(s, s', outcome, granted.value, r.ctx, stops, r.model, sample, fits, r.promised);
    PromptSettled(r, active.seqs, outcomes0, lanes0, i, s', outcome, decoder.lanes);
    active.seqs := active.seqs[i := s'];
    outcomes := outcomes0[i := outcome];
  }

  /** What the round knows about a prompt it has not reached. */
  lemma PendingPrompt<X>(r: Round<X>, seqs: seq<ActiveSeq<X>>, outcomes: seq<StepOutcome>, lanes: seq<seq<Token>>, i: nat)
    requires i < |r.seqs| && Midway(r, seqs, outcomes, lanes, i, false) && KindOf(r.seqs[i], r.ctx) == Prompt
    ensures |seqs| == |outcomes| == |r.seqs| && seqs[i] == r.seqs[i] && outcomes[i] == Skipped
    ensures forall k :: 0 <= k < |seqs| ==> seqs[k].kvReservation == r.seqs[k].kvReservation
    ensures InBounds(r.seqs) && Distinct(Slots(seqs)) && InRange(Slots(seqs), |lanes|)
    ensures seqs[i].slot < |lanes| && lanes[seqs[i].slot] == seqs[i].tokens[..seqs[i].processed]
    ensures r.blockSize >= 1 && (r.promised ==> Within(seqs, lanes, r.blockSize))
  {
    assert Slots(seqs)[i] == seqs[i].slot;
  }

  lemma SettledWeakens<X>(s: ActiveSeq<X>, s': ActiveSeq<X>, outcome: StepOutcome, share: nat, ctx: nat, stops: seq<Token>, model: Model, sample: Logits -> Token, fits: bool, promised: bool)
    requires Settled(s, s', outcome, share, ctx, stops, model, sample, fits) && (promised ==> fits)
    ensures Settled(s, s', outcome, share, ctx, stops, model, sample, promised)
  {
  }

  /** A prompt the allowance cannot reach stays as it is. */
  lemma NothingGranted<X>(r: Round<X>, seqs: seq<ActiveSeq<X>>, outcomes: seq<StepOutcome>, lanes: seq<seq<Token>>, i: nat)
    requires i < |r.seqs| && Midway(r, seqs, outcomes, lanes, i, false) && KindOf(r.seqs[i], r.ctx) == Prompt
    requires InBounds(r.seqs) && ShareOf(r.seqs, r.ctx, r.chunk, r.budget, i) == 0
    ensures Midway(r, seqs, outcomes, lanes, i + 1, false)
  {
    hide InLockstep, Within;
  }

  // ---- Classification ----

  /** The decode rows of the sequences listed in `ids`. */
  ghost predicate RowsFor<X>(decodeRows: seq<(nat, DecodeRow)>, seqs: seq<ActiveSeq<X>>, ids: seq<nat>) {
    && |decodeRows| == |ids|
    && forall k :: 0 <= k < |ids| ==>
         && ids[k] < |seqs| && seqs[ids[k]].processed < |seqs[ids[k]].tokens|
         && decodeRows[k] == (ids[k], DecodeRow(seqs[ids[k]].slot, seqs[ids[k]].tokens[seqs[ids[k]].processed]))
  }

  /** Classification retires the no-ops and the over-long, and touches nothing else. */
  ghost predicate Classified<X>(s: ActiveSeq<X>, s': ActiveSeq<X>, outcome: StepOutcome, ctx: nat) {
    match KindOf(s, ctx)
    case NoOp => s' == Finish(s) && outcome == Skipped
    case TooLong => s' == Finish(s) && outcome == Failed(ContextLengthExceeded(|s.tokens|, ctx))
    case _ => Untouched(s, s', outcome)
  }

  /** Sequence `i` joins the prompts, the rows, or neither. */
  lemma NextClassified<X>(seqs: seq<ActiveSeq<X>>, ctx: nat, i: nat, decodeRows: seq<(nat, DecodeRow)>)
    requires i < |seqs| && InBounds(seqs) && RowsFor(decodeRows, seqs, IndicesOf(seqs, ctx, Row, i))
    ensures IndicesOf(seqs, ctx, Prompt, i + 1) == IndicesOf(seqs, ctx, Prompt, i) + if KindOf(seqs[i], ctx) == Prompt then [i] else []
    ensures if KindOf(seqs[i], ctx) == Row
      then seqs[i].processed < |seqs[i].tokens|
        && RowsFor(decodeRows + [(i, DecodeRow(seqs[i].slot, seqs[i].tokens[seqs[i].processed]))], seqs, IndicesOf(seqs, ctx, Row, i + 1))
      else RowsFor(decodeRows, seqs, IndicesOf(seqs, ctx, Row, i + 1))
  {
  }

  method Classify<X>(active: ActiveSet<X>, ctx: nat)
    returns (outcomes: seq<StepOutcome>, prefills: seq<nat>, decodeRows: seq<(nat, DecodeRow)>)
    requires InBounds(active.seqs)
    modifies active
    ensures |active.seqs| == |outcomes| == |old(active.seqs)|
    ensures forall i :: 0 <= i < |outcomes| ==> Classified(old(active.seqs)[i], active.seqs[i], outcomes[i], ctx)
    ensures prefills == IndicesOf(old(active.seqs), ctx, Prompt, |old(active.seqs)|)
    ensures RowsFor(decodeRows, old(active.seqs), IndicesOf(old(active.seqs), ctx, Row, |old(active.seqs)|))
  {
    ghost var seqs0 := active.seqs;
    outcomes := seq(|active.seqs|, _ => Skipped);
    prefills, decodeRows := [], [];
    assert IndicesOf(seqs0, ctx, Row, 0) == [];
    hide IndicesOf, RowsFor;
    for i := 0 to |active.seqs|
      invariant |active.seqs| == |outcomes| == |seqs0|
      invariant forall k :: 0 <= k < i ==> Classified(seqs0[k], active.seqs[k], outcomes[k], ctx)
      invariant forall k :: i <= k < |seqs0| ==> Untouched(seqs0[k], active.seqs[k], outcomes[k])
      invariant prefills == IndicesOf(seqs0, ctx, Prompt, i)
      invariant RowsFor(decodeRows, seqs0, IndicesOf(seqs0, ctx, Row, i))
    {
      var s := active.seqs[i];
      assert s == seqs0[i];
      NextClassified(seqs0, ctx, i, decodeRows);
      if s.finished {
        continue;
      }
      if s.paused {
        continue;
      }
      if s.generated >= s.maxGen || s.processed >= |s.tokens| {
        active.seqs := active.seqs[i := Finish(s)];
        continue;
      }
      if |s.tokens| > ctx {
        active.seqs := active.seqs[i := Finish(s)];
        outcomes := outcomes[i := Failed(ContextLengthExceeded(|s.tokens|, ctx))];
        continue;
      }
      if |s.tokens| - s.processed > 1 {
        prefills := prefills + [i];
      } else {
        decodeRows := decodeRows + [(i, DecodeRow(s.slot, s.tokens[s.processed]))];
      }
    }
  }

  lemma ClassifiedIsMidway<X>(r: Round<X>, seqs: seq<ActiveSeq<X>>, outcomes: seq<StepOutcome>)
    requires r.blockSize >= 1 && InLockstep(r.seqs, r.lanes) && |seqs| == |outcomes| == |r.seqs|
    requires forall i :: 0 <= i < |seqs| ==> Classified(r.seqs[i], seqs[i], outcomes[i], r.ctx)
    requires r.promised ==> Within(r.seqs, r.lanes, r.blockSize)
    ensures Midway(r, seqs, outcomes, r.lanes, 0, false)
  {
    assert Slots(seqs) == Slots(r.seqs);
    forall i | 0 <= i < |seqs|
      ensures r.lanes[Slots(seqs)[i]] == seqs[i].tokens[..seqs[i].processed]
    {
      assert Classified(r.seqs[i], seqs[i], outcomes[i], r.ctx);
      assert r.lanes[Slots(r.seqs)[i]] == r.seqs[i].tokens[..r.seqs[i].processed];
    }
  }

  // ---- The fused decode ----

  /** Advance on a sampled token, or retire on the round's error. */
  function AdvanceOrFail<X>(s: ActiveSeq<X>, sampled: Result<Token, InferenceError>, stops: seq<Token>): (ActiveSeq<X>, StepOutcome) {
    match sampled
    case Success(token) => Advance(s, token, stops)
    case Failure(err) => (Finish(s), Failed(err))
  }

  function SampledAt(sampled: Result<seq<Token>, InferenceError>, k: nat): Result<Token, InferenceError>
    requires sampled.Success? ==> k < |sampled.value|
  {
    match sampled
    case Success(ids) => Success(ids[k])
    case Failure(err) => Failure(err)
  }

  /** Fan each row's result back to its sequence, in row order. */
  method FanOut<X>(active: ActiveSet<X>, decodeRows: seq<(nat, DecodeRow)>, sampled: Result<seq<Token>, InferenceError>, outcomes0: seq<StepOutcome>, stops: seq<Token>, ghost ids: seq<nat>)
    returns (outcomes: seq<StepOutcome>)
    requires |outcomes0| == |active.seqs| && |decodeRows| == |ids| && Distinct(ids)
    requires forall k :: 0 <= k < |ids| ==> decodeRows[k].0 == ids[k] < |active.seqs|
    requires sampled.Success? ==> |sampled.value| == |ids|
    modifies active
    ensures |active.seqs| == |outcomes| == |old(active.seqs)|
    ensures forall k :: 0 <= k < |ids| ==>
      (active.seqs[ids[k]], outcomes[ids[k]]) == AdvanceOrFail(old(active.seqs)[ids[k]], SampledAt(sampled, k), stops)
    ensures forall i :: 0 <= i < |outcomes| && i !in ids ==> active.seqs[i] == old(active.seqs)[i] && outcomes[i] == outcomes0[i]
  {
    outcomes := outcomes0;
    for k := 0 to |decodeRows|
      invariant |active.seqs| == |outcomes| == |old(active.seqs)|
      invariant forall j :: 0 <= j < k ==>
        (active.seqs[ids[j]], outcomes[ids[j]]) == AdvanceOrFail(old(active.seqs)[ids[j]], SampledAt(sampled, j), stops)
      invariant forall i :: 0 <= i < |outcomes| && i !in ids[..k] ==> active.seqs[i] == old(active.seqs)[i] && outcomes[i] == outcomes0[i]
    {
      var i := decodeRows[k].0;
      assert ids[k] !in ids[..k] && ids[..k + 1] == ids[..k] + [ids[k]];
      var next := AdvanceOrFail(active.seqs[i], SampledAt(sampled, k), stops);
      active.seqs := active.seqs[i := next.0];
      outcomes := outcomes[i := next.1];
    }
    assert ids[..|decodeRows|] == ids;
  }

  /** What the round knows about its decode rows before the fused call. */
  ghost predicate RowsPending<X>(r: Round<X>, seqs: seq<ActiveSeq<X>>, outcomes: seq<StepOutcome>, lanes: seq<seq<Token>>, decodeRows: seq<(nat, DecodeRow)>) {
    && Kept(r) && Midway(r, seqs, outcomes, lanes, |r.seqs|, false)
    && RowsFor(decodeRows, r.seqs, IndicesOf(r.seqs, r.ctx, Row, |r.seqs|))
  }

  function RowsOnly(decodeRows: seq<(nat, DecodeRow)>): (rows: seq<DecodeRow>)
    ensures |rows| == |decodeRows|
  {
    seq(|decodeRows|, k requires 0 <= k < |decodeRows| => decodeRows[k].1)
  }

  lemma RowFact<X>(r: Round<X>, seqs: seq<ActiveSeq<X>>, outcomes: seq<StepOutcome>, lanes: seq<seq<Token>>, decodeRows: seq<(nat, DecodeRow)>, k: nat)
    requires RowsPending(r, seqs, outcomes, lanes, decodeRows) && k < |decodeRows|
    ensures var i := decodeRows[k].0; var slot := SlotsOf(RowsOnly(decodeRows))[k];
      && k < |IndicesOf(r.seqs, r.ctx, Row, |r.seqs|)| && i == IndicesOf(r.seqs, r.ctx, Row, |r.seqs|)[k]
      && i < |seqs| == |outcomes| == |r.seqs| && seqs[i] == r.seqs[i]
      && KindOf(r.seqs[i], r.ctx) == Row && slot == Slots(seqs)[i] && slot < |lanes|
      && lanes[slot] + InputOf(RowsOnly(decodeRows))[k] == seqs[i].tokens
      && |lanes[slot]| + 1 == |seqs[i].tokens| <= r.ctx
  {
    hide Midway, Kept, Within;
    var ids := IndicesOf(r.seqs, r.ctx, Row, |r.seqs|);
    assert k < |ids|;
    IndicesFacts(r.seqs, r.ctx, Row, |r.seqs|);
    var i := ids[k];
    assert forall q :: 0 <= q < |ids| ==> KindOf(r.seqs[ids[q]], r.ctx) == Row;
    assert KindOf(r.seqs[i], r.ctx) == Row;
    PendingRow(r, seqs, outcomes, lanes, i);
    var s := seqs[i];
    assert s.tokens[..s.processed] + [s.tokens[s.processed]] == s.tokens;
  }

  /** What the round knows about a row before the fused call. */
  lemma PendingRow<X>(r: Round<X>, seqs: seq<ActiveSeq<X>>, outcomes: seq<StepOutcome>, lanes: seq<seq<Token>>, i: nat)
    requires i < |r.seqs| && Midway(r, seqs, outcomes, lanes, |r.seqs|, false) && KindOf(r.seqs[i], r.ctx) == Row
    ensures |seqs| == |outcomes| == |r.seqs| && seqs[i] == r.seqs[i]
    ensures seqs[i].processed + 1 == |seqs[i].tokens| <= r.ctx
    ensures Slots(seqs)[i] == seqs[i].slot < |lanes| && lanes[seqs[i].slot] == seqs[i].tokens[..seqs[i].processed]
  {
    hide Within, Settled;
    assert Pending(r, i, |r.seqs|, false);
    assert lanes[Slots(seqs)[i]] == seqs[i].tokens[..seqs[i].processed];
  }

  lemma RowFacts<X>(r: Round<X>, seqs: seq<ActiveSeq<X>>, outcomes: seq<StepOutcome>, lanes: seq<seq<Token>>, decodeRows: seq<(nat, DecodeRow)>)
    requires RowsPending(r, seqs, outcomes, lanes, decodeRows)
    ensures var ids := IndicesOf(r.seqs, r.ctx, Row, |r.seqs|); var slots := SlotsOf(RowsOnly(decodeRows));
      && Distinct(ids) && Distinct(slots) && InRange(slots, |lanes|)
      && |decodeRows| == |ids| && |seqs| == |outcomes| == |r.seqs|
      && forall k :: 0 <= k < |ids| ==>
           && decodeRows[k].0 == ids[k] < |seqs| && seqs[ids[k]] == r.seqs[ids[k]]
           && KindOf(r.seqs[ids[k]], r.ctx) == Row && slots[k] == Slots(seqs)[ids[k]]
           && lanes[slots[k]] + InputOf(RowsOnly(decodeRows))[k] == seqs[ids[k]].tokens
           && |lanes[slots[k]]| + 1 == |seqs[ids[k]].tokens| <= r.ctx
  {
    IndicesFacts(r.seqs, r.ctx, Row, |r.seqs|);
    var ids, slots := IndicesOf(r.seqs, r.ctx, Row, |r.seqs|), SlotsOf(RowsOnly(decodeRows));
    assert Distinct(Slots(seqs));
    hide Midway, Kept, RowsPending, SlotsOf, InputOf, RowsOnly, IndicesOf, Slots, KindOf;
    forall k | 0 <= k < |slots|
      ensures k < |ids| && decodeRows[k].0 == ids[k] < |seqs| && seqs[ids[k]] == r.seqs[ids[k]]
      ensures KindOf(r.seqs[ids[k]], r.ctx) == Row && slots[k] == Slots(seqs)[ids[k]] < |lanes|
      ensures lanes[slots[k]] + InputOf(RowsOnly(decodeRows))[k] == seqs[ids[k]].tokens
      ensures |lanes[slots[k]]| + 1 == |seqs[ids[k]].tokens| <= r.ctx
    {
      RowFact(r, seqs, outcomes, lanes, decodeRows, k);
    }
  }

  /** The fused call fits: every row's lane grows to its own tokens, inside its reservation. */
  lemma RowsFit<X>(r: Round<X>, seqs: seq<ActiveSeq<X>>, outcomes: seq<StepOutcome>, lanes: seq<seq<Token>>, decodeRows: seq<(nat, DecodeRow)>)
    requires RowsPending(r, seqs, outcomes, lanes, decodeRows) && r.promised
    ensures var rows := RowsOnly(decodeRows);
      InRange(SlotsOf(rows), |lanes|)
      && InRange(Slots(seqs), |lanes|)
      && Within(seqs, Pushed(lanes, SlotsOf(rows), InputOf(rows)), r.blockSize)
      && Used(Pushed(lanes, SlotsOf(rows), InputOf(rows)), r.blockSize) <= r.totalBlocks
      && forall k :: 0 <= k < |SlotsOf(rows)| ==> |lanes[SlotsOf(rows)[k]]| + 1 <= r.ctx
  {
    hide RowsPending, Midway, Kept, Within, SlotsOf, InputOf, RowsOnly, IndicesOf, KindOf, Slots, Pushed;
    RowFacts(r, seqs, outcomes, lanes, decodeRows);
    PendingFacts(r, seqs, outcomes, lanes, decodeRows);
    var slots, input := SlotsOf(RowsOnly(decodeRows)), InputOf(RowsOnly(decodeRows));
    var ids := IndicesOf(r.seqs, r.ctx, Row, |r.seqs|);
    PushedWithin(seqs, lanes, slots, input, ids, r.blockSize);
    WithinFits(r, seqs, Pushed(lanes, slots, input));
  }

  /** What the promise gives the fused call. */
  lemma PendingFacts<X>(r: Round<X>, seqs: seq<ActiveSeq<X>>, outcomes: seq<StepOutcome>, lanes: seq<seq<Token>>, decodeRows: seq<(nat, DecodeRow)>)
    requires RowsPending(r, seqs, outcomes, lanes, decodeRows) && r.promised
    ensures Kept(r) && r.blockSize >= 1 && |seqs| == |r.seqs|
    ensures Distinct(Slots(seqs)) && InRange(Slots(seqs), |lanes|) && Within(seqs, lanes, r.blockSize)
    ensures forall i :: 0 <= i < |seqs| ==> seqs[i].kvReservation == r.seqs[i].kvReservation
    ensures forall i :: 0 <= i < |r.seqs| && KindOf(r.seqs[i], r.ctx) == Row ==> CeilDiv(|r.seqs[i].tokens|, r.blockSize) <= r.seqs[i].kvReservation
  {
    hide Within, Settled, KindOf, Slots, Reservations, CeilDiv, RowsFor, IndicesOf;
  }

  lemma PushedWithin<X>(seqs: seq<ActiveSeq<X>>, lanes: seq<seq<Token>>, slots: seq<nat>, input: seq<seq<Token>>, ids: seq<nat>, blockSize: nat)
    requires blockSize >= 1 && Distinct(Slots(seqs)) && InRange(Slots(seqs), |lanes|) && Within(seqs, lanes, blockSize)
    requires Distinct(slots) && |slots| == |input| == |ids| && InRange(slots, |lanes|)
    requires forall k :: 0 <= k < |ids| ==>
      && ids[k] < |seqs| && slots[k] == Slots(seqs)[ids[k]]
      && lanes[slots[k]] + input[k] == seqs[ids[k]].tokens
      && CeilDiv(|seqs[ids[k]].tokens|, blockSize) <= seqs[ids[k]].kvReservation
    ensures Within(seqs, Pushed(lanes, slots, input), blockSize)
  {
    var after := Pushed(lanes, slots, input);
    PushedAt(lanes, slots, input);
    forall i | 0 <= i < |seqs|
      ensures CeilDiv(|after[Slots(seqs)[i]]|, blockSize) <= seqs[i].kvReservation
    {
      if Slots(seqs)[i] in slots {
        var k :| 0 <= k < |slots| && slots[k] == Slots(seqs)[i];
        SameLaneIsSame(Slots(seqs), i, ids[k]);
      }
    }
  }

  lemma SameLaneIsSame(slots: seq<nat>, i: nat, j: nat)
    requires Distinct(slots) && i < |slots| && j < |slots| && slots[i] == slots[j]
    ensures i == j
  {
  }

  /** A fused decode and its fan-out: before, sampled, after. */
  datatype Fused<!X> = Fused(
    before: seq<ActiveSeq<X>>, outcomes0: seq<StepOutcome>, lanes0: seq<seq<Token>>,
    decodeRows: seq<(nat, DecodeRow)>, sampled: Result<seq<Token>, InferenceError>,
    after: seq<ActiveSeq<X>>, outcomes: seq<StepOutcome>, lanes: seq<seq<Token>>)

  ghost predicate Fanned<X>(r: Round<X>, f: Fused<X>) {
    && RowsPending(r, f.before, f.outcomes0, f.lanes0, f.decodeRows)
    && |f.after| == |f.outcomes| == |f.before| == |f.outcomes0|
    && (f.sampled.Success? ==> |f.sampled.value| == |f.decodeRows|)
    && InRange(SlotsOf(RowsOnly(f.decodeRows)), |f.lanes0|)
    && FannedOut(r, f, IndicesOf(r.seqs, r.ctx, Row, |r.seqs|))
    && (f.sampled.Success? ==> Decoded(r, f, SlotsOf(RowsOnly(f.decodeRows)), InputOf(RowsOnly(f.decodeRows))))
    && (f.sampled.Failure? ==>
          && !r.promised && f.lanes == f.lanes0
          && (f.sampled.error.ContextLengthExceeded? || f.sampled.error.KvPoolExhausted?))
    && (r.promised ==> InRange(Slots(f.before), |f.lanes|) && Within(f.before, f.lanes, r.blockSize))
  }

  ghost predicate FannedOut<X>(r: Round<X>, f: Fused<X>, ids: seq<nat>)
    requires |f.after| == |f.outcomes| == |f.before| == |f.outcomes0|
    requires f.sampled.Success? ==> |f.sampled.value| == |f.decodeRows|
  {
    && |ids| == |f.decodeRows|
    && (forall k :: 0 <= k < |ids| ==> ids[k] < |f.before| && (f.after[ids[k]], f.outcomes[ids[k]]) == AdvanceOrFail(f.before[ids[k]], SampledAt(f.sampled, k), r.stops))
    && (forall i :: 0 <= i < |f.after| && i !in ids ==> f.after[i] == f.before[i] && f.outcomes[i] == f.outcomes0[i])
  }

  ghost predicate Decoded<X>(r: Round<X>, f: Fused<X>, slots: seq<nat>, input: seq<seq<Token>>)
    requires f.sampled.Success? && |f.sampled.value| == |f.decodeRows| == |slots| == |input| && InRange(slots, |f.lanes0|)
  {
    && f.lanes == Pushed(f.lanes0, slots, input)
    && forall k :: 0 <= k < |slots| ==> f.sampled.value[k] == r.sample(r.model.head(Encode(r.model, f.lanes0[slots[k]] + input[k])))
  }

  /** One decoded row, settled: its lane and its tokens moved together. */
  lemma RowSettled<X>(r: Round<X>, f: Fused<X>, k: nat)
    requires Fanned(r, f) && k < |f.decodeRows|
    ensures var i := IndicesOf(r.seqs, r.ctx, Row, |r.seqs|)[k];
      && i < |r.seqs| == |f.after| && InBounds(r.seqs) && Kept(r)
      && f.after[i].slot == f.before[i].slot && f.after[i].kvReservation == f.before[i].kvReservation
      && f.after[i].processed <= |f.after[i].tokens| && Slots(f.before)[i] < |f.lanes|
      && f.lanes[Slots(f.before)[i]] == f.after[i].tokens[..f.after[i].processed]
      && Settled(r.seqs[i], f.after[i], f.outcomes[i], ShareOf(r.seqs, r.ctx, r.chunk, r.budget, i), r.ctx, r.stops, r.model, r.sample, r.promised)
  {
    hide Within, ShareOf, IndicesOf, Pushed, SlotsOf, InputOf, RowsOnly;
    RowFacts(r, f.before, f.outcomes0, f.lanes0, f.decodeRows);
    var slots, input := SlotsOf(RowsOnly(f.decodeRows)), InputOf(RowsOnly(f.decodeRows));
    var i := IndicesOf(r.seqs, r.ctx, Row, |r.seqs|)[k];
    var s := f.before[i];
    assert f.lanes0[Slots(f.before)[i]] == s.tokens[..s.processed];
    if f.sampled.Success? {
      PushedAt(f.lanes0, slots, input);
      assert f.lanes[slots[k]] == s.tokens;
      assert f.after[i].tokens[..f.after[i].processed] == s.tokens;
    }
  }

  /** A sequence without a decode row keeps its lane and its verdict. */
  lemma OtherSettled<X>(r: Round<X>, f: Fused<X>, i: nat)
    requires Fanned(r, f) && i < |r.seqs| && i !in IndicesOf(r.seqs, r.ctx, Row, |r.seqs|)
    ensures |r.seqs| == |f.after| && InBounds(r.seqs) && Kept(r)
    ensures f.after[i] == f.before[i] && f.after[i].processed <= |f.after[i].tokens|
    ensures Slots(f.before)[i] < |f.lanes| && f.lanes[Slots(f.before)[i]] == f.after[i].tokens[..f.after[i].processed]
    ensures Settled(r.seqs[i], f.after[i], f.outcomes[i], ShareOf(r.seqs, r.ctx, r.chunk, r.budget, i), r.ctx, r.stops, r.model, r.sample, r.promised)
  {
    RowFacts(r, f.before, f.outcomes0, f.lanes0, f.decodeRows);
    IndicesFacts(r.seqs, r.ctx, Row, |r.seqs|);
    var ids, slots := IndicesOf(r.seqs, r.ctx, Row, |r.seqs|), SlotsOf(RowsOnly(f.decodeRows));
    assert !Pending(r, i, |r.seqs|, false);
    if f.sampled.Success? {
      PushedAt(f.lanes0, slots, InputOf(RowsOnly(f.decodeRows)));
      if Slots(f.before)[i] in slots {
        var k :| 0 <= k < |slots| && slots[k] == Slots(f.before)[i];
        SameLaneIsSame(Slots(f.before), i, ids[k]);
        assert false;
      }
    }
  }

  /** With the rows fanned out, nothing is pending. */
  lemma RowsSettled<X>(r: Round<X>, f: Fused<X>)
    requires Fanned(r, f)
    ensures Midway(r, f.after, f.outcomes, f.lanes, |r.seqs|, true)
  {
    hide Fanned, Settled, Within, ShareOf, KindOf;
    FusedFrame(r, f);
    forall i | 0 <= i < |r.seqs|
      ensures |r.seqs| == |f.after| && InBounds(r.seqs)
      ensures f.after[i].slot == r.seqs[i].slot && f.after[i].kvReservation == r.seqs[i].kvReservation
      ensures f.after[i].processed <= |f.after[i].tokens|
      ensures r.seqs[i].slot < |f.lanes| && f.lanes[r.seqs[i].slot] == f.after[i].tokens[..f.after[i].processed]
      ensures Settled(r.seqs[i], f.after[i], f.outcomes[i], ShareOf(r.seqs, r.ctx, r.chunk, r.budget, i), r.ctx, r.stops, r.model, r.sample, r.promised)
    {
      EachSettled(r, f, i);
    }
    assert InLockstep(f.after, f.lanes) by {
      SameSlots(f.after, r.seqs);
    }
  }

  lemma EachSettled<X>(r: Round<X>, f: Fused<X>, i: nat)
    requires Fanned(r, f) && i < |r.seqs|
    ensures |r.seqs| == |f.after| && InBounds(r.seqs)
    ensures f.after[i].slot == r.seqs[i].slot && f.after[i].kvReservation == r.seqs[i].kvReservation
    ensures f.after[i].processed <= |f.after[i].tokens|
    ensures r.seqs[i].slot < |f.lanes| && f.lanes[r.seqs[i].slot] == f.after[i].tokens[..f.after[i].processed]
    ensures Settled(r.seqs[i], f.after[i], f.outcomes[i], ShareOf(r.seqs, r.ctx, r.chunk, r.budget, i), r.ctx, r.stops, r.model, r.sample, r.promised)
  {
    assert f.before[i].slot == r.seqs[i].slot && f.before[i].kvReservation == r.seqs[i].kvReservation;
    var ids := IndicesOf(r.seqs, r.ctx, Row, |r.seqs|);
    assert |ids| == |f.decodeRows|;
    hide Settled, Fanned, ShareOf;
    if i in ids {
      var k :| 0 <= k < |ids| && ids[k] == i;
      RowSettled(r, f, k);
    } else {
      OtherSettled(r, f, i);
    }
  }

  /** The fused decode advances every row on its own greedy token, or retires every row with one and the
      same error. */
  ghost predicate AllOrNone<X>(r: Round<X>, seqs: seq<ActiveSeq<X>>, outcomes: seq<StepOutcome>) {
    && |seqs| == |outcomes| == |r.seqs|
    && ((forall i :: 0 <= i < |seqs| && KindOf(r.seqs[i], r.ctx) == Row ==>
           (seqs[i], outcomes[i]) == Advance(r.seqs[i], Next(r.model, r.sample, r.seqs[i].tokens), r.stops))
        || (exists error :: forall i :: 0 <= i < |seqs| && KindOf(r.seqs[i], r.ctx) == Row ==>
              (seqs[i], outcomes[i]) == (Finish(r.seqs[i]), Failed(error))))
  }

  lemma RowsTogether<X>(r: Round<X>, f: Fused<X>)
    requires Fanned(r, f)
    ensures AllOrNone(r, f.after, f.outcomes)
  {
    hide Within, ShareOf, Pushed, SlotsOf, InputOf, RowsOnly, Midway, Kept;
    RowFacts(r, f.before, f.outcomes0, f.lanes0, f.decodeRows);
    IndicesFacts(r.seqs, r.ctx, Row, |r.seqs|);
    var ids := IndicesOf(r.seqs, r.ctx, Row, |r.seqs|);
    forall i | 0 <= i < |f.after| && KindOf(r.seqs[i], r.ctx) == Row
      ensures if f.sampled.Success? then (f.after[i], f.outcomes[i]) == Advance(r.seqs[i], Next(r.model, r.sample, r.seqs[i].tokens), r.stops)
              else (f.after[i], f.outcomes[i]) == (Finish(r.seqs[i]), Failed(f.sampled.error))
    {
      var k :| 0 <= k < |ids| && ids[k] == i;
      RowTogether(r, f, k);
    }
  }

  lemma RowTogether<X>(r: Round<X>, f: Fused<X>, k: nat)
    requires Fanned(r, f) && k < |f.decodeRows|
    ensures var ids := IndicesOf(r.seqs, r.ctx, Row, |r.seqs|);
      && k < |ids| && ids[k] < |r.seqs| == |f.after|
      && var i := ids[k];
      if f.sampled.Success? then (f.after[i], f.outcomes[i]) == Advance(r.seqs[i], Next(r.model, r.sample, r.seqs[i].tokens), r.stops)
      else (f.after[i], f.outcomes[i]) == (Finish(r.seqs[i]), Failed(f.sampled.error))
  {
    hide Within, ShareOf, Pushed, SlotsOf, InputOf, RowsOnly, Midway, Kept;
    RowFacts(r, f.before, f.outcomes0, f.lanes0, f.decodeRows);
    RowSettled(r, f, k);
  }

  /** What the fused call leaves alone, and that everything still fits. */
  lemma FusedFrame<X>(r: Round<X>, f: Fused<X>)
    requires Fanned(r, f)
    ensures r.blockSize >= 1 && InBounds(r.seqs) && |f.after| == |f.outcomes| == |r.seqs|
    ensures Distinct(Slots(r.seqs))
    ensures |f.lanes| == |r.lanes| && forall l :: 0 <= l < |f.lanes| && l !in Slots(r.seqs) ==> f.lanes[l] == r.lanes[l]
    ensures r.promised ==> |f.after| == |r.seqs| && InRange(Slots(f.after), |f.lanes|) && Within(f.after, f.lanes, r.blockSize)
  {
    hide Settled, Within, ShareOf, KindOf, SlotsOf, InputOf, RowsOnly, Pushed, IndicesOf;
    RowFacts(r, f.before, f.outcomes0, f.lanes0, f.decodeRows);
    SameSlots(f.before, r.seqs);
    var slots := SlotsOf(RowsOnly(f.decodeRows));
    if f.sampled.Success? {
      PushedAt(f.lanes0, slots, InputOf(RowsOnly(f.decodeRows)));
    }
    forall i | 0 <= i < |r.seqs|
      ensures f.after[i].slot == f.before[i].slot && f.after[i].kvReservation == f.before[i].kvReservation
    {
      EachSettled(r, f, i);
      assert f.before[i].slot == r.seqs[i].slot && f.before[i].kvReservation == r.seqs[i].kvReservation;
    }
    SameSlots(f.before, f.after);
    if r.promised {
      WithinSame(f.before, f.after, f.lanes, r.blockSize);
    }
  }

  lemma SameSlots<X>(a: seq<ActiveSeq<X>>, b: seq<ActiveSeq<X>>)
    requires |a| == |b| && forall i :: 0 <= i < |a| ==> a[i].slot == b[i].slot
    ensures Slots(a) == Slots(b)
  {
  }

  lemma WithinSame<X>(a: seq<ActiveSeq<X>>, b: seq<ActiveSeq<X>>, lanes: seq<seq<Token>>, blockSize: nat)
    requires blockSize >= 1 && InRange(Slots(a), |lanes|) && Within(a, lanes, blockSize) && Slots(a) == Slots(b)
    requires forall i :: 0 <= i < |a| ==> a[i].kvReservation == b[i].kvReservation
    ensures Within(b, lanes, blockSize)
  {
  }

  /** A whole round: every sequence is settled, every lane holds its sequence's processed prefix,
      reservations and slots stand, and no other lane moved. */
  ghost predicate Completed<X>(r: Round<X>, seqs: seq<ActiveSeq<X>>, outcomes: seq<StepOutcome>, lanes: seq<seq<Token>>) {
    && r.blockSize >= 1 && InBounds(r.seqs) && |seqs| == |outcomes| == |r.seqs|
    && InLockstep(seqs, lanes)
    && (forall i :: 0 <= i < |seqs| ==> seqs[i].slot == r.seqs[i].slot && seqs[i].kvReservation == r.seqs[i].kvReservation)
    && (forall i :: 0 <= i < |seqs| ==>
          Settled(r.seqs[i], seqs[i], outcomes[i], ShareOf(r.seqs, r.ctx, r.chunk, r.budget, i), r.ctx, r.stops, r.model, r.sample, r.promised))
    && (r.promised ==> Within(seqs, lanes, r.blockSize))
    && |lanes| == |r.lanes| && forall l :: 0 <= l < |lanes| && l !in Slots(r.seqs) ==> lanes[l] == r.lanes[l]
  }

  lemma NothingPending<X>(r: Round<X>, seqs: seq<ActiveSeq<X>>, outcomes: seq<StepOutcome>, lanes: seq<seq<Token>>)
    requires Midway(r, seqs, outcomes, lanes, |r.seqs|, true)
    ensures Completed(r, seqs, outcomes, lanes)
  {
    hide Settled, InLockstep, Within;
    forall i | 0 <= i < |seqs|
      ensures Settled(r.seqs[i], seqs[i], outcomes[i], ShareOf(r.seqs, r.ctx, r.chunk, r.budget, i), r.ctx, r.stops, r.model, r.sample, r.promised)
    {
      assert !Pending(r, i, |r.seqs|, true);
    }
  }

  /** Without decode rows the fused call is skipped, and nothing was waiting for it. */
  lemma NoRowsPending<X>(r: Round<X>, seqs: seq<ActiveSeq<X>>, outcomes: seq<StepOutcome>, lanes: seq<seq<Token>>, decodeRows: seq<(nat, DecodeRow)>)
    requires RowsPending(r, seqs, outcomes, lanes, decodeRows) && decodeRows == []
    ensures Midway(r, seqs, outcomes, lanes, |r.seqs|, true) && AllOrNone(r, seqs, outcomes)
  {
    hide Settled, InLockstep, Within;
    IndicesFacts(r.seqs, r.ctx, Row, |r.seqs|);
    assert forall i :: 0 <= i < |r.seqs| ==> KindOf(r.seqs[i], r.ctx) != Row;
  }

  /** The decode pass: one fused call, all rows or none. */
  method DecodePass<X>(decoder: LlamaDecoder, active: ActiveSet<X>, decodeRows: seq<(nat, DecodeRow)>, outcomes0: seq<StepOutcome>, stops: seq<Token>, chunk: nat, sample: Logits -> Token, ghost r: Round<X>)
    returns (outcomes: seq<StepOutcome>)
    requires decoder.Valid() && Drives(r, decoder, stops, chunk, sample)
    requires RowsPending(r, active.seqs, outcomes0, decoder.lanes, decodeRows)
    modifies decoder.Repr(), active
    ensures decoder.Valid()
    ensures Midway(r, active.seqs, outcomes, decoder.lanes, |r.seqs|, true)
    ensures AllOrNone(r, active.seqs, outcomes)
  {
    hide LlamaDecoder.Valid, Midway, Kept, Within, RowsPending, Used, Pushed, AllOrNone;
    if decodeRows == [] {
      NoRowsPending(r, active.seqs, outcomes0, decoder.lanes, decodeRows);
      return outcomes0;
    }
    RowFacts(r, active.seqs, outcomes0, decoder.lanes, decodeRows);
    var rows := RowsOnly(decodeRows);
    ghost var ids := IndicesOf(r.seqs, r.ctx, Row, |r.seqs|);
    ghost var before, lanes0 := active.seqs, decoder.lanes;
    if r.promised {
      RowsFit(r, before, outcomes0, lanes0, decodeRows);
    }
    var logits := decoder.Decode(rows);
    var sampled := SampleAll(logits, sample);
    outcomes := FanOut(active, decodeRows, sampled, outcomes0, stops, ids);
    ghost var f := Fused(before, outcomes0, lanes0, decodeRows, sampled, active.seqs, outcomes, decoder.lanes);
    assert FannedOut(r, f, ids);
    if r.promised {
      LockstepSlots(r, before, outcomes0, lanes0, decodeRows);
    }
    assert Fanned(r, f);
    RowsSettled(r, f);
    RowsTogether(r, f);
  }

  lemma LockstepSlots<X>(r: Round<X>, seqs: seq<ActiveSeq<X>>, outcomes: seq<StepOutcome>, lanes: seq<seq<Token>>, decodeRows: seq<(nat, DecodeRow)>)
    requires RowsPending(r, seqs, outcomes, lanes, decodeRows)
    ensures InRange(Slots(seqs), |lanes|)
  {
  }

  function SampleAll(logits: Result<seq<Logits>, InferenceError>, sample: Logits -> Token): (r: Result<seq<Token>, InferenceError>)
    ensures r.Success? <==> logits.Success?
    ensures r.Success? ==> |r.value| == |logits.value| && forall k :: 0 <= k < |r.value| ==> r.value[k] == sample(logits.value[k])
    ensures r.Failure? ==> r.error == logits.error
  {
    match logits
    case Success(rows) => Success(seq(|rows|, k requires 0 <= k < |rows| => sample(rows[k])))
    case Failure(err) => Failure(err)
  }

  /** A round over these sequences and lanes, and whether the promise holds for it. */
  ghost function OpenRound<X>(decoder: LlamaDecoder, seqs: seq<ActiveSeq<X>>, lanes: seq<seq<Token>>, stops: seq<Token>, budget: Option<nat>, chunk: nat, sample: Logits -> Token): (r: Round<X>)
    requires decoder.Valid()
    reads decoder.Repr()
    ensures r.seqs == seqs && r.lanes == lanes && r.budget == budget && r.ctx == decoder.cache.maxSeqLen && r.blockSize >= 1
    ensures Drives(r, decoder, stops, chunk, sample)
    ensures r.promised <==> Promised(r.seqs, r.lanes, r.blockSize, r.totalBlocks, r.ctx)
  {
    Round(seqs, lanes, decoder.cache.maxSeqLen, chunk, budget, stops, decoder.model, sample,
      decoder.BlockSize(), decoder.TotalBlocks(),
      Promised(seqs, lanes, decoder.BlockSize(), decoder.TotalBlocks(), decoder.cache.maxSeqLen))
  }

  /** One round over the active set: at most one new token each, prompts oldest-first within the
      allowance, one fused decode for everyone owing exactly one token. */
  method StepRound<X>(decoder: LlamaDecoder, active: ActiveSet<X>, stops: seq<Token>, budget: PrefillBudget, chunk: nat, sample: Logits -> Token)
    returns (outcomes: seq<StepOutcome>, ghost r: Round<X>)
    requires decoder.Valid() && InLockstep(active.seqs, decoder.lanes)
    modifies decoder.Repr(), active, budget
    ensures decoder.Valid()
    ensures r.seqs == old(active.seqs) && r.lanes == old(decoder.lanes) && r.budget == old(budget.remaining)
    ensures Drives(r, decoder, stops, chunk, sample)
    ensures r.promised <==> r.blockSize >= 1 && Promised(r.seqs, r.lanes, r.blockSize, r.totalBlocks, r.ctx)
    ensures Completed(r, active.seqs, outcomes, decoder.lanes) && AllOrNone(r, active.seqs, outcomes)
  {
    hide LlamaDecoder.Valid, Drives, Midway, Within, Settled, AllOrNone, Completed, InLockstep, Promised, Kept, Classified, IndicesOf, RowsFor, InBounds, KindOf, ShareOf, Slots, Untouched, OpenRound;
    LockstepBounds(active.seqs, decoder.lanes);
    var ctx := decoder.cache.maxSeqLen;
    r := OpenRound(decoder, active.seqs, decoder.lanes, stops, budget.remaining, chunk, sample);
    PromiseMeans(r);
    var prefills, decodeRows;
    outcomes, prefills, decodeRows := Classify(active, ctx);
    ClassifiedIsMidway(r, active.seqs, outcomes);
    outcomes := PrefillPass(decoder, active, prefills, outcomes, stops, budget, chunk, sample, r);
    outcomes := DecodePass(decoder, active, decodeRows, outcomes, stops, chunk, sample, r);
    NothingPending(r, active.seqs, outcomes, decoder.lanes);
  }

  lemma LockstepBounds<X>(seqs: seq<ActiveSeq<X>>, lanes: seq<seq<Token>>)
    requires InLockstep(seqs, lanes)
    ensures InBounds(seqs)
  {
  }

  lemma PromiseMeans<X>(r: Round<X>)
    requires r.blockSize >= 1 && InLockstep(r.seqs, r.lanes)
    requires r.promised <==> Promised(r.seqs, r.lanes, r.blockSize, r.totalBlocks, r.ctx)
    ensures Kept(r) && (r.promised ==> Within(r.seqs, r.lanes, r.blockSize))
  {
    if r.promised {
      forall i | 0 <= i < |r.seqs|
        ensures CeilDiv(|r.lanes[Slots(r.seqs)[i]]|, r.blockSize) <= r.seqs[i].kvReservation
      {
        assert r.lanes[Slots(r.seqs)[i]] == r.seqs[i].tokens[..r.seqs[i].processed];
      }
    }
  }

  // ---- The prefill allowance, over a whole round ----

  /** Prompt tokens prefilled by the sequences before `n`. */
  function SharesBelow<X>(seqs: seq<ActiveSeq<X>>, ctx: nat, chunk: nat, budget: Option<nat>, n: nat): nat
    requires n <= |seqs| && InBounds(seqs)
  {
    if n == 0 then 0 else SharesBelow(seqs, ctx, chunk, budget, n - 1) + ShareOf(seqs, ctx, chunk, budget, n - 1)
  }

  /** What is left is the allowance less what was granted, so a round never exceeds the allowance. */
  lemma {:induction false} AllowanceBounds<X>(seqs: seq<ActiveSeq<X>>, ctx: nat, chunk: nat, allowance: nat, n: nat)
    requires n <= |seqs| && InBounds(seqs)
    ensures SharesBelow(seqs, ctx, chunk, Some(allowance), n) <= allowance
    ensures BudgetAt(seqs, ctx, chunk, Some(allowance), n) == Some(allowance - SharesBelow(seqs, ctx, chunk, Some(allowance), n))
  {
    if n > 0 {
      AllowanceBounds(seqs, ctx, chunk, allowance, n - 1);
    }
  }

  /** One prefill call reads at most a chunk, and never past the prompt. */
  lemma EachCallIsAChunk<X>(seqs: seq<ActiveSeq<X>>, ctx: nat, chunk: nat, budget: Option<nat>, i: nat)
    requires i < |seqs| && InBounds(seqs)
    ensures chunk > 0 ==> ShareOf(seqs, ctx, chunk, budget, i) <= chunk
    ensures seqs[i].processed + ShareOf(seqs, ctx, chunk, budget, i) <= |seqs[i].tokens|
  {
  }

  /** Oldest first: a prompt gets tokens only if every earlier prompt got all it wanted. */
  lemma {:induction false} OldestFirst<X>(seqs: seq<ActiveSeq<X>>, ctx: nat, chunk: nat, budget: Option<nat>, i: nat, j: nat)
    requires i < j < |seqs| && InBounds(seqs)
    requires KindOf(seqs[i], ctx) == Prompt && ShareOf(seqs, ctx, chunk, budget, j) > 0
    ensures ShareOf(seqs, ctx, chunk, budget, i) == Wanted(seqs[i], chunk)
  {
    if budget.Some? {
      BudgetShrinks(seqs, ctx, chunk, budget, i + 1, j);
    } else {
      Unbounded(seqs, ctx, chunk, i);
    }
  }

  lemma {:induction false} BudgetShrinks<X>(seqs: seq<ActiveSeq<X>>, ctx: nat, chunk: nat, budget: Option<nat>, i: nat, j: nat)
    requires i <= j <= |seqs| && InBounds(seqs) && budget.Some?
    ensures BudgetAt(seqs, ctx, chunk, budget, i).Some? && BudgetAt(seqs, ctx, chunk, budget, j).Some?
    ensures BudgetAt(seqs, ctx, chunk, budget, j).value <= BudgetAt(seqs, ctx, chunk, budget, i).value
  {
    if j > i {
      BudgetShrinks(seqs, ctx, chunk, budget, i, j - 1);
    } else if i > 0 {
      BudgetShrinks(seqs, ctx, chunk, budget, i - 1, i - 1);
    }
  }

  lemma {:induction false} Unbounded<X>(seqs: seq<ActiveSeq<X>>, ctx: nat, chunk: nat, i: nat)
    requires i <= |seqs| && InBounds(seqs)
    ensures BudgetAt(seqs, ctx, chunk, None, i) == None
  {
    if i > 0 {
      Unbounded(seqs, ctx, chunk, i - 1);
    }
  }
}
