/** One round's KV growth grants: who may take another block, who waits, and who is evicted so that
    the oldest can finish. */
module Growth {
  import opened Arithmetic
  import opened Wrappers
  import opened Pools
  import opened Decoders
  import opened Batching
  import opened Serving

  /** The block budget of a decoder whose KV is not accounted: it never binds. */
  const USIZE_MAX: nat := 0xFFFF_FFFF_FFFF_FFFF

  /** The position of the oldest unfinished sequence, or the length when there is none. */
  function Senior(seqs: seq<JobSeq>): (q: nat)
    ensures q <= |seqs| && (q < |seqs| ==> !seqs[q].finished)
    ensures forall i :: 0 <= i < q ==> seqs[i].finished
  {
    if seqs == [] then 0
    else if !seqs[0].finished then 0
    else
      var q := Senior(seqs[1..]);
      assert forall i :: 1 <= i < q + 1 ==> seqs[i] == seqs[1..][i - 1];
      1 + q
  }

  /** The youngest unfinished sequence younger than position `index`, if any. */
  function Victim(seqs: seq<JobSeq>, index: nat): (v: Option<nat>)
    ensures v.Some? ==> index < v.value < |seqs| && !seqs[v.value].finished
    ensures v.Some? ==> forall i :: v.value < i < |seqs| ==> seqs[i].finished
    ensures v.None? ==> forall i :: index < i < |seqs| ==> seqs[i].finished
  {
    if |seqs| <= index + 1 then None
    else if !seqs[|seqs| - 1].finished then Some(|seqs| - 1)
    else
      assert forall i :: 0 <= i < |seqs| - 1 ==> seqs[..|seqs| - 1][i] == seqs[i];
      Victim(seqs[..|seqs| - 1], index)
  }

  /** What an evicted sequence keeps. */
  function Park(s: JobSeq): ResumedJob {
    ResumedJob(s.tokens, s.maxGen, s.generated, s.extra)
  }

  function ParkAll(seqs: seq<JobSeq>): (r: seq<ResumedJob>)
    ensures |r| == |seqs|
  {
    seq(|seqs|, i requires 0 <= i < |seqs| => Park(seqs[i]))
  }

  /** Blocks the sequence needs before its next forward. */
  function Need(s: JobSeq, blockSize: nat, ctx: nat): nat
    requires blockSize >= 1
  {
    CeilDiv(Min(|s.tokens|, ctx), blockSize)
  }

  /** Blocks the sequence can ever need. */
  function Full(s: JobSeq, blockSize: nat, ctx: nat): nat
    requires blockSize >= 1
  {
    CeilDiv(Min(|s.tokens| + (if s.generated <= s.maxGen then s.maxGen - s.generated else 0), ctx), blockSize)
  }

  /** What a sequence needs now, and what it can ever need, are the fewest blocks that hold its tokens,
      now or with all it may still generate, as far as the context reaches. */
  lemma FewestBlocks(s: JobSeq, blockSize: nat, ctx: nat, blocks: nat)
    requires blockSize >= 1
    ensures Need(s, blockSize, ctx) <= blocks <==> |s.tokens| <= blocks * blockSize || ctx <= blocks * blockSize
    ensures s.generated <= s.maxGen ==>
      (Full(s, blockSize, ctx) <= blocks <==> |s.tokens| + s.maxGen - s.generated <= blocks * blockSize || ctx <= blocks * blockSize)
    ensures s.generated > s.maxGen ==> Full(s, blockSize, ctx) == Need(s, blockSize, ctx)
  {
    CeilDivLeast(Min(|s.tokens|, ctx), blockSize, blocks);
    CeilDivLeast(Min(|s.tokens| + (if s.generated <= s.maxGen then s.maxGen - s.generated else 0), ctx), blockSize, blocks);
  }

  /** A grant changes a reservation upward and the pause flag, nothing else. */
  ghost predicate OnlyGranted(s: JobSeq, s': JobSeq) {
    s' == s.(kvReservation := s'.kvReservation, paused := s'.paused) && s.kvReservation <= s'.kvReservation
  }

  /** The survivors, in their old order: `kept[k]` is where survivor `k` stood. */
  ghost predicate Survive(before: seq<JobSeq>, after: seq<JobSeq>, kept: seq<nat>) {
    && |kept| == |after|
    && (forall k :: 0 <= k < |kept| ==> kept[k] < |before| && OnlyGranted(before[kept[k]], after[k]))
    && (forall j, k :: 0 <= j < k < |kept| ==> kept[j] < kept[k])
  }

  /** No job is lost or duplicated: survivors and evicted are the sequences there were. */
  ghost predicate JobsConserved(before: seq<JobSeq>, after: seq<JobSeq>, evicted: seq<JobSeq>) {
    && multiset(ParkAll(before)) == multiset(ParkAll(after)) + multiset(ParkAll(evicted))
    && multiset(Ids(before)) == multiset(Ids(after)) + multiset(Ids(evicted))
  }

  ghost predicate Covered(s: JobSeq, blockSize: nat, ctx: nat)
    requires blockSize >= 1
  {
    !s.finished && !s.paused ==> Need(s, blockSize, ctx) <= s.kvReservation
  }

  function Without<T>(s: seq<T>, v: nat): seq<T>
    requires v < |s|
  {
    s[..v] + s[v + 1..]
  }

  lemma {:induction false} ReservationsUpdate(seqs: seq<JobSeq>, i: nat, s: JobSeq)
    requires i < |seqs|
    ensures Reservations(seqs[i := s]) + seqs[i].kvReservation == Reservations(seqs) + s.kvReservation
  {
    var last := |seqs| - 1;
    if i == last {
      assert seqs[i := s][..last] == seqs[..last];
    } else {
      assert seqs[i := s][..last] == seqs[..last][i := s];
      ReservationsUpdate(seqs[..last], i, s);
    }
  }

  lemma {:induction false} ReservationsWithout(seqs: seq<JobSeq>, v: nat)
    requires v < |seqs|
    ensures Reservations(Without(seqs, v)) + seqs[v].kvReservation == Reservations(seqs)
  {
    var last := |seqs| - 1;
    if v == last {
      assert Without(seqs, v) == seqs[..last];
    } else {
      assert Without(seqs, v)[..last - 1] == Without(seqs[..last], v);
      ReservationsWithout(seqs[..last], v);
    }
  }

  /** Blocks a sequence holds although it is finished: they come back only when it retires. */
  function HeldIfFinished(s: JobSeq): nat {
    if s.finished then s.kvReservation else 0
  }

  function HeldByFinished(seqs: seq<JobSeq>): nat {
    if seqs == [] then 0 else HeldByFinished(seqs[..|seqs| - 1]) + HeldIfFinished(seqs[|seqs| - 1])
  }

  lemma {:induction false} HeldUpdate(seqs: seq<JobSeq>, i: nat, s: JobSeq)
    requires i < |seqs|
    ensures HeldByFinished(seqs[i := s]) + HeldIfFinished(seqs[i]) == HeldByFinished(seqs) + HeldIfFinished(s)
  {
    var last := |seqs| - 1;
    if i == last {
      assert seqs[i := s][..last] == seqs[..last];
    } else {
      assert seqs[i := s][..last] == seqs[..last][i := s];
      HeldUpdate(seqs[..last], i, s);
    }
  }

  lemma {:induction false} HeldWithout(seqs: seq<JobSeq>, v: nat)
    requires v < |seqs|
    ensures HeldByFinished(Without(seqs, v)) + HeldIfFinished(seqs[v]) == HeldByFinished(seqs)
  {
    var last := |seqs| - 1;
    if v == last {
      assert Without(seqs, v) == seqs[..last];
    } else {
      assert Without(seqs, v)[..last - 1] == Without(seqs[..last], v);
      HeldWithout(seqs[..last], v);
    }
  }

  lemma {:induction false} HeldIsReserved(seqs: seq<JobSeq>)
    ensures HeldByFinished(seqs) <= Reservations(seqs)
    ensures (forall i :: 0 <= i < |seqs| ==> seqs[i].finished) ==> HeldByFinished(seqs) == Reservations(seqs)
    ensures (forall i :: 0 <= i < |seqs| ==> !seqs[i].finished) ==> HeldByFinished(seqs) == 0
  {
    if seqs != [] {
      HeldIsReserved(seqs[..|seqs| - 1]);
    }
  }

  /** An unfinished sequence's blocks are beside those the finished hold; alone among them, they are all
      there is. */
  lemma HeldBeside(seqs: seq<JobSeq>, i: nat)
    requires i < |seqs| && !seqs[i].finished
    ensures HeldByFinished(seqs) + seqs[i].kvReservation <= Reservations(seqs)
    ensures (forall k :: 0 <= k < |seqs| && k != i ==> seqs[k].finished) ==>
      HeldByFinished(seqs) + seqs[i].kvReservation == Reservations(seqs)
  {
    HeldWithout(seqs, i);
    ReservationsWithout(seqs, i);
    HeldIsReserved(Without(seqs, i));
  }

  // ---- The pass, as a state machine over positions ----

  /** What the pass started from. */
  datatype Start = Start(seqs: seq<JobSeq>, lanes: seq<seq<Token>>, resume: seq<ResumedJob>, blockSize: nat, totalBlocks: nat, ctx: nat)

  /** Kept by every step of the pass, wherever it stands. */
  ghost predicate Steady(g: Start, seqs: seq<JobSeq>, lanes: seq<seq<Token>>, resume: seq<ResumedJob>, kept: seq<nat>, evicted: seq<JobSeq>) {
    && g.blockSize >= 1
    && Survive(g.seqs, seqs, kept)
    && JobsConserved(g.seqs, seqs, evicted)
    && (forall i :: 0 <= i < |evicted| ==> evicted[i] in g.seqs && !evicted[i].finished)
    && resume == g.resume + ParkAll(evicted)
    && Reservations(seqs) <= g.totalBlocks
    && InLockstep(seqs, lanes) && |lanes| == |g.lanes|
    && (forall l :: 0 <= l < |lanes| && l !in Slots(seqs) ==> lanes[l] == if l in Slots(g.seqs) then [] else g.lanes[l])
    && (Senior(g.seqs) < |g.seqs| ==> Senior(g.seqs) < |seqs| && kept[Senior(g.seqs)] == Senior(g.seqs))
    && HeldByFinished(seqs) == HeldByFinished(g.seqs)
    && YoungestFirst(g, kept)
  }

  /** Whoever is gone is younger than every unfinished survivor but the senior itself. */
  ghost predicate YoungestFirst(g: Start, kept: seq<nat>) {
    forall k, j :: 0 <= k < |kept| && kept[k] < |g.seqs| && !g.seqs[kept[k]].finished && kept[k] != Senior(g.seqs) && 0 <= j < |g.seqs| && j !in kept ==>
      kept[k] < j
  }

  /** Everyone already holds a full reservation, as under `Reserve` admission. */
  ghost predicate AllFull(g: Start)
    requires g.blockSize >= 1
  {
    forall i :: 0 <= i < |g.seqs| && !g.seqs[i].finished ==> Full(g.seqs[i], g.blockSize, g.ctx) <= g.seqs[i].kvReservation
  }

  ghost predicate SomeFinished(seqs: seq<JobSeq>) {
    exists i :: 0 <= i < |seqs| && seqs[i].finished
  }

  /** The senior is left paused exactly when its need does not fit beside the blocks that finished
      sequences still hold. */
  ghost predicate SeniorServed(g: Start, seqs: seq<JobSeq>)
    requires g.blockSize >= 1 && Senior(g.seqs) < |g.seqs| && Senior(g.seqs) < |seqs|
  {
    seqs[Senior(g.seqs)].paused <==> Need(g.seqs[Senior(g.seqs)], g.blockSize, g.ctx) + HeldByFinished(g.seqs) > g.totalBlocks
  }

  /** A pause is never idle: what the sequence lacks is more than the pool has left. */
  ghost predicate PausedForCause(g: Start, s: JobSeq, reserved: nat)
    requires g.blockSize >= 1
  {
    !s.finished && s.paused ==> Need(s, g.blockSize, g.ctx) > s.kvReservation + (g.totalBlocks - reserved)
  }

  /** The pass with the sequences before `index` decided. */
  ghost predicate Deciding(g: Start, seqs: seq<JobSeq>, evicted: seq<JobSeq>, index: nat) {
    && g.blockSize >= 1 && index <= |seqs|
    && (forall k :: 0 <= k < index ==> Covered(seqs[k], g.blockSize, g.ctx) && PausedForCause(g, seqs[k], Reservations(seqs)))
    && (Senior(g.seqs) < index && Senior(g.seqs) < |g.seqs| ==> SeniorServed(g, seqs))
    && (AllFull(g) ==>
          && evicted == [] && |seqs| == |g.seqs|
          && forall k :: 0 <= k < |seqs| ==>
               && OnlyGranted(g.seqs[k], seqs[k])
               && (!seqs[k].finished ==> seqs[k].kvReservation == g.seqs[k].kvReservation && (k < index ==> !seqs[k].paused)))
  }

  /** While nobody is gone, nobody was passed over. */
  lemma YoungestAtStart(g: Start, kept: seq<nat>)
    requires |kept| == |g.seqs| && forall k :: 0 <= k < |kept| ==> kept[k] == k
    ensures YoungestFirst(g, kept)
  {
    forall j | 0 <= j < |g.seqs|
      ensures j in kept
    {
      assert kept[j] == j;
    }
  }

  lemma SteadyAtStart(g: Start)
    requires g.blockSize >= 1 && InLockstep(g.seqs, g.lanes) && Reservations(g.seqs) <= g.totalBlocks
    ensures Steady(g, g.seqs, g.lanes, g.resume, seq(|g.seqs|, k => k), [])
    ensures Deciding(g, g.seqs, [], 0)
  {
    hide InLockstep, Senior, Reservations, Covered, YoungestFirst, HeldByFinished;
    YoungestAtStart(g, seq(|g.seqs|, k => k));
    assert ParkAll([]) == [] && Ids([]) == [];
    assert g.resume + ParkAll([]) == g.resume;
    assert JobsConserved(g.seqs, g.seqs, []) by {
      assert multiset(ParkAll([])) == multiset{} && multiset(Ids([])) == multiset{};
    }
    hide JobsConserved, ParkAll, Ids, Slots;
  }

  /** Changing only a sequence's grant keeps the pass steady. */
  lemma RegrantSteady(g: Start, seqs: seq<JobSeq>, lanes: seq<seq<Token>>, resume: seq<ResumedJob>, kept: seq<nat>, evicted: seq<JobSeq>, i: nat, s': JobSeq)
    requires Steady(g, seqs, lanes, resume, kept, evicted) && i < |seqs| && OnlyGranted(seqs[i], s')
    requires Reservations(seqs) + s'.kvReservation - seqs[i].kvReservation <= g.totalBlocks
    requires seqs[i].finished ==> s'.kvReservation == seqs[i].kvReservation
    ensures Steady(g, seqs[i := s'], lanes, resume, kept, evicted)
    ensures Reservations(seqs[i := s']) == Reservations(seqs) + s'.kvReservation - seqs[i].kvReservation
  {
    hide InLockstep, Reservations, Senior, HeldByFinished, YoungestFirst;
    ReservationsUpdate(seqs, i, s');
    HeldUpdate(seqs, i, s');
    assert ParkAll(seqs[i := s']) == ParkAll(seqs);
    assert Ids(seqs[i := s']) == Ids(seqs);
    LockstepRegrant(seqs, lanes, i, s');
  }

  lemma LockstepRegrant(seqs: seq<JobSeq>, lanes: seq<seq<Token>>, i: nat, s': JobSeq)
    requires InLockstep(seqs, lanes) && i < |seqs| && OnlyGranted(seqs[i], s')
    ensures InLockstep(seqs[i := s'], lanes) && Slots(seqs[i := s']) == Slots(seqs)
  {
    assert Slots(seqs[i := s']) == Slots(seqs);
    forall k | 0 <= k < |seqs|
      ensures lanes[Slots(seqs)[k]] == seqs[i := s'][k].tokens[..seqs[i := s'][k].processed]
    {
      assert lanes[Slots(seqs)[k]] == seqs[k].tokens[..seqs[k].processed];
    }
  }

  lemma MultisetWithout<T>(s: seq<T>, v: nat)
    requires v < |s|
    ensures multiset(s) == multiset(Without(s, v)) + multiset{s[v]}
  {
    assert s == s[..v] + [s[v]] + s[v + 1..];
  }

  lemma OlderStay<T>(s: seq<T>, v: nat)
    requires v < |s|
    ensures |Without(s, v)| == |s| - 1 && forall k :: 0 <= k < v ==> Without(s, v)[k] == s[k]
  {
  }

  /** Evicting a sequence younger than the senior keeps the pass steady. */
  lemma EvictSteady(g: Start, seqs: seq<JobSeq>, lanes: seq<seq<Token>>, resume: seq<ResumedJob>, kept: seq<nat>, evicted: seq<JobSeq>, v: nat)
    requires Steady(g, seqs, lanes, resume, kept, evicted) && v < |seqs| && !seqs[v].finished
    requires Senior(g.seqs) < |g.seqs| ==> Senior(g.seqs) < v
    requires forall i :: v < i < |seqs| ==> seqs[i].finished
    ensures kept[v] < |g.seqs|
    ensures Steady(g, Without(seqs, v), lanes[seqs[v].slot := []], resume + [Park(seqs[v])], Without(kept, v), evicted + [g.seqs[kept[v]]])
    ensures Reservations(Without(seqs, v)) == Reservations(seqs) - seqs[v].kvReservation
  {
    hide InLockstep, JobsConserved, Survive, ParkAll, Slots, Senior, Reservations, HeldByFinished, YoungestFirst, Without, OnlyGranted, Park;
    EvictedLeaves(g, seqs, kept, evicted, v);
    EvictedLane(g, seqs, lanes, kept, v);
    ReservationsWithout(seqs, v);
    HeldWithout(seqs, v);
    EvictedGrow(g.seqs, g.resume, evicted, g.seqs[kept[v]]);
  }

  /** The evicted sequence is among the gone, and everybody else is still among the survivors. */
  lemma EvictedLeaves(g: Start, seqs: seq<JobSeq>, kept: seq<nat>, evicted: seq<JobSeq>, v: nat)
    requires Survive(g.seqs, seqs, kept) && JobsConserved(g.seqs, seqs, evicted) && YoungestFirst(g, kept)
    requires v < |seqs| && forall i :: v < i < |seqs| ==> seqs[i].finished
    ensures |kept| == |seqs| && kept[v] < |g.seqs| && g.seqs[kept[v]] in g.seqs
    ensures OnlyGranted(g.seqs[kept[v]], seqs[v]) && g.seqs[kept[v]].finished == seqs[v].finished && Park(g.seqs[kept[v]]) == Park(seqs[v])
    ensures Survive(g.seqs, Without(seqs, v), Without(kept, v)) && YoungestFirst(g, Without(kept, v))
    ensures JobsConserved(g.seqs, Without(seqs, v), evicted + [g.seqs[kept[v]]])
    ensures |Without(seqs, v)| == |seqs| - 1 && forall k :: 0 <= k < v ==> Without(kept, v)[k] == kept[k]
  {
    hide JobsConserved, Survive, YoungestFirst, Without, OnlyGranted, Park, ParkAll;
    SlotGone(g.seqs, seqs, kept, v);
    OlderStay(seqs, v);
    OlderStay(kept, v);
    StaysYoungestFirst(g, seqs, kept, v);
    ConservedWithout(g.seqs, seqs, evicted, v, g.seqs[kept[v]]);
    SurviveWithout(g.seqs, seqs, kept, v);
  }

  /** The evicted sequence's lane is emptied, the other lanes stand. */
  lemma EvictedLane(g: Start, seqs: seq<JobSeq>, lanes: seq<seq<Token>>, kept: seq<nat>, v: nat)
    requires Survive(g.seqs, seqs, kept) && InLockstep(seqs, lanes) && v < |seqs| && |lanes| == |g.lanes|
    requires forall l :: 0 <= l < |lanes| && l !in Slots(seqs) ==> lanes[l] == if l in Slots(g.seqs) then [] else g.lanes[l]
    ensures seqs[v].slot < |lanes| && InLockstep(Without(seqs, v), lanes[seqs[v].slot := []])
    ensures forall l :: 0 <= l < |lanes| && l !in Slots(Without(seqs, v)) ==>
      lanes[seqs[v].slot := []][l] == if l in Slots(g.seqs) then [] else g.lanes[l]
  {
    hide InLockstep, Survive, Slots, Without, OnlyGranted, Park;
    SlotGone(g.seqs, seqs, kept, v);
    LockstepRange(seqs, lanes);
    LockstepWithout(seqs, lanes, v);
    OffSlotsWithout(Slots(g.seqs), g.lanes, Slots(seqs), lanes, v);
  }

  lemma OnlyOneGone<T>(s: seq<T>, v: nat, x: T)
    requires v < |s| && x in s && x !in Without(s, v)
    ensures x == s[v]
  {
    assert s == s[..v] + [s[v]] + s[v + 1..];
  }

  lemma StaysYoungestFirst(g: Start, seqs: seq<JobSeq>, kept: seq<nat>, v: nat)
    requires Survive(g.seqs, seqs, kept) && YoungestFirst(g, kept) && v < |seqs|
    requires forall i :: v < i < |seqs| ==> seqs[i].finished
    ensures |kept| == |seqs| && YoungestFirst(g, Without(kept, v))
  {
    var rest := Without(kept, v);
    forall k, j | 0 <= k < |rest| && rest[k] < |g.seqs| && !g.seqs[rest[k]].finished && rest[k] != Senior(g.seqs) && 0 <= j < |g.seqs| && j !in rest
      ensures rest[k] < j
    {
      var i := if k < v then k else k + 1;
      assert rest[k] == kept[i] && OnlyGranted(g.seqs[kept[i]], seqs[i]);
      if j in kept {
        OnlyOneGone(kept, v, j);
      }
    }
  }

  lemma LockstepRange(seqs: seq<JobSeq>, lanes: seq<seq<Token>>)
    requires InLockstep(seqs, lanes)
    ensures InRange(Slots(seqs), |lanes|)
  {
  }

  lemma SlotGone(before: seq<JobSeq>, seqs: seq<JobSeq>, kept: seq<nat>, v: nat)
    requires Survive(before, seqs, kept) && v < |seqs|
    ensures |kept| == |seqs| && kept[v] < |before| && Slots(before)[kept[v]] == Slots(seqs)[v] == seqs[v].slot
    ensures OnlyGranted(before[kept[v]], seqs[v]) && before[kept[v]] in before
    ensures before[kept[v]].finished == seqs[v].finished && Park(before[kept[v]]) == Park(seqs[v])
    ensures Slots(Without(seqs, v)) == Without(Slots(seqs), v)
  {
    assert OnlyGranted(before[kept[v]], seqs[v]);
  }

  lemma EvictedGrow(before: seq<JobSeq>, resume: seq<ResumedJob>, evicted: seq<JobSeq>, gone: JobSeq)
    requires forall i :: 0 <= i < |evicted| ==> evicted[i] in before && !evicted[i].finished
    requires gone in before && !gone.finished
    ensures forall i :: 0 <= i < |evicted + [gone]| ==> (evicted + [gone])[i] in before && !(evicted + [gone])[i].finished
    ensures resume + ParkAll(evicted + [gone]) == resume + ParkAll(evicted) + [Park(gone)]
  {
    assert ParkAll(evicted + [gone]) == ParkAll(evicted) + [Park(gone)];
  }

  /** A released lane is empty; the others outside the set are as they were. */
  lemma OffSlotsWithout(slots0: seq<nat>, lanes0: seq<seq<Token>>, slots: seq<nat>, lanes: seq<seq<Token>>, v: nat)
    requires v < |slots| && InRange(slots, |lanes|) && |lanes| == |lanes0| && slots[v] in slots0
    requires forall l :: 0 <= l < |lanes| && l !in slots ==> lanes[l] == if l in slots0 then [] else lanes0[l]
    ensures forall l :: 0 <= l < |lanes| && l !in Without(slots, v) ==>
      lanes[slots[v] := []][l] == if l in slots0 then [] else lanes0[l]
  {
    assert forall l :: l in slots ==> l == slots[v] || l in Without(slots, v);
  }

  lemma ConservedWithout(before: seq<JobSeq>, seqs: seq<JobSeq>, evicted: seq<JobSeq>, v: nat, gone: JobSeq)
    requires JobsConserved(before, seqs, evicted) && v < |seqs| && OnlyGranted(gone, seqs[v])
    ensures JobsConserved(before, Without(seqs, v), evicted + [gone])
  {
    MultisetWithout(ParkAll(seqs), v);
    MultisetWithout(Ids(seqs), v);
    assert ParkAll(Without(seqs, v)) == Without(ParkAll(seqs), v);
    assert Ids(Without(seqs, v)) == Without(Ids(seqs), v);
    assert ParkAll(evicted + [gone]) == ParkAll(evicted) + [Park(gone)];
    assert Ids(evicted + [gone]) == Ids(evicted) + [gone.extra.id];
  }

  lemma SurviveWithout(before: seq<JobSeq>, seqs: seq<JobSeq>, kept: seq<nat>, v: nat)
    requires Survive(before, seqs, kept) && v < |seqs|
    ensures Survive(before, Without(seqs, v), Without(kept, v))
  {
  }

  lemma LockstepWithout(seqs: seq<JobSeq>, lanes: seq<seq<Token>>, v: nat)
    requires InLockstep(seqs, lanes) && v < |seqs|
    ensures InLockstep(Without(seqs, v), lanes[seqs[v].slot := []])
  {
    var rest := Without(seqs, v);
    assert Slots(rest) == Without(Slots(seqs), v);
    assert Slots(seqs)[v] == seqs[v].slot;
    forall k | 0 <= k < |rest|
      ensures lanes[seqs[v].slot := []][Slots(rest)[k]] == rest[k].tokens[..rest[k].processed]
    {
      var i := if k < v then k else k + 1;
      assert rest[k] == seqs[i] && Slots(seqs)[i] != Slots(seqs)[v];
      assert lanes[Slots(seqs)[i]] == seqs[i].tokens[..seqs[i].processed];
    }
  }

  lemma NeedWithinFull(s: JobSeq, blockSize: nat, ctx: nat)
    requires blockSize >= 1
    ensures Need(s, blockSize, ctx) <= Full(s, blockSize, ctx)
  {
    CeilDivMonotone(Min(|s.tokens|, ctx), Min(|s.tokens| + (if s.generated <= s.maxGen then s.maxGen - s.generated else 0), ctx), blockSize);
  }

  /** Under full reservations nobody ever lacks a block. */
  lemma FullNeverLacks(g: Start, seqs: seq<JobSeq>, evicted: seq<JobSeq>, index: nat)
    requires Deciding(g, seqs, evicted, index) && AllFull(g) && index < |seqs| && !seqs[index].finished
    ensures Need(seqs[index], g.blockSize, g.ctx) <= seqs[index].kvReservation
  {
    assert OnlyGranted(g.seqs[index], seqs[index]);
    NeedWithinFull(g.seqs[index], g.blockSize, g.ctx);
  }

  /** A decided sequence: finished, or covered and running, or paused for cause; for the senior the
      verdict is exactly whether it fits beside the finished. */
  lemma DecideOne(g: Start, seqs: seq<JobSeq>, evicted: seq<JobSeq>, index: nat, s': JobSeq)
    requires Deciding(g, seqs, evicted, index) && index < |seqs| && SeniorStands(g, seqs)
    requires OnlyGranted(seqs[index], s') && Covered(s', g.blockSize, g.ctx)
    requires Reservations(seqs) <= Reservations(seqs[index := s']) <= g.totalBlocks
    requires PausedForCause(g, s', Reservations(seqs[index := s']))
    requires index == Senior(g.seqs) < |g.seqs| ==>
      (s'.paused <==> Need(g.seqs[index], g.blockSize, g.ctx) + HeldByFinished(g.seqs) > g.totalBlocks)
    requires AllFull(g) && !s'.finished ==> !s'.paused && s'.kvReservation == seqs[index].kvReservation
    ensures Deciding(g, seqs[index := s'], evicted, index + 1)
  {
    hide Senior, Covered, Full, Need, Reservations, HeldByFinished;
    var seqs' := seqs[index := s'];
    forall k | 0 <= k < index
      ensures PausedForCause(g, seqs'[k], Reservations(seqs'))
    {
      assert seqs'[k] == seqs[k] && PausedForCause(g, seqs[k], Reservations(seqs));
    }
    assert Senior(g.seqs) < index + 1 && Senior(g.seqs) < |g.seqs| ==> SeniorServed(g, seqs');
  }

  ghost predicate SeniorStands(g: Start, seqs: seq<JobSeq>) {
    Senior(g.seqs) < |g.seqs| ==> Senior(g.seqs) < |seqs| && OnlyGranted(g.seqs[Senior(g.seqs)], seqs[Senior(g.seqs)])
  }

  /** Everybody older than the senior is finished. */
  lemma OlderFinished(g: Start, seqs: seq<JobSeq>, kept: seq<nat>, index: nat)
    requires Survive(g.seqs, seqs, kept) && index == Senior(g.seqs) < |g.seqs| && index < |seqs| && kept[index] == index
    ensures OnlyGranted(g.seqs[index], seqs[index]) && !seqs[index].finished
    ensures forall k :: 0 <= k < index ==> seqs[k].finished
  {
    forall k | 0 <= k < index
      ensures seqs[k].finished
    {
      assert kept[k] < kept[index] && OnlyGranted(g.seqs[kept[k]], seqs[k]);
    }
  }

  /** With nobody left to evict, an uncovered senior shares the pool with finished sequences alone, and
      does not fit beside them. */
  lemma LonelySenior(g: Start, seqs: seq<JobSeq>, lanes: seq<seq<Token>>, resume: seq<ResumedJob>, kept: seq<nat>, evicted: seq<JobSeq>, index: nat)
    requires Steady(g, seqs, lanes, resume, kept, evicted) && index == Senior(g.seqs) < |g.seqs| && index < |seqs|
    requires Need(seqs[index], g.blockSize, g.ctx) - seqs[index].kvReservation > g.totalBlocks - Reservations(seqs)
    requires Victim(seqs, index).None?
    ensures Need(g.seqs[index], g.blockSize, g.ctx) + HeldByFinished(g.seqs) > g.totalBlocks
  {
    hide InLockstep, JobsConserved, Reservations, HeldByFinished, Senior, YoungestFirst;
    OlderFinished(g, seqs, kept, index);
    HeldBeside(seqs, index);
  }

  /** A senior whose reservation covers its need fits beside the finished. */
  lemma CoveredSenior(g: Start, seqs: seq<JobSeq>, lanes: seq<seq<Token>>, resume: seq<ResumedJob>, kept: seq<nat>, evicted: seq<JobSeq>, index: nat)
    requires Steady(g, seqs, lanes, resume, kept, evicted) && index == Senior(g.seqs) < |g.seqs| && index < |seqs|
    requires Need(seqs[index], g.blockSize, g.ctx) <= seqs[index].kvReservation
    ensures Need(g.seqs[index], g.blockSize, g.ctx) + HeldByFinished(g.seqs) <= g.totalBlocks
  {
    hide InLockstep, JobsConserved, Reservations, HeldByFinished, Senior, YoungestFirst;
    OlderFinished(g, seqs, kept, index);
    HeldBeside(seqs, index);
  }

  /** Evicting past the senior leaves what was decided before it decided: nothing but finished
      sequences. */
  lemma DecideEvict(g: Start, seqs: seq<JobSeq>, evicted: seq<JobSeq>, index: nat, v: nat, gone: JobSeq)
    requires Deciding(g, seqs, evicted, index) && index == Senior(g.seqs) < v < |seqs| && !AllFull(g)
    requires forall k :: 0 <= k < index ==> seqs[k].finished
    ensures Deciding(g, Without(seqs, v), evicted + [gone], index)
  {
    hide Senior, Reservations, AllFull;
  }

  /** The senior has first claim on the slack: it holds its worst case, or all there was to take. */
  ghost predicate ToppedUp(g: Start, seqs: seq<JobSeq>)
    requires g.blockSize >= 1
  {
    Senior(g.seqs) < |g.seqs| && Senior(g.seqs) < |seqs| && Reservations(g.seqs) <= g.totalBlocks ==>
      seqs[Senior(g.seqs)].kvReservation
      >= Min(Full(g.seqs[Senior(g.seqs)], g.blockSize, g.ctx), g.seqs[Senior(g.seqs)].kvReservation + (g.totalBlocks - Reservations(g.seqs)))
  }

  lemma StaysToppedUp(g: Start, seqs: seq<JobSeq>, seqs': seq<JobSeq>)
    requires g.blockSize >= 1 && ToppedUp(g, seqs) && SeniorStands(g, seqs)
    requires Senior(g.seqs) < |g.seqs| && Senior(g.seqs) < |seqs'| ==>
      seqs[Senior(g.seqs)].kvReservation <= seqs'[Senior(g.seqs)].kvReservation
    ensures ToppedUp(g, seqs')
  {
    hide Senior, Full, Reservations;
  }

  /** The pass takes no more than it must: who is not decided yet, or is finished, is as it was; a younger
      sequence grows to exactly its need or not at all; the senior holds no more than its worst case; and
      the last eviction was needed, since with that sequence still there the senior would not fit. */
  ghost predicate Frugal(g: Start, seqs: seq<JobSeq>, kept: seq<nat>, evicted: seq<JobSeq>, index: nat)
    requires g.blockSize >= 1
  {
    var q := Senior(g.seqs);
    && |kept| == |seqs|
    && (forall k :: 0 <= k < |seqs| ==> kept[k] < |g.seqs| && (k != q ==> Thrifty(g, g.seqs[kept[k]], seqs[k], index <= k)))
    && (q < |g.seqs| ==> q < |seqs|)
    && (q < |g.seqs| && q < |seqs| ==>
          && seqs[q].kvReservation <= Max(g.seqs[q].kvReservation, Full(g.seqs[q], g.blockSize, g.ctx))
          && (evicted != [] ==>
                Need(g.seqs[q], g.blockSize, g.ctx) + (Reservations(seqs) - seqs[q].kvReservation) + evicted[|evicted| - 1].kvReservation > g.totalBlocks))
    && (q == |g.seqs| ==> evicted == [])
  }

  ghost predicate Thrifty(g: Start, before: JobSeq, after: JobSeq, undecided: bool)
    requires g.blockSize >= 1
  {
    && (undecided || before.finished ==> after == before)
    && (after.kvReservation == before.kvReservation || after.kvReservation == Need(after, g.blockSize, g.ctx))
  }

  lemma FrugalAtStart(g: Start, seqs: seq<JobSeq>, kept: seq<nat>)
    requires g.blockSize >= 1 && |kept| == |g.seqs| == |seqs| && forall k :: 0 <= k < |kept| ==> kept[k] == k
    requires forall k :: 0 <= k < |seqs| && k != Senior(g.seqs) ==> seqs[k] == g.seqs[k]
    requires Senior(g.seqs) < |g.seqs| ==>
      seqs[Senior(g.seqs)].kvReservation <= Max(g.seqs[Senior(g.seqs)].kvReservation, Full(g.seqs[Senior(g.seqs)], g.blockSize, g.ctx))
    ensures Frugal(g, seqs, kept, [], 0)
  {
    hide Senior, Full, Need, Reservations;
  }

  lemma FrugalRegrant(g: Start, seqs: seq<JobSeq>, kept: seq<nat>, evicted: seq<JobSeq>, index: nat, s': JobSeq)
    requires g.blockSize >= 1 && Frugal(g, seqs, kept, evicted, index) && SeniorStands(g, seqs) && index < |seqs|
    requires OnlyGranted(seqs[index], s') && (s'.finished ==> s' == seqs[index])
    requires s'.kvReservation == seqs[index].kvReservation || s'.kvReservation == Need(s', g.blockSize, g.ctx)
    ensures Frugal(g, seqs[index := s'], kept, evicted, index + 1)
  {
    var q := Senior(g.seqs);
    if index == q < |g.seqs| {
      NeedWithinFull(g.seqs[q], g.blockSize, g.ctx);
      assert Need(s', g.blockSize, g.ctx) == Need(g.seqs[q], g.blockSize, g.ctx);
    }
    hide Senior, Full, Need, Reservations;
    ReservationsUpdate(seqs, index, s');
  }

  lemma FrugalEvict(g: Start, seqs: seq<JobSeq>, kept: seq<nat>, evicted: seq<JobSeq>, index: nat, v: nat)
    requires g.blockSize >= 1 && Frugal(g, seqs, kept, evicted, index) && SeniorStands(g, seqs)
    requires index == Senior(g.seqs) < |g.seqs| && index < v < |seqs|
    requires Need(seqs[index], g.blockSize, g.ctx) - seqs[index].kvReservation > g.totalBlocks - Reservations(seqs)
    ensures Frugal(g, Without(seqs, v), Without(kept, v), evicted + [g.seqs[kept[v]]], index)
  {
    assert Need(seqs[index], g.blockSize, g.ctx) == Need(g.seqs[index], g.blockSize, g.ctx);
    assert seqs[v] == g.seqs[kept[v]] by {
      assert Thrifty(g, g.seqs[kept[v]], seqs[v], index <= v);
    }
    hide Senior, Full, Need, Reservations, Without, Thrifty;
    ReservationsWithout(seqs, v);
    OlderStay(seqs, v);
    OlderStay(kept, v);
    ThriftyWithout(g, seqs, kept, index, v);
  }

  lemma ThriftyWithout(g: Start, seqs: seq<JobSeq>, kept: seq<nat>, index: nat, v: nat)
    requires g.blockSize >= 1 && |kept| == |seqs| && index < v < |seqs|
    requires forall k :: 0 <= k < |seqs| ==> kept[k] < |g.seqs| && (k != index ==> Thrifty(g, g.seqs[kept[k]], seqs[k], index <= k))
    ensures forall k :: 0 <= k < |seqs| - 1 ==>
      Without(kept, v)[k] < |g.seqs| && (k != index ==> Thrifty(g, g.seqs[Without(kept, v)[k]], Without(seqs, v)[k], index <= k))
  {
    hide Thrifty;
    forall k | 0 <= k < |seqs| - 1
      ensures Without(kept, v)[k] < |g.seqs|
      ensures k != index ==> Thrifty(g, g.seqs[Without(kept, v)[k]], Without(seqs, v)[k], index <= k)
    {
      var i := if k < v then k else k + 1;
      assert i != index ==> Thrifty(g, g.seqs[kept[i]], seqs[i], index <= i);
    }
  }

  /** Evictions go from the youngest to the older: `gone[i]` is where the `i`-th evicted stood. */
  ghost predicate Falling(g: Start, kept: seq<nat>, evicted: seq<JobSeq>, gone: seq<nat>) {
    && |gone| == |evicted|
    && (forall i :: 0 <= i < |gone| ==> gone[i] < |g.seqs| && g.seqs[gone[i]] == evicted[i] && gone[i] !in kept)
    && (forall i, j :: 0 <= i < j < |gone| ==> gone[j] < gone[i])
  }

  lemma FallsFurther(g: Start, seqs: seq<JobSeq>, kept: seq<nat>, evicted: seq<JobSeq>, gone: seq<nat>, v: nat)
    requires Survive(g.seqs, seqs, kept) && YoungestFirst(g, kept) && Falling(g, kept, evicted, gone)
    requires v < |seqs| && !seqs[v].finished && kept[v] != Senior(g.seqs)
    ensures Falling(g, Without(kept, v), evicted + [g.seqs[kept[v]]], gone + [kept[v]])
  {
    assert OnlyGranted(g.seqs[kept[v]], seqs[v]);
    hide Senior;
    var rest := Without(kept, v);
    forall i | 0 <= i < |rest|
      ensures rest[i] in kept && rest[i] != kept[v]
    {
      var k := if i < v then i else i + 1;
      assert rest[i] == kept[k];
    }
  }

  lemma NobodyFell(g: Start, kept: seq<nat>)
    ensures Falling(g, kept, [], [])
  {
  }

  /** The whole pass. */
  method GrantKvGrowth(kv: KvBudget, ctx: nat, active: ActiveSet<JobMeta>, resume: seq<ResumedJob>, decoder: LlamaDecoder)
    returns (resume': seq<ResumedJob>, ghost kept: seq<nat>, ghost evicted: seq<JobSeq>, ghost gone: seq<nat>)
    requires decoder.Valid() && kv.blockSize >= 1 && InLockstep(active.seqs, decoder.lanes)
    requires Reservations(active.seqs) <= kv.totalBlocks
    modifies active, decoder.Repr()
    ensures decoder.Valid()
    ensures kv.totalBlocks == USIZE_MAX ==>
      active.seqs == old(active.seqs) && decoder.lanes == old(decoder.lanes) && resume' == resume
    ensures kv.totalBlocks != USIZE_MAX ==>
      var g := Start(old(active.seqs), old(decoder.lanes), resume, kv.blockSize, kv.totalBlocks, ctx);
      && Steady(g, active.seqs, decoder.lanes, resume', kept, evicted)
      && Deciding(g, active.seqs, evicted, |active.seqs|)
      && ToppedUp(g, active.seqs) && Frugal(g, active.seqs, kept, evicted, |active.seqs|) && Falling(g, kept, evicted, gone)
  {
    hide ToppedUp, Frugal, Falling, LlamaDecoder.Valid, Steady, Deciding, AllFull, Need, Full, InLockstep;
    resume', kept, evicted, gone := resume, seq(|active.seqs|, k => k), [], [];
    if kv.totalBlocks == USIZE_MAX {
      return;
    }
    ghost var g := Start(active.seqs, decoder.lanes, resume, kv.blockSize, kv.totalBlocks, ctx);
    SteadyAtStart(g);
    NobodyFell(g, kept);
    var senior := Senior(active.seqs);
    var reserved := TopUpSenior(kv, ctx, active, senior, decoder.lanes, g);
    var index: nat := 0;
    while index < |active.seqs|
      invariant decoder.Valid() && index <= |active.seqs|
      invariant Steady(g, active.seqs, decoder.lanes, resume', kept, evicted)
      invariant Deciding(g, active.seqs, evicted, index)
      invariant ToppedUp(g, active.seqs) && Frugal(g, active.seqs, kept, evicted, index) && Falling(g, kept, evicted, gone)
      invariant reserved == Reservations(active.seqs) <= kv.totalBlocks
      decreases |active.seqs| - index
    {
      reserved, resume', index, kept, evicted, gone := GrantNext(kv, ctx, active, resume', decoder, reserved, senior, index, g, kept, evicted, gone);
    }
  }

  /** Top the senior up toward its full worst case, out of whatever slack there is. */
  method TopUpSenior(kv: KvBudget, ctx: nat, active: ActiveSet<JobMeta>, senior: nat, ghost lanes: seq<seq<Token>>, ghost g: Start)
    returns (reserved: nat)
    requires g.blockSize == kv.blockSize >= 1 && g.totalBlocks == kv.totalBlocks && g.ctx == ctx && g.seqs == active.seqs
    requires senior == Senior(active.seqs) && Reservations(active.seqs) <= kv.totalBlocks
    requires Steady(g, active.seqs, lanes, g.resume, seq(|g.seqs|, k => k), []) && Deciding(g, active.seqs, [], 0)
    modifies active
    ensures Steady(g, active.seqs, lanes, g.resume, seq(|g.seqs|, k => k), []) && Deciding(g, active.seqs, [], 0)
    ensures ToppedUp(g, active.seqs) && Frugal(g, active.seqs, seq(|g.seqs|, k => k), [], 0)
    ensures reserved == Reservations(active.seqs) <= kv.totalBlocks
    ensures |active.seqs| == |old(active.seqs)|
  {
    hide Steady, Deciding, Reservations;
    reserved := Reservations(active.seqs);
    if senior < |active.seqs| {
      var s := active.seqs[senior];
      var worst := |s.tokens| + (if s.generated <= s.maxGen then s.maxGen - s.generated else 0);
      var full := CeilDiv(Min(worst, ctx), kv.blockSize);
      if full > s.kvReservation {
        var take := Min(full - s.kvReservation, kv.totalBlocks - reserved);
        var topped := s.(kvReservation := s.kvReservation + take);
        TopUp(g, lanes, senior, topped);
        active.seqs := active.seqs[senior := topped];
        reserved := reserved + take;
      }
    }
    FrugalAtStart(g, active.seqs, seq(|g.seqs|, k => k));
  }

  lemma TopUp(g: Start, lanes: seq<seq<Token>>, senior: nat, topped: JobSeq)
    requires senior == Senior(g.seqs) < |g.seqs| && g.blockSize >= 1
    requires Steady(g, g.seqs, lanes, g.resume, seq(|g.seqs|, k => k), []) && Deciding(g, g.seqs, [], 0)
    requires OnlyGranted(g.seqs[senior], topped) && !AllFull(g)
    requires topped.kvReservation - g.seqs[senior].kvReservation <= g.totalBlocks - Reservations(g.seqs)
    ensures Steady(g, g.seqs[senior := topped], lanes, g.resume, seq(|g.seqs|, k => k), [])
    ensures Deciding(g, g.seqs[senior := topped], [], 0)
    ensures Reservations(g.seqs[senior := topped]) == Reservations(g.seqs) + topped.kvReservation - g.seqs[senior].kvReservation
  {
    hide Steady, Senior, Reservations, Full, Need, AllFull, HeldByFinished;
    RegrantSteady(g, g.seqs, lanes, g.resume, seq(|g.seqs|, k => k), [], senior, topped);
  }

  /** Decide the sequence at `index`, or evict the youngest and look again. */
  method GrantNext(kv: KvBudget, ctx: nat, active: ActiveSet<JobMeta>, resume: seq<ResumedJob>, decoder: LlamaDecoder, reserved: nat, senior: nat, index: nat, ghost g: Start, ghost kept: seq<nat>, ghost evicted: seq<JobSeq>, ghost gone: seq<nat>)
    returns (reserved': nat, resume': seq<ResumedJob>, index': nat, ghost kept': seq<nat>, ghost evicted': seq<JobSeq>, ghost gone': seq<nat>)
    requires decoder.Valid() && g.blockSize == kv.blockSize >= 1 && g.totalBlocks == kv.totalBlocks && g.ctx == ctx
    requires senior == Senior(g.seqs) && index < |active.seqs|
    requires Steady(g, active.seqs, decoder.lanes, resume, kept, evicted) && Deciding(g, active.seqs, evicted, index)
    requires ToppedUp(g, active.seqs) && Frugal(g, active.seqs, kept, evicted, index) && Falling(g, kept, evicted, gone)
    requires reserved == Reservations(active.seqs) <= kv.totalBlocks
    modifies active, decoder.Repr()
    ensures decoder.Valid() && index' <= |active.seqs|
    ensures Steady(g, active.seqs, decoder.lanes, resume', kept', evicted') && Deciding(g, active.seqs, evicted', index')
    ensures ToppedUp(g, active.seqs) && Frugal(g, active.seqs, kept', evicted', index') && Falling(g, kept', evicted', gone')
    ensures reserved' == Reservations(active.seqs) <= kv.totalBlocks
    ensures |active.seqs| - index' < |old(active.seqs)| - index
  {
    hide LlamaDecoder.Valid, Steady, Deciding, AllFull, Full, Reservations, ToppedUp, Frugal, Falling, Survive, JobsConserved, InLockstep;
    SeniorIsSteady(g, active.seqs, decoder.lanes, resume, kept, evicted);
    ghost var was := active.seqs;
    reserved', resume', index', kept', evicted', gone' := reserved, resume, index + 1, kept, evicted, gone;
    var s := active.seqs[index];
    if s.finished {
      KeepOne(g, active.seqs, decoder.lanes, resume, kept, evicted, index, s);
      FrugalRegrant(g, active.seqs, kept, evicted, index, s);
      return;
    }
    var need := CeilDiv(Min(|s.tokens|, ctx), kv.blockSize);
    if need <= s.kvReservation {
      KeepOne(g, active.seqs, decoder.lanes, resume, kept, evicted, index, s.(paused := false));
      FrugalRegrant(g, active.seqs, kept, evicted, index, s.(paused := false));
      active.seqs := active.seqs[index := s.(paused := false)];
      StaysToppedUp(g, was, active.seqs);
      return;
    }
    if AllFullNow(g) {
      FullNeverLacks(g, active.seqs, evicted, index);
    }
    var delta := need - s.kvReservation;
    if delta <= kv.totalBlocks - reserved {
      var grown := s.(kvReservation := s.kvReservation + delta, paused := false);
      GrowOne(g, active.seqs, decoder.lanes, resume, kept, evicted, index, grown);
      FrugalRegrant(g, active.seqs, kept, evicted, index, grown);
      active.seqs := active.seqs[index := grown];
      reserved' := reserved + delta;
      StaysToppedUp(g, was, active.seqs);
      return;
    }
    if index == senior {
      var victim := Victim(active.seqs, index);
      if victim.Some? {
        var v := victim.value;
        var leaving := active.seqs[v];
        SomebodyIsSenior(g, active.seqs, kept, index);
        EvictOne(g, active.seqs, decoder.lanes, resume, kept, evicted, index, v);
        FrugalEvict(g, active.seqs, kept, evicted, index, v);
        YoungerFalls(g, active.seqs, decoder.lanes, resume, kept, evicted, gone, index, v);
        kept', evicted', gone' := Without(kept, v), evicted + [g.seqs[kept[v]]], gone + [kept[v]];
        active.seqs := Without(active.seqs, v);
        reserved' := reserved - leaving.kvReservation;
        decoder.Release(leaving.slot);
        resume' := resume + [Park(leaving)];
        index' := index;
        StaysToppedUp(g, was, active.seqs);
        return;
      }
    }
    PauseOne(g, active.seqs, decoder.lanes, resume, kept, evicted, index, s.(paused := true));
    FrugalRegrant(g, active.seqs, kept, evicted, index, s.(paused := true));
    active.seqs := active.seqs[index := s.(paused := true)];
    StaysToppedUp(g, was, active.seqs);
  }

  ghost predicate AllFullNow(g: Start)
    requires g.blockSize >= 1
  {
    AllFull(g)
  }

  lemma SeniorIsSteady(g: Start, seqs: seq<JobSeq>, lanes: seq<seq<Token>>, resume: seq<ResumedJob>, kept: seq<nat>, evicted: seq<JobSeq>)
    requires Steady(g, seqs, lanes, resume, kept, evicted)
    ensures SeniorStands(g, seqs) && Reservations(seqs) <= g.totalBlocks && Survive(g.seqs, seqs, kept)
  {
    hide InLockstep, JobsConserved;
    if Senior(g.seqs) < |g.seqs| {
      assert OnlyGranted(g.seqs[kept[Senior(g.seqs)]], seqs[Senior(g.seqs)]);
    }
  }

  lemma YoungerFalls(g: Start, seqs: seq<JobSeq>, lanes: seq<seq<Token>>, resume: seq<ResumedJob>, kept: seq<nat>, evicted: seq<JobSeq>, gone: seq<nat>, index: nat, v: nat)
    requires Steady(g, seqs, lanes, resume, kept, evicted) && Falling(g, kept, evicted, gone)
    requires index == Senior(g.seqs) < |g.seqs| && index < v < |seqs| && !seqs[v].finished
    ensures v < |kept| && kept[v] < |g.seqs| && Falling(g, Without(kept, v), evicted + [g.seqs[kept[v]]], gone + [kept[v]])
  {
    hide InLockstep, JobsConserved, Reservations, HeldByFinished, YoungestFirst, Falling, Senior;
    assert kept[index] < kept[v];
    FallsFurther(g, seqs, kept, evicted, gone, v);
  }

  lemma SomebodyIsSenior(g: Start, seqs: seq<JobSeq>, kept: seq<nat>, i: nat)
    requires Survive(g.seqs, seqs, kept) && i < |seqs| && !seqs[i].finished
    ensures Senior(g.seqs) < |g.seqs|
  {
    assert OnlyGranted(g.seqs[kept[i]], seqs[i]);
  }

  lemma KeepOne(g: Start, seqs: seq<JobSeq>, lanes: seq<seq<Token>>, resume: seq<ResumedJob>, kept: seq<nat>, evicted: seq<JobSeq>, index: nat, s': JobSeq)
    requires Steady(g, seqs, lanes, resume, kept, evicted) && Deciding(g, seqs, evicted, index) && index < |seqs|
    requires OnlyGranted(seqs[index], s') && s'.kvReservation == seqs[index].kvReservation
    requires s'.finished || (!s'.paused && Need(s', g.blockSize, g.ctx) <= s'.kvReservation)
    ensures Steady(g, seqs[index := s'], lanes, resume, kept, evicted) && Deciding(g, seqs[index := s'], evicted, index + 1)
    ensures Reservations(seqs[index := s']) == Reservations(seqs)
    ensures s' == seqs[index] ==> seqs[index := s'] == seqs
  {
    hide Steady, Deciding, Need, Reservations, HeldByFinished, AllFull;
    SeniorIsSteady(g, seqs, lanes, resume, kept, evicted);
    RegrantSteady(g, seqs, lanes, resume, kept, evicted, index, s');
    if index == Senior(g.seqs) < |g.seqs| {
      CoveredSenior(g, seqs[index := s'], lanes, resume, kept, evicted, index);
    }
    DecideOne(g, seqs, evicted, index, s');
  }

  lemma GrowOne(g: Start, seqs: seq<JobSeq>, lanes: seq<seq<Token>>, resume: seq<ResumedJob>, kept: seq<nat>, evicted: seq<JobSeq>, index: nat, s': JobSeq)
    requires Steady(g, seqs, lanes, resume, kept, evicted) && Deciding(g, seqs, evicted, index) && index < |seqs|
    requires !seqs[index].finished && OnlyGranted(seqs[index], s') && !s'.paused && !AllFull(g)
    requires s'.kvReservation == Need(s', g.blockSize, g.ctx)
    requires s'.kvReservation - seqs[index].kvReservation <= g.totalBlocks - Reservations(seqs)
    ensures Steady(g, seqs[index := s'], lanes, resume, kept, evicted) && Deciding(g, seqs[index := s'], evicted, index + 1)
    ensures Reservations(seqs[index := s']) == Reservations(seqs) + s'.kvReservation - seqs[index].kvReservation
  {
    hide Steady, Deciding, Need, Reservations, HeldByFinished, AllFull;
    SeniorIsSteady(g, seqs, lanes, resume, kept, evicted);
    RegrantSteady(g, seqs, lanes, resume, kept, evicted, index, s');
    if index == Senior(g.seqs) < |g.seqs| {
      CoveredSenior(g, seqs[index := s'], lanes, resume, kept, evicted, index);
    }
    DecideOne(g, seqs, evicted, index, s');
  }

  lemma PauseOne(g: Start, seqs: seq<JobSeq>, lanes: seq<seq<Token>>, resume: seq<ResumedJob>, kept: seq<nat>, evicted: seq<JobSeq>, index: nat, s': JobSeq)
    requires Steady(g, seqs, lanes, resume, kept, evicted) && Deciding(g, seqs, evicted, index) && index < |seqs|
    requires !seqs[index].finished && s' == seqs[index].(paused := true) && !AllFull(g)
    requires Need(seqs[index], g.blockSize, g.ctx) > seqs[index].kvReservation
    requires Need(seqs[index], g.blockSize, g.ctx) - seqs[index].kvReservation > g.totalBlocks - Reservations(seqs)
    requires index == Senior(g.seqs) ==> Victim(seqs, index).None?
    ensures Steady(g, seqs[index := s'], lanes, resume, kept, evicted) && Deciding(g, seqs[index := s'], evicted, index + 1)
    ensures Reservations(seqs[index := s']) == Reservations(seqs)
  {
    assert Need(s', g.blockSize, g.ctx) == Need(seqs[index], g.blockSize, g.ctx);
    hide Steady, Deciding, Need, Reservations, HeldByFinished, AllFull, Victim;
    SeniorIsSteady(g, seqs, lanes, resume, kept, evicted);
    RegrantSteady(g, seqs, lanes, resume, kept, evicted, index, s');
    if index == Senior(g.seqs) < |g.seqs| {
      LonelySenior(g, seqs, lanes, resume, kept, evicted, index);
    }
    DecideOne(g, seqs, evicted, index, s');
  }

  lemma EvictOne(g: Start, seqs: seq<JobSeq>, lanes: seq<seq<Token>>, resume: seq<ResumedJob>, kept: seq<nat>, evicted: seq<JobSeq>, index: nat, v: nat)
    requires Steady(g, seqs, lanes, resume, kept, evicted) && Deciding(g, seqs, evicted, index) && !AllFull(g)
    requires index == Senior(g.seqs) < v < |seqs| && !seqs[v].finished
    requires forall i :: v < i < |seqs| ==> seqs[i].finished
    ensures v < |kept| && kept[v] < |g.seqs| && seqs[v].slot < |lanes|
    ensures Steady(g, Without(seqs, v), lanes[seqs[v].slot := []], resume + [Park(seqs[v])], Without(kept, v), evicted + [g.seqs[kept[v]]])
    ensures Deciding(g, Without(seqs, v), evicted + [g.seqs[kept[v]]], index)
    ensures Reservations(Without(seqs, v)) == Reservations(seqs) - seqs[v].kvReservation
  {
    hide Deciding, AllFull, Senior, Reservations, HeldByFinished, YoungestFirst;
    EvictSteady(g, seqs, lanes, resume, kept, evicted, v);
    OlderFinished(g, seqs, kept, index);
    DecideEvict(g, seqs, evicted, index, v, g.seqs[kept[v]]);
    assert Slots(seqs)[v] == seqs[v].slot;
  }
}
