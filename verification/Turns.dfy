/** One turn of the worker on values: why each step keeps the invariant, and why the turn makes
    progress. The methods that perform the steps are in `Workers`. */
module Turns {
  import opened Arithmetic
  import opened Wrappers
  import opened Pools
  import opened Decoders
  import opened Batching
  import opened Errors
  import opened Events
  import opened Serving
  import opened Growth

  // ---- What leaves a job in flight alone ----

  /** A job in flight does not notice later admissions, nor events about other jobs. */
  lemma InFlightFrame(env: Env, jobs: seq<Job>, events: seq<EmissionEvent>, jobs': seq<Job>, events': seq<EmissionEvent>, tokens: seq<Token>, generated: nat, maxGen: nat, extra: JobMeta)
    requires env.blockSize >= 1 && InFlight(env, jobs, events, tokens, generated, maxGen, extra)
    requires jobs <= jobs' && Track(events', extra.id) == Track(events, extra.id)
    ensures InFlight(env, jobs', events', tokens, generated, maxGen, extra)
  {
  }

  ghost predicate DistinctIds(seqs: seq<JobSeq>) {
    forall i, j :: 0 <= i < j < |seqs| ==> seqs[i].extra.id != seqs[j].extra.id
  }

  /** Two active positions carry different ids, and no active id is parked. */
  lemma IdsAreDistinct(st: State)
    requires forall id: nat :: Flights(st, id) <= 1
    ensures DistinctIds(st.active)
    ensures forall i, k :: 0 <= i < |st.active| && 0 <= k < |st.resume| ==> st.active[i].extra.id != st.resume[k].extra.id
  {
    forall i, j | 0 <= i < j < |st.active|
      ensures st.active[i].extra.id != st.active[j].extra.id
    {
      assert Flights(st, Ids(st.active)[i]) <= 1;
      if Ids(st.active)[i] == Ids(st.active)[j] {
        TwiceInTable(Ids(st.active), i, j);
      }
    }
    forall i, k | 0 <= i < |st.active| && 0 <= k < |st.resume|
      ensures st.active[i].extra.id != st.resume[k].extra.id
    {
      assert st.active[i].extra.id in multiset(Ids(st.active)) by {
        assert Ids(st.active)[i] == st.active[i].extra.id;
      }
      assert st.resume[k].extra.id in multiset(ParkedIds(st.resume)) by {
        assert ParkedIds(st.resume)[k] == st.resume[k].extra.id;
      }
      assert Flights(st, st.active[i].extra.id) <= 1;
    }
  }

  /** Housing looks only at slots, tokens, cursors and reservations. */
  lemma HousedFrame(env: Env, before: seq<JobSeq>, after: seq<JobSeq>, lanes: seq<seq<Token>>)
    requires Housed(env, before, lanes) && |after| == |before|
    requires forall i :: 0 <= i < |after| ==>
      && after[i].slot == before[i].slot && after[i].tokens == before[i].tokens
      && after[i].processed == before[i].processed && after[i].kvReservation == before[i].kvReservation
    ensures Housed(env, after, lanes)
  {
    assert Slots(after) == Slots(before);
    SameReservations(after, before);
    forall i | 0 <= i < |after|
      ensures lanes[Slots(after)[i]] == after[i].tokens[..after[i].processed]
    {
      assert lanes[Slots(before)[i]] == before[i].tokens[..before[i].processed];
    }
  }

  // ---- The cancel sweep ----

  /** A fired signal finishes its sequence and records why. */
  function Sweep(s: JobSeq, cancelled: set<Ticket>): JobSeq {
    if !s.finished && s.extra.ticket in cancelled then s.(finished := true, extra := s.extra.(cancelled := true)) else s
  }

  function SweepAll(active: seq<JobSeq>, cancelled: set<Ticket>): (r: seq<JobSeq>)
    ensures |r| == |active|
  {
    seq(|active|, i requires 0 <= i < |active| => Sweep(active[i], cancelled))
  }

  /** The state after the sweep; the signals that fired are remembered. */
  function Swept(st: State, cancelled: set<Ticket>): State {
    st.(active := SweepAll(st.active, cancelled), fired := st.fired + cancelled)
  }

  lemma SweepKeepsRunning(env: Env, st: State, cancelled: set<Ticket>)
    requires Inv(env, st)
    ensures Running(env, Swept(st, cancelled))
  {
    var swept := SweepAll(st.active, cancelled);
    var st' := Swept(st, cancelled);
    hide Housed, SeqOk, Flights, Resolved, Accounted;
    HousedFrame(env, st.active, swept, st.lanes);
    FlightsByIds(st, st');
    forall i | 0 <= i < |swept|
      ensures SeqOk(env, st.jobs, st.events, swept[i])
    {
      SweepSeqOk(env, st.jobs, st.events, st.active[i], cancelled);
    }
    SameFlights(env, st, st');
  }

  lemma FlightsByIds(st: State, st': State)
    requires |st'.active| == |st.active| && st'.resume == st.resume
    requires forall i :: 0 <= i < |st.active| ==> st'.active[i].extra.id == st.active[i].extra.id
    ensures forall id: nat :: Flights(st', id) == Flights(st, id)
  {
    assert Ids(st'.active) == Ids(st.active);
  }

  lemma SweepSeqOk(env: Env, jobs: seq<Job>, events: seq<EmissionEvent>, s: JobSeq, cancelled: set<Ticket>)
    requires env.blockSize >= 1 && SeqOk(env, jobs, events, s)
    ensures SeqOk(env, jobs, events, Sweep(s, cancelled))
  {
    hide OnCourse, Track, Detok;
  }

  /** A step that sends nothing and loses nobody keeps the invariant. */
  lemma SameFlights(env: Env, st: State, st': State)
    requires Running(env, st) && Housed(env, st'.active, st'.lanes)
    requires st'.jobs == st.jobs && st'.events == st.events
    requires st'.queue == st.queue && st'.answers == st.answers && st'.submitted == st.submitted
    requires AllOk(env, st.jobs, st.events, st'.active, st'.resume)
    requires forall id: nat :: Flights(st', id) == Flights(st, id)
    ensures Running(env, st')
  {
    hide Housed, AllOk, Answered, Flights;
  }

  // ---- The growth grants ----

  /** The promise a granted set carries into the round. */
  lemma GrantedIsPromised(env: Env, g: Start, seqs: seq<JobSeq>, lanes: seq<seq<Token>>, resume: seq<ResumedJob>, kept: seq<nat>, evicted: seq<JobSeq>)
    requires Housed(env, g.seqs, g.lanes) && g.blockSize == env.blockSize && g.totalBlocks == env.totalBlocks && g.ctx == env.ctx
    requires Steady(g, seqs, lanes, resume, kept, evicted) && Deciding(g, seqs, evicted, |seqs|)
    ensures Housed(env, seqs, lanes)
    ensures Promised(seqs, lanes, env.blockSize, env.totalBlocks, env.ctx)
  {
    hide Deciding, Covered, Survive, OnlyGranted, InLockstep, JobsConserved, YoungestFirst, HeldByFinished, Senior, Reservations;
    forall i | 0 <= i < |seqs|
      ensures CeilDiv(seqs[i].processed, env.blockSize) <= seqs[i].kvReservation
      ensures !seqs[i].finished && !seqs[i].paused && |seqs[i].tokens| <= env.ctx ==>
        CeilDiv(|seqs[i].tokens|, env.blockSize) <= seqs[i].kvReservation
    {
      OneIsCovered(g, seqs, kept, evicted, i);
    }
  }

  lemma OneIsCovered(g: Start, seqs: seq<JobSeq>, kept: seq<nat>, evicted: seq<JobSeq>, i: nat)
    requires Survive(g.seqs, seqs, kept) && Deciding(g, seqs, evicted, |seqs|) && i < |seqs| && g.blockSize >= 1
    requires forall k :: 0 <= k < |g.seqs| ==> CeilDiv(g.seqs[k].processed, g.blockSize) <= g.seqs[k].kvReservation
    ensures CeilDiv(seqs[i].processed, g.blockSize) <= seqs[i].kvReservation
    ensures !seqs[i].finished && !seqs[i].paused && |seqs[i].tokens| <= g.ctx ==> CeilDiv(|seqs[i].tokens|, g.blockSize) <= seqs[i].kvReservation
  {
    hide PausedForCause, SeniorServed, AllFull, Senior, Reservations;
    assert OnlyGranted(g.seqs[kept[i]], seqs[i]);
    assert Covered(seqs[i], g.blockSize, g.ctx);
  }

  /** Granting, pausing and evicting keep every job in flight, once, and on course. */
  lemma GrantKeepsRunning(env: Env, st: State, g: Start, seqs: seq<JobSeq>, lanes: seq<seq<Token>>, resume: seq<ResumedJob>, kept: seq<nat>, evicted: seq<JobSeq>)
    requires Running(env, st)
    requires g == Start(st.active, st.lanes, st.resume, env.blockSize, env.totalBlocks, env.ctx)
    requires Steady(g, seqs, lanes, resume, kept, evicted) && Deciding(g, seqs, evicted, |seqs|)
    ensures Running(env, st.(active := seqs, lanes := lanes, resume := resume))
  {
    var st' := st.(active := seqs, lanes := lanes, resume := resume);
    hide Housed, Deciding, SeqOk, ParkedOk, Resolved, Flights, Accounted, JobsConserved, Survive, InLockstep;
    GrantedIsPromised(env, g, seqs, lanes, resume, kept, evicted);
    GrantFlights(st, seqs, lanes, resume, evicted);
    GrantedSeqsOk(env, st, seqs, kept);
    ParkedJobsOk(env, st, resume, evicted);
    SameFlights(env, st, st');
  }

  lemma GrantFlights(st: State, seqs: seq<JobSeq>, lanes: seq<seq<Token>>, resume: seq<ResumedJob>, evicted: seq<JobSeq>)
    requires JobsConserved(st.active, seqs, evicted) && resume == st.resume + ParkAll(evicted)
    ensures forall id: nat :: Flights(st.(active := seqs, lanes := lanes, resume := resume), id) == Flights(st, id)
  {
    assert ParkedIds(resume) == ParkedIds(st.resume) + Ids(evicted);
  }

  lemma GrantedSeqsOk(env: Env, st: State, seqs: seq<JobSeq>, kept: seq<nat>)
    requires env.blockSize >= 1 && Survive(st.active, seqs, kept)
    requires forall i :: 0 <= i < |st.active| ==> SeqOk(env, st.jobs, st.events, st.active[i])
    ensures forall i :: 0 <= i < |seqs| ==> SeqOk(env, st.jobs, st.events, seqs[i])
  {
    hide InFlight;
    forall i | 0 <= i < |seqs|
      ensures SeqOk(env, st.jobs, st.events, seqs[i])
    {
      assert OnlyGranted(st.active[kept[i]], seqs[i]);
      assert SeqOk(env, st.jobs, st.events, st.active[kept[i]]);
    }
  }

  lemma ParkedJobsOk(env: Env, st: State, resume: seq<ResumedJob>, evicted: seq<JobSeq>)
    requires env.blockSize >= 1 && resume == st.resume + ParkAll(evicted)
    requires forall i :: 0 <= i < |evicted| ==> evicted[i] in st.active && !evicted[i].finished
    requires forall i :: 0 <= i < |st.active| ==> SeqOk(env, st.jobs, st.events, st.active[i])
    requires forall i :: 0 <= i < |st.resume| ==> ParkedOk(env, st.jobs, st.events, st.resume[i])
    ensures forall i :: 0 <= i < |resume| ==> ParkedOk(env, st.jobs, st.events, resume[i])
  {
    hide InFlight;
    forall i | |st.resume| <= i < |resume|
      ensures ParkedOk(env, st.jobs, st.events, resume[i])
    {
      var e := evicted[i - |st.resume|];
      assert resume[i] == Park(e);
      var k :| 0 <= k < |st.active| && st.active[k] == e;
      assert SeqOk(env, st.jobs, st.events, st.active[k]);
    }
  }

  // ---- The round ----

  /** Why the retiring sequence ended, as reported to its caller. */
  function ReasonOf(s: JobSeq): FinishReason {
    if s.extra.cancelled then Aborted
    else if s.extra.hitStop then Stop
    else if s.generated >= s.maxGen then Length
    else Stop
  }

  /** A round's outcome noted on its sequence. */
  function Noted(s: JobSeq, outcome: StepOutcome): JobSeq {
    if outcome.Stepped? && outcome.isStop then s.(extra := s.extra.(hitStop := true)) else s
  }

  function NotedAll(seqs: seq<JobSeq>, outcomes: seq<StepOutcome>): (r: seq<JobSeq>)
    requires |outcomes| == |seqs|
    ensures |r| == |seqs|
  {
    seq(|seqs|, i requires 0 <= i < |seqs| => Noted(seqs[i], outcomes[i]))
  }

  function FailureOf(s: JobSeq, outcome: StepOutcome): seq<EmissionEvent> {
    if outcome.Failed? then [Retire(s.extra.id, Err(outcome.error))] else []
  }

  /** A stop token is not streamed. */
  function TokenOf(server: Server, s: JobSeq, outcome: StepOutcome): seq<(nat, seq<Byte>)> {
    if outcome.Stepped? && !outcome.isStop then [(s.extra.id, server.bytes(outcome.token))] else []
  }

  /** The failed sequences' replies, in order. */
  function FailEvents(seqs: seq<JobSeq>, outcomes: seq<StepOutcome>, n: nat): seq<EmissionEvent>
    requires n <= |seqs| == |outcomes|
  {
    if n == 0 then [] else FailEvents(seqs, outcomes, n - 1) + FailureOf(seqs[n - 1], outcomes[n - 1])
  }

  /** The round's streamable tokens, as bytes. */
  function RoundTokens(server: Server, seqs: seq<JobSeq>, outcomes: seq<StepOutcome>, n: nat): seq<(nat, seq<Byte>)>
    requires n <= |seqs| == |outcomes|
  {
    if n == 0 then [] else RoundTokens(server, seqs, outcomes, n - 1) + TokenOf(server, seqs[n - 1], outcomes[n - 1])
  }

  function TokenEvents(batch: seq<(nat, seq<Byte>)>): seq<EmissionEvent> {
    if batch == [] then [] else [EmissionEvent.Tokens(batch)]
  }

  /** Everything a round sends: failures, then one event with all its tokens. */
  function RoundEvents(server: Server, seqs: seq<JobSeq>, outcomes: seq<StepOutcome>): seq<EmissionEvent>
    requires |seqs| == |outcomes|
  {
    FailEvents(seqs, outcomes, |seqs|) + TokenEvents(RoundTokens(server, seqs, outcomes, |seqs|))
  }

  /** A round's failures go out as they come, and all its tokens in one event behind them. */
  lemma RoundIsOneEvent(server: Server, seqs: seq<JobSeq>, outcomes: seq<StepOutcome>)
    requires |seqs| == |outcomes|
    ensures var sent := RoundEvents(server, seqs, outcomes);
      && (forall i :: 0 <= i < |sent| && sent[i].Tokens? ==> i == |sent| - 1)
      && (forall i :: 0 <= i < |sent| && !sent[i].Tokens? ==> sent[i].Retire? && sent[i].reply.Err?)
  {
    FailuresOnly(seqs, outcomes, |seqs|);
  }

  lemma {:induction false} FailuresOnly(seqs: seq<JobSeq>, outcomes: seq<StepOutcome>, n: nat)
    requires n <= |seqs| == |outcomes|
    ensures forall i :: 0 <= i < |FailEvents(seqs, outcomes, n)| ==>
      FailEvents(seqs, outcomes, n)[i].Retire? && FailEvents(seqs, outcomes, n)[i].reply.Err?
  {
    if n > 0 {
      FailuresOnly(seqs, outcomes, n - 1);
    }
  }

  /** What one sequence's outcome does to its own delivery. */
  function Delivered(server: Server, d: Delivery, outcome: StepOutcome): Delivery {
    match outcome
    case Failed(err) => if d.Live? then Done(d.ticket, d.sent, Err(err)) else d
    case Stepped(token, isStop, _) => if d.Live? && !isStop then Live(d.ticket, d.sent + server.bytes(token)) else d
    case _ => d
  }

  /** A failure ends a live delivery and changes nothing else. */
  function Failing(d: Delivery, outcome: StepOutcome): Delivery {
    if outcome.Failed? && d.Live? then Done(d.ticket, d.sent, Err(outcome.error)) else d
  }

  lemma FailStep(events: seq<EmissionEvent>, seqs: seq<JobSeq>, outcomes: seq<StepOutcome>, n: nat, id: nat)
    requires 0 < n <= |seqs| == |outcomes|
    ensures var before := Track(events + FailEvents(seqs, outcomes, n - 1), id);
      Track(events + FailEvents(seqs, outcomes, n), id) == if seqs[n - 1].extra.id == id then Failing(before, outcomes[n - 1]) else before
  {
    var before := FailEvents(seqs, outcomes, n - 1);
    if outcomes[n - 1].Failed? {
      var event := Retire(seqs[n - 1].extra.id, Err(outcomes[n - 1].error));
      assert events + FailEvents(seqs, outcomes, n) == (events + before) + [event];
      TrackAppend(events + before, event, id);
    } else {
      assert FailEvents(seqs, outcomes, n) == before;
    }
  }

  lemma {:induction false} FailsMiss(events: seq<EmissionEvent>, seqs: seq<JobSeq>, outcomes: seq<StepOutcome>, n: nat, id: nat)
    requires n <= |seqs| == |outcomes| && forall k :: 0 <= k < n ==> seqs[k].extra.id != id
    ensures Track(events + FailEvents(seqs, outcomes, n), id) == Track(events, id)
  {
    if n == 0 {
      assert events + [] == events;
    } else {
      FailsMiss(events, seqs, outcomes, n - 1, id);
      FailStep(events, seqs, outcomes, n, id);
    }
  }

  lemma {:induction false} FailsHit(events: seq<EmissionEvent>, seqs: seq<JobSeq>, outcomes: seq<StepOutcome>, n: nat, k: nat)
    requires k < n <= |seqs| == |outcomes| && DistinctIds(seqs)
    ensures Track(events + FailEvents(seqs, outcomes, n), seqs[k].extra.id) == Failing(Track(events, seqs[k].extra.id), outcomes[k])
  {
    hide Track, FailEvents, Failing;
    FailStep(events, seqs, outcomes, n, seqs[k].extra.id);
    if k == n - 1 {
      FailsMiss(events, seqs, outcomes, k, seqs[k].extra.id);
    } else {
      FailsHit(events, seqs, outcomes, n - 1, k);
    }
  }

  lemma BatchAppend(before: seq<(nat, seq<Byte>)>, more: seq<(nat, seq<Byte>)>, id: nat)
    requires |more| <= 1
    ensures BatchBytes(before + more, id) == BatchBytes(before, id) + if |more| == 1 && more[0].0 == id then more[0].1 else []
  {
    if more == [] {
      assert before + more == before;
    } else {
      assert (before + more)[..|before|] == before;
    }
  }

  lemma BatchStep(server: Server, seqs: seq<JobSeq>, outcomes: seq<StepOutcome>, n: nat, id: nat)
    requires 0 < n <= |seqs| == |outcomes|
    ensures BatchBytes(RoundTokens(server, seqs, outcomes, n), id)
      == BatchBytes(RoundTokens(server, seqs, outcomes, n - 1), id) + if seqs[n - 1].extra.id == id then BytesOf(server, outcomes[n - 1]) else []
  {
    var before, more := RoundTokens(server, seqs, outcomes, n - 1), TokenOf(server, seqs[n - 1], outcomes[n - 1]);
    assert RoundTokens(server, seqs, outcomes, n) == before + more;
    BatchAppend(before, more, id);
  }

  /** The bytes an outcome streams. */
  function BytesOf(server: Server, outcome: StepOutcome): seq<Byte> {
    if outcome.Stepped? && !outcome.isStop then server.bytes(outcome.token) else []
  }

  lemma {:induction false} BatchMiss(server: Server, seqs: seq<JobSeq>, outcomes: seq<StepOutcome>, n: nat, id: nat)
    requires n <= |seqs| == |outcomes| && forall k :: 0 <= k < n ==> seqs[k].extra.id != id
    ensures BatchBytes(RoundTokens(server, seqs, outcomes, n), id) == []
  {
    if n > 0 {
      BatchMiss(server, seqs, outcomes, n - 1, id);
      BatchStep(server, seqs, outcomes, n, id);
    }
  }

  lemma {:induction false} BatchHit(server: Server, seqs: seq<JobSeq>, outcomes: seq<StepOutcome>, n: nat, k: nat)
    requires k < n <= |seqs| == |outcomes| && DistinctIds(seqs)
    ensures BatchBytes(RoundTokens(server, seqs, outcomes, n), seqs[k].extra.id) == BytesOf(server, outcomes[k])
  {
    hide RoundTokens, BatchBytes, BytesOf;
    BatchStep(server, seqs, outcomes, n, seqs[k].extra.id);
    if k == n - 1 {
      BatchMiss(server, seqs, outcomes, k, seqs[k].extra.id);
    } else {
      BatchHit(server, seqs, outcomes, n - 1, k);
    }
  }

  lemma BatchApplied(server: Server, events: seq<EmissionEvent>, seqs: seq<JobSeq>, outcomes: seq<StepOutcome>, id: nat)
    requires |seqs| == |outcomes|
    ensures var d := Track(events + FailEvents(seqs, outcomes, |seqs|), id);
      Track(events + RoundEvents(server, seqs, outcomes), id)
      == if d.Live? then Live(d.ticket, d.sent + BatchBytes(RoundTokens(server, seqs, outcomes, |seqs|), id)) else d
  {
    hide FailEvents, RoundTokens, BatchBytes, Track;
    var fails, batch := FailEvents(seqs, outcomes, |seqs|), RoundTokens(server, seqs, outcomes, |seqs|);
    TokensApplied(events + fails, batch, id);
    Regroup(events, fails, TokenEvents(batch));
  }

  lemma TokensApplied(events: seq<EmissionEvent>, batch: seq<(nat, seq<Byte>)>, id: nat)
    ensures var d := Track(events, id);
      Track(events + TokenEvents(batch), id) == if d.Live? then Live(d.ticket, d.sent + BatchBytes(batch, id)) else d
  {
    var d := Track(events, id);
    if batch == [] {
      assert events + TokenEvents(batch) == events;
      assert d.Live? ==> d.sent + [] == d.sent;
    } else {
      TrackAppend(events, EmissionEvent.Tokens(batch), id);
    }
  }

  lemma Regroup<T>(a: seq<T>, b: seq<T>, c: seq<T>)
    ensures a + (b + c) == (a + b) + c
  {
  }

  /** A round's events change each sequence's delivery by its own outcome... */
  lemma RoundHit(server: Server, events: seq<EmissionEvent>, seqs: seq<JobSeq>, outcomes: seq<StepOutcome>, k: nat)
    requires k < |seqs| == |outcomes| && DistinctIds(seqs)
    ensures Track(events + RoundEvents(server, seqs, outcomes), seqs[k].extra.id)
      == Delivered(server, Track(events, seqs[k].extra.id), outcomes[k])
  {
    var id := seqs[k].extra.id;
    FailsHit(events, seqs, outcomes, |seqs|, k);
    BatchHit(server, seqs, outcomes, |seqs|, k);
    BatchApplied(server, events, seqs, outcomes, id);
    var d := Track(events, id);
    assert d.Live? ==> d.sent + [] == d.sent;
  }

  /** ...and no other delivery. */
  lemma RoundMiss(server: Server, events: seq<EmissionEvent>, seqs: seq<JobSeq>, outcomes: seq<StepOutcome>, id: nat)
    requires |seqs| == |outcomes| && forall k :: 0 <= k < |seqs| ==> seqs[k].extra.id != id
    ensures Track(events + RoundEvents(server, seqs, outcomes), id) == Track(events, id)
  {
    FailsMiss(events, seqs, outcomes, |seqs|, id);
    BatchMiss(server, seqs, outcomes, |seqs|, id);
    BatchApplied(server, events, seqs, outcomes, id);
    var d := Track(events, id);
    assert d.Live? ==> d.sent + [] == d.sent;
  }

  /** An answered or unknown delivery does not react to a round at all. */
  lemma {:induction false} SettledDelivery(server: Server, events: seq<EmissionEvent>, seqs: seq<JobSeq>, outcomes: seq<StepOutcome>, id: nat)
    requires |seqs| == |outcomes| && !Track(events, id).Live?
    ensures Track(events + RoundEvents(server, seqs, outcomes), id) == Track(events, id)
  {
    FailsIdle(events, seqs, outcomes, |seqs|, id);
    BatchApplied(server, events, seqs, outcomes, id);
  }

  lemma {:induction false} FailsIdle(events: seq<EmissionEvent>, seqs: seq<JobSeq>, outcomes: seq<StepOutcome>, n: nat, id: nat)
    requires n <= |seqs| == |outcomes| && !Track(events, id).Live?
    ensures Track(events + FailEvents(seqs, outcomes, n), id) == Track(events, id)
  {
    if n == 0 {
      assert events + [] == events;
    } else {
      FailsIdle(events, seqs, outcomes, n - 1, id);
      FailStep(events, seqs, outcomes, n, id);
    }
  }

  /** A sequence after its round was shipped: still on course, or ready for the reply it will get, or
      already answered with its failure. */
  ghost predicate SeqShipped(env: Env, jobs: seq<Job>, events: seq<EmissionEvent>, s: JobSeq)
    requires env.blockSize >= 1
  {
    if !s.finished then SeqOk(env, jobs, events, s)
    else
      && s.extra.id < |jobs|
      && (Answered(env, jobs, events, s.extra.id) || ReadyToAnswer(env, jobs[s.extra.id], Track(events, s.extra.id), s))
  }

  ghost predicate ReadyToAnswer(env: Env, job: Job, d: Delivery, s: JobSeq) {
    d.Live? && d.ticket == job.ticket && Faithful(env, job, d.sent, Ok(ReasonOf(s), s.generated))
  }

  /** The heart of it: whatever the round did to a job in flight, what its caller has received is
      still the beginning of its solo run, and the whole of it if the job is done. */
  lemma OneSeqShipped(env: Env, jobs: seq<Job>, events: seq<EmissionEvent>, events': seq<EmissionEvent>, s: JobSeq, s': JobSeq, outcome: StepOutcome, share: nat)
    requires env.blockSize >= 1 && SeqOk(env, jobs, events, s)
    requires (s', outcome) == Alone(s, share, env.ctx, env.server.stops, env.model, env.server.sample)
    requires Track(events', s.extra.id) == Delivered(env.server, Track(events, s.extra.id), outcome)
    ensures SeqShipped(env, jobs, events', Noted(s', outcome))
    ensures Noted(s', outcome).extra.id == s.extra.id
  {
    var job := jobs[s.extra.id];
    hide WorstBlocks, Track, Faithful;
    match KindOf(s, env.ctx) {
      case Idle =>
        PrefixIsFaithful(env, job, s.tokens, s.generated, Ok(Aborted, s.generated));
      case NoOp =>
        hide Detok;
        assert Solo(env, s.tokens, job.maxGen - s.generated) == [];
        WholeIsFaithful(env, job, GeneratedTokens(job, s.tokens), Ok(ReasonOf(s'), s.generated));
      case TooLong =>
        PrefixIsFaithful(env, job, s.tokens, s.generated, Err(outcome.error));
      case Prompt =>
        if share != 0 && s.processed + share >= |s.tokens| {
          AdvancedShipped(env, jobs, events, events', s, s', outcome);
        }
      case Row =>
        AdvancedShipped(env, jobs, events, events', s, s', outcome);
    }
  }

  lemma AdvancedShipped(env: Env, jobs: seq<Job>, events: seq<EmissionEvent>, events': seq<EmissionEvent>, s: JobSeq, s': JobSeq, outcome: StepOutcome)
    requires env.blockSize >= 1 && SeqOk(env, jobs, events, s) && !s.finished
    requires s.generated < s.maxGen && s.tokens != []
    requires (s', outcome) == Advance(s, NextToken(env, s.tokens), env.server.stops)
    requires Track(events', s.extra.id) == Delivered(env.server, Track(events, s.extra.id), outcome)
    ensures SeqShipped(env, jobs, events', Noted(s', outcome))
  {
    var t := NextToken(env, s.tokens);
    hide InFlight, NextToken;
    if t in env.server.stops {
      StopShipped(env, jobs, events, events', s, s'.(extra := s.extra.(hitStop := true)));
    } else {
      TokenShipped(env, jobs, events, events', s, s', t);
    }
  }

  /** A stop token ends the solo run; it is not streamed, and the reply will say so. */
  lemma StopShipped(env: Env, jobs: seq<Job>, events: seq<EmissionEvent>, events': seq<EmissionEvent>, s: JobSeq, s': JobSeq)
    requires env.blockSize >= 1 && InFlight(env, jobs, events, s.tokens, s.generated, s.maxGen, s.extra) && !s.extra.cancelled
    requires s.generated < s.maxGen && s.tokens != [] && NextToken(env, s.tokens) in env.server.stops
    requires s'.extra == s.extra.(hitStop := true) && s'.finished && s'.generated == s.generated + 1
    requires Track(events', s.extra.id) == Track(events, s.extra.id)
    ensures SeqShipped(env, jobs, events', s')
  {
    var job := jobs[s.extra.id];
    assert OnCourse(env, job, s.tokens, s.generated);
    hide WorstBlocks, Track, Faithful, Detok, Solo, SoloReason, SoloLength, OnCourse, NextToken, GeneratedTokens;
    CourseContinues(env, job, s.tokens, s.generated);
    WholeIsFaithful(env, job, GeneratedTokens(job, s.tokens), Ok(Stop, s'.generated));
  }

  /** Any other token is streamed, and the job goes on, or stands at its cap. */
  lemma TokenShipped(env: Env, jobs: seq<Job>, events: seq<EmissionEvent>, events': seq<EmissionEvent>, s: JobSeq, s': JobSeq, t: Token)
    requires env.blockSize >= 1 && SeqOk(env, jobs, events, s) && !s.finished
    requires s.generated < s.maxGen && s.tokens != [] && t == NextToken(env, s.tokens) && t !in env.server.stops
    requires s' == s.(processed := |s.tokens|, tokens := s.tokens + [t], generated := s.generated + 1, finished := s.generated + 1 >= s.maxGen)
    requires Track(events', s.extra.id) == Delivered(env.server, Track(events, s.extra.id), Stepped(t, false, s'.finished))
    ensures SeqShipped(env, jobs, events', s')
  {
    StreamedOn(env, jobs, events, events', s.tokens, s.generated, s.maxGen, s.extra, t);
    hide InFlight, NextToken;
    if s'.finished {
      CapShipped(env, jobs, events', s');
    }
  }

  lemma StreamedOn(env: Env, jobs: seq<Job>, events: seq<EmissionEvent>, events': seq<EmissionEvent>, tokens: seq<Token>, generated: nat, maxGen: nat, extra: JobMeta, t: Token)
    requires env.blockSize >= 1 && InFlight(env, jobs, events, tokens, generated, maxGen, extra)
    requires generated < maxGen && tokens != [] && t == NextToken(env, tokens) && t !in env.server.stops
    requires Track(events', extra.id) == Delivered(env.server, Track(events, extra.id), Stepped(t, false, generated + 1 >= maxGen))
    ensures InFlight(env, jobs, events', tokens + [t], generated + 1, maxGen, extra)
  {
    var job := jobs[extra.id];
    assert |job.prompt| <= |tokens|;
    hide WorstBlocks, Track, Detok, Solo, SoloReason, SoloLength, OnCourse, NextToken, GeneratedTokens;
    CourseContinues(env, job, tokens, generated);
    DetokAppend(env, GeneratedTokens(job, tokens), t);
  }

  lemma CapShipped(env: Env, jobs: seq<Job>, events: seq<EmissionEvent>, s: JobSeq)
    requires env.blockSize >= 1 && InFlight(env, jobs, events, s.tokens, s.generated, s.maxGen, s.extra)
    requires s.generated == s.maxGen && s.finished && !s.extra.cancelled
    ensures SeqShipped(env, jobs, events, s)
  {
    var job := jobs[s.extra.id];
    hide WorstBlocks, Track, Faithful, Detok, Solo, SoloReason, SoloLength, OnCourse, GeneratedTokens;
    CourseEnds(env, job, s.tokens, s.generated);
    WholeIsFaithful(env, job, GeneratedTokens(job, s.tokens), Ok(Length, s.generated));
  }

  /** The state between shipping a round and retiring its finished sequences. */
  ghost predicate Shipped(env: Env, st: State) {
    && Housed(env, st.active, st.lanes)
    && (forall i :: 0 <= i < |st.active| ==> SeqShipped(env, st.jobs, st.events, st.active[i]))
    && (forall i :: 0 <= i < |st.resume| ==> ParkedOk(env, st.jobs, st.events, st.resume[i]))
    && Resolved(env, st)
    && Accounted(st)
  }

  /** The round keeps every lane inside its reservation. */
  lemma RoundHoused(env: Env, r: Round<JobMeta>, seqs: seq<JobSeq>, outcomes: seq<StepOutcome>, lanes: seq<seq<Token>>)
    requires Housed(env, r.seqs, r.lanes) && r.promised && r.blockSize == env.blockSize
    requires Completed(r, seqs, outcomes, lanes)
    ensures Housed(env, NotedAll(seqs, outcomes), lanes)
  {
    hide Settled, ShareOf;
    SameReservations(seqs, r.seqs);
    forall i | 0 <= i < |seqs|
      ensures CeilDiv(seqs[i].processed, env.blockSize) <= seqs[i].kvReservation
    {
      assert lanes[Slots(seqs)[i]] == seqs[i].tokens[..seqs[i].processed];
    }
    assert Housed(env, seqs, lanes) by {
      hide Completed;
    }
    hide Housed, Completed, InLockstep, Within;
    HousedFrame(env, seqs, NotedAll(seqs, outcomes), lanes);
  }

  lemma SameAccounts(st: State, st': State)
    requires Accounted(st) && st'.queue == st.queue && st'.answers == st.answers && st'.submitted == st.submitted && st'.jobs == st.jobs
    ensures Accounted(st')
  {
  }

  lemma ParkedFrame(env: Env, jobs: seq<Job>, events: seq<EmissionEvent>, jobs': seq<Job>, events': seq<EmissionEvent>, j: ResumedJob)
    requires env.blockSize >= 1 && ParkedOk(env, jobs, events, j)
    requires jobs <= jobs' && Track(events', j.extra.id) == Track(events, j.extra.id)
    ensures ParkedOk(env, jobs', events', j)
  {
    InFlightFrame(env, jobs, events, jobs', events', j.tokens, j.generated, j.maxGen, j.extra);
  }

  lemma SeqFrame(env: Env, jobs: seq<Job>, events: seq<EmissionEvent>, jobs': seq<Job>, events': seq<EmissionEvent>, s: JobSeq)
    requires env.blockSize >= 1 && SeqOk(env, jobs, events, s)
    requires jobs <= jobs' && Track(events', s.extra.id) == Track(events, s.extra.id)
    ensures SeqOk(env, jobs', events', s)
  {
    InFlightFrame(env, jobs, events, jobs', events', s.tokens, s.generated, s.maxGen, s.extra);
  }

  /** A round's sequences carry the ids they had. */
  lemma RoundIds(env: Env, st: State, r: Round<JobMeta>, seqs: seq<JobSeq>, outcomes: seq<StepOutcome>, lanes: seq<seq<Token>>)
    requires r.seqs == st.active && r.promised && Completed(r, seqs, outcomes, lanes)
    ensures |seqs| == |outcomes| == |st.active|
    ensures forall i :: 0 <= i < |seqs| ==> seqs[i].extra == st.active[i].extra
  {
    forall i | 0 <= i < |seqs|
      ensures seqs[i].extra == st.active[i].extra
    {
      assert Settled(r.seqs[i], seqs[i], outcomes[i], ShareOf(r.seqs, r.ctx, r.chunk, r.budget, i), r.ctx, r.stops, r.model, r.sample, r.promised);
    }
  }

  lemma EachShipped(env: Env, st: State, r: Round<JobMeta>, seqs: seq<JobSeq>, outcomes: seq<StepOutcome>, lanes: seq<seq<Token>>, i: nat)
    requires env.blockSize >= 1 && AllOk(env, st.jobs, st.events, st.active, st.resume)
    requires r.seqs == st.active && r.promised && Completed(r, seqs, outcomes, lanes) && i < |seqs|
    requires r.ctx == env.ctx && r.stops == env.server.stops && r.model == env.model && r.sample == env.server.sample
    requires DistinctIds(st.active) && forall k :: 0 <= k < |seqs| ==> seqs[k].extra == st.active[k].extra
    ensures SeqShipped(env, st.jobs, st.events + RoundEvents(env.server, seqs, outcomes), NotedAll(seqs, outcomes)[i])
  {
    hide SeqOk, SeqShipped, Alone, RoundEvents, Delivered;
    assert SeqOk(env, st.jobs, st.events, st.active[i]);
    var share := ShareOf(r.seqs, r.ctx, r.chunk, r.budget, i);
    assert Settled(r.seqs[i], seqs[i], outcomes[i], share, r.ctx, r.stops, r.model, r.sample, r.promised);
    RoundHit(env.server, st.events, seqs, outcomes, i);
    OneSeqShipped(env, st.jobs, st.events, st.events + RoundEvents(env.server, seqs, outcomes), st.active[i], seqs[i], outcomes[i], share);
  }

  lemma RoundResolved(env: Env, st: State, st': State, seqs: seq<JobSeq>, outcomes: seq<StepOutcome>)
    requires Resolved(env, st) && |seqs| == |outcomes| && st'.jobs == st.jobs
    requires st'.events == st.events + RoundEvents(env.server, seqs, outcomes)
    requires forall id: nat :: Flights(st', id) == Flights(st, id)
    ensures Resolved(env, st')
  {
    hide Flights, Faithful, RoundEvents;
    forall id: nat | id < |st.jobs| && Flights(st', id) == 0
      ensures Answered(env, st'.jobs, st'.events, id)
    {
      assert Answered(env, st.jobs, st.events, id);
      SettledDelivery(env.server, st.events, seqs, outcomes, id);
    }
    forall id: nat | id >= |st.jobs|
      ensures Track(st'.events, id) == Unknown
    {
      SettledDelivery(env.server, st.events, seqs, outcomes, id);
    }
  }

  lemma ResolvedIds(env: Env, st: State)
    requires Resolved(env, st)
    ensures DistinctIds(st.active)
    ensures forall i, k :: 0 <= i < |st.active| && 0 <= k < |st.resume| ==> st.active[i].extra.id != st.resume[k].extra.id
  {
    IdsAreDistinct(st);
  }

  /** A completed round, shipped. */
  lemma RoundShipped(env: Env, st: State, r: Round<JobMeta>, seqs: seq<JobSeq>, outcomes: seq<StepOutcome>, lanes: seq<seq<Token>>)
    requires Running(env, st) && r.seqs == st.active && r.lanes == st.lanes && r.promised
    requires r.blockSize == env.blockSize && r.ctx == env.ctx && r.stops == env.server.stops && r.model == env.model && r.sample == env.server.sample
    requires Completed(r, seqs, outcomes, lanes)
    ensures Shipped(env, st.(active := NotedAll(seqs, outcomes), lanes := lanes, events := st.events + RoundEvents(env.server, seqs, outcomes)))
  {
    hide Running, Shipped, Completed, RoundEvents, NotedAll;
    RunningParts(env, st);
    RoundIds(env, st, r, seqs, outcomes, lanes);
    var st' := st.(active := NotedAll(seqs, outcomes), lanes := lanes, events := st.events + RoundEvents(env.server, seqs, outcomes));
    hide Housed, AllOk, Accounted, Resolved;
    RoundHoused(env, r, seqs, outcomes, lanes);
    ResolvedIds(env, st);
    NotedIds(st, seqs, outcomes);
    AllShipped(env, st, r, seqs, outcomes, lanes);
    ParkedUnmoved(env, st, seqs, outcomes);
    hide Flights, SeqShipped, ParkedOk;
    FlightsByIds(st, st');
    RoundResolved(env, st, st', seqs, outcomes);
    SameAccounts(st, st');
    ShippedParts(env, st');
  }

  lemma RunningParts(env: Env, st: State)
    requires Running(env, st)
    ensures env.blockSize >= 1 && Housed(env, st.active, st.lanes) && Resolved(env, st) && Accounted(st)
    ensures AllOk(env, st.jobs, st.events, st.active, st.resume)
  {
  }

  lemma ShippedParts(env: Env, st: State)
    requires Housed(env, st.active, st.lanes) && Resolved(env, st) && Accounted(st)
    requires forall i :: 0 <= i < |st.active| ==> SeqShipped(env, st.jobs, st.events, st.active[i])
    requires forall i :: 0 <= i < |st.resume| ==> ParkedOk(env, st.jobs, st.events, st.resume[i])
    ensures Shipped(env, st)
  {
  }

  lemma NotedIds(st: State, seqs: seq<JobSeq>, outcomes: seq<StepOutcome>)
    requires |seqs| == |outcomes| == |st.active| && forall i :: 0 <= i < |seqs| ==> seqs[i].extra == st.active[i].extra
    ensures forall i :: 0 <= i < |seqs| ==> NotedAll(seqs, outcomes)[i].extra.id == st.active[i].extra.id
  {
  }

  lemma AllShipped(env: Env, st: State, r: Round<JobMeta>, seqs: seq<JobSeq>, outcomes: seq<StepOutcome>, lanes: seq<seq<Token>>)
    requires env.blockSize >= 1 && AllOk(env, st.jobs, st.events, st.active, st.resume)
    requires r.seqs == st.active && r.promised && Completed(r, seqs, outcomes, lanes)
    requires r.ctx == env.ctx && r.stops == env.server.stops && r.model == env.model && r.sample == env.server.sample
    requires DistinctIds(st.active) && |seqs| == |outcomes| == |st.active| && forall k :: 0 <= k < |seqs| ==> seqs[k].extra == st.active[k].extra
    ensures forall i :: 0 <= i < |seqs| ==>
      SeqShipped(env, st.jobs, st.events + RoundEvents(env.server, seqs, outcomes), NotedAll(seqs, outcomes)[i])
  {
    hide Completed, AllOk, SeqShipped, RoundEvents;
    forall i | 0 <= i < |seqs|
      ensures SeqShipped(env, st.jobs, st.events + RoundEvents(env.server, seqs, outcomes), NotedAll(seqs, outcomes)[i])
    {
      EachShipped(env, st, r, seqs, outcomes, lanes, i);
    }
  }

  lemma ParkedUnmoved(env: Env, st: State, seqs: seq<JobSeq>, outcomes: seq<StepOutcome>)
    requires env.blockSize >= 1 && AllOk(env, st.jobs, st.events, st.active, st.resume) && |seqs| == |outcomes| == |st.active|
    requires forall i, k :: 0 <= i < |st.active| && 0 <= k < |st.resume| ==> st.active[i].extra.id != st.resume[k].extra.id
    requires forall k :: 0 <= k < |seqs| ==> seqs[k].extra == st.active[k].extra
    ensures forall i :: 0 <= i < |st.resume| ==> ParkedOk(env, st.jobs, st.events + RoundEvents(env.server, seqs, outcomes), st.resume[i])
  {
    hide ParkedOk, RoundEvents;
    forall i | 0 <= i < |st.resume|
      ensures ParkedOk(env, st.jobs, st.events + RoundEvents(env.server, seqs, outcomes), st.resume[i])
    {
      RoundMiss(env.server, st.events, seqs, outcomes, st.resume[i].extra.id);
      ParkedFrame(env, st.jobs, st.events, st.jobs, st.events + RoundEvents(env.server, seqs, outcomes), st.resume[i]);
    }
  }

  // ---- Retirement ----

  /** What the retire sweep leaves. */
  function Unfinished(seqs: seq<JobSeq>): seq<JobSeq> {
    if seqs == [] then []
    else
      var last := |seqs| - 1;
      Unfinished(seqs[..last]) + if seqs[last].finished then [] else [seqs[last]]
  }

  function FreedSlots(seqs: seq<JobSeq>): seq<nat> {
    if seqs == [] then []
    else
      var last := |seqs| - 1;
      FreedSlots(seqs[..last]) + if seqs[last].finished then [seqs[last].slot] else []
  }

  function RetireEvents(seqs: seq<JobSeq>): seq<EmissionEvent> {
    if seqs == [] then []
    else
      var last := |seqs| - 1;
      RetireEvents(seqs[..last]) + if seqs[last].finished then [Retire(seqs[last].extra.id, Ok(ReasonOf(seqs[last]), seqs[last].generated))] else []
  }

  /** The positions, in order, of those who are finished, or of those who are not. */
  ghost predicate Picks(seqs: seq<JobSeq>, at: seq<nat>, finished: bool) {
    && (forall j, k :: 0 <= j < k < |at| ==> at[j] < at[k])
    && (forall i: nat :: i in at <==> i < |seqs| && seqs[i].finished == finished)
  }

  /** The reply says why the sequence ended, and what it generated: it was cancelled; or neither that nor
      stopped, and reached its cap; or it stopped, having met a stop token or had nothing to do. */
  ghost predicate SaysWhy(s: JobSeq, event: EmissionEvent) {
    && event.Retire? && event.id == s.extra.id && event.reply.Ok? && event.reply.generated == s.generated
    && (event.reply.reason == Aborted <==> s.extra.cancelled)
    && (event.reply.reason == Length <==> !s.extra.cancelled && !s.extra.hitStop && s.generated >= s.maxGen)
  }

  /** Who is not finished stays, in the order they had. */
  ghost predicate Staying(seqs: seq<JobSeq>, stay: seq<nat>, rest: seq<JobSeq>) {
    && Picks(seqs, stay, false) && |rest| == |stay|
    && forall k :: 0 <= k < |stay| ==> stay[k] < |seqs| && rest[k] == seqs[stay[k]]
  }

  /** Who is finished goes, in the order they had, each with a reply and its slot given back. */
  ghost predicate Going(seqs: seq<JobSeq>, go: seq<nat>, freed: seq<nat>, sent: seq<EmissionEvent>) {
    && Picks(seqs, go, true) && |freed| == |sent| == |go|
    && forall k :: 0 <= k < |go| ==> go[k] < |seqs| && freed[k] == seqs[go[k]].slot && SaysWhy(seqs[go[k]], sent[k])
  }

  lemma {:induction false} WhoRetires(seqs: seq<JobSeq>) returns (stay: seq<nat>, go: seq<nat>)
    ensures Staying(seqs, stay, Unfinished(seqs)) && Going(seqs, go, FreedSlots(seqs), RetireEvents(seqs))
  {
    stay, go := [], [];
    if seqs != [] {
      var last := |seqs| - 1;
      var before, s := seqs[..last], seqs[last];
      assert before + [s] == seqs;
      stay, go := WhoRetires(before);
      hide Staying, Going, SaysWhy, Picks;
      if s.finished {
        StaysPast(before, s, stay, Unfinished(before));
        Goes(before, s, go, FreedSlots(before), RetireEvents(before));
        go := go + [last];
      } else {
        Stays(before, s, stay, Unfinished(before));
        GoesPast(before, s, go, FreedSlots(before), RetireEvents(before));
        stay := stay + [last];
      }
    }
  }

  lemma Stays(before: seq<JobSeq>, s: JobSeq, stay: seq<nat>, rest: seq<JobSeq>)
    requires Staying(before, stay, rest) && !s.finished
    ensures Staying(before + [s], stay + [|before|], rest + [s])
  {
    PicksNext(before, s, stay, false);
    hide Picks;
  }

  lemma StaysPast(before: seq<JobSeq>, s: JobSeq, stay: seq<nat>, rest: seq<JobSeq>)
    requires Staying(before, stay, rest) && s.finished
    ensures Staying(before + [s], stay, rest + [])
  {
    PicksNext(before, s, stay, false);
    hide Picks;
  }

  lemma Goes(before: seq<JobSeq>, s: JobSeq, go: seq<nat>, freed: seq<nat>, sent: seq<EmissionEvent>)
    requires Going(before, go, freed, sent) && s.finished
    ensures Going(before + [s], go + [|before|], freed + [s.slot], sent + [Retire(s.extra.id, Ok(ReasonOf(s), s.generated))])
  {
    PicksNext(before, s, go, true);
    assert SaysWhy(s, Retire(s.extra.id, Ok(ReasonOf(s), s.generated)));
    hide Picks, SaysWhy, ReasonOf;
  }

  lemma GoesPast(before: seq<JobSeq>, s: JobSeq, go: seq<nat>, freed: seq<nat>, sent: seq<EmissionEvent>)
    requires Going(before, go, freed, sent) && !s.finished
    ensures Going(before + [s], go, freed + [], sent + [])
  {
    PicksNext(before, s, go, true);
    hide Picks, SaysWhy;
  }

  lemma PicksNext(before: seq<JobSeq>, s: JobSeq, at: seq<nat>, finished: bool)
    requires Picks(before, at, finished)
    ensures Picks(before + [s], if s.finished == finished then at + [|before|] else at, finished)
  {
    forall k | 0 <= k < |at|
      ensures at[k] < |before|
    {
      assert at[k] in at;
    }
  }

  /** The reply ends a live delivery; a delivery already answered ignores it. */
  function Retired(d: Delivery, s: JobSeq): Delivery {
    if s.finished && d.Live? then Done(d.ticket, d.sent, Ok(ReasonOf(s), s.generated)) else d
  }

  lemma RetireStep(events: seq<EmissionEvent>, seqs: seq<JobSeq>, id: nat)
    requires seqs != []
    ensures var last := |seqs| - 1; var before := Track(events + RetireEvents(seqs[..last]), id);
      Track(events + RetireEvents(seqs), id) == if seqs[last].extra.id == id then Retired(before, seqs[last]) else before
  {
    var last := |seqs| - 1;
    var before := RetireEvents(seqs[..last]);
    if seqs[last].finished {
      var event := Retire(seqs[last].extra.id, Ok(ReasonOf(seqs[last]), seqs[last].generated));
      assert events + RetireEvents(seqs) == (events + before) + [event];
      TrackAppend(events + before, event, id);
    } else {
      assert RetireEvents(seqs) == before;
    }
  }

  lemma {:induction false} RetireMiss(events: seq<EmissionEvent>, seqs: seq<JobSeq>, id: nat)
    requires forall k :: 0 <= k < |seqs| && seqs[k].extra.id == id ==> !seqs[k].finished
    ensures Track(events + RetireEvents(seqs), id) == Track(events, id)
  {
    if seqs == [] {
      assert events + [] == events;
    } else {
      RetireMiss(events, seqs[..|seqs| - 1], id);
      RetireStep(events, seqs, id);
    }
  }

  lemma {:induction false} RetireIdle(events: seq<EmissionEvent>, seqs: seq<JobSeq>, id: nat)
    requires !Track(events, id).Live?
    ensures Track(events + RetireEvents(seqs), id) == Track(events, id)
  {
    if seqs == [] {
      assert events + [] == events;
    } else {
      RetireIdle(events, seqs[..|seqs| - 1], id);
      RetireStep(events, seqs, id);
    }
  }

  lemma {:induction false} RetireHit(events: seq<EmissionEvent>, seqs: seq<JobSeq>, k: nat)
    requires k < |seqs| && DistinctIds(seqs)
    ensures Track(events + RetireEvents(seqs), seqs[k].extra.id) == Retired(Track(events, seqs[k].extra.id), seqs[k])
  {
    hide Track, RetireEvents, Retired;
    var last := |seqs| - 1;
    RetireStep(events, seqs, seqs[k].extra.id);
    if k == last {
      RetireMiss(events, seqs[..last], seqs[k].extra.id);
    } else {
      RetireHit(events, seqs[..last], k);
    }
  }

  /** The survivors are among the unfinished, in order: `from[k]` is where survivor `k` stood. */
  ghost predicate Origins(seqs: seq<JobSeq>, survivors: seq<JobSeq>, from: seq<nat>) {
    && |from| == |survivors|
    && (forall k :: 0 <= k < |from| ==> from[k] < |seqs| && survivors[k] == seqs[from[k]] && !seqs[from[k]].finished)
    && (forall j, k :: 0 <= j < k < |from| ==> from[j] < from[k])
  }

  lemma {:induction false} SurvivorsFrom(seqs: seq<JobSeq>) returns (from: seq<nat>)
    ensures Origins(seqs, Unfinished(seqs), from)
  {
    from := [];
    if seqs != [] {
      var last := |seqs| - 1;
      from := SurvivorsFrom(seqs[..last]);
      hide Origins;
      OriginsGrow(seqs, Unfinished(seqs[..last]), from);
      if seqs[last].finished {
        assert Unfinished(seqs) == Unfinished(seqs[..last]);
      } else {
        from := from + [last];
      }
    }
  }

  lemma OriginsGrow(seqs: seq<JobSeq>, survivors: seq<JobSeq>, from: seq<nat>)
    requires seqs != [] && Origins(seqs[..|seqs| - 1], survivors, from)
    ensures var last := |seqs| - 1;
      && Origins(seqs, survivors, from)
      && (!seqs[last].finished ==> Origins(seqs, survivors + [seqs[last]], from + [last]))
  {
  }

  /** Every unfinished sequence survives. */
  lemma {:induction false} SurvivesAt(seqs: seq<JobSeq>, i: nat) returns (k: nat)
    requires i < |seqs| && !seqs[i].finished
    ensures k < |Unfinished(seqs)| && Unfinished(seqs)[k] == seqs[i]
  {
    var last := |seqs| - 1;
    if i == last {
      k := |Unfinished(seqs[..last])|;
    } else {
      k := SurvivesAt(seqs[..last], i);
    }
  }

  lemma {:induction false} FreedFrom(seqs: seq<JobSeq>)
    ensures forall slot :: slot in FreedSlots(seqs) <==> exists k :: 0 <= k < |seqs| && seqs[k].finished && seqs[k].slot == slot
  {
    if seqs != [] {
      var last := |seqs| - 1;
      FreedFrom(seqs[..last]);
      forall slot
        ensures slot in FreedSlots(seqs) <==> exists k :: 0 <= k < |seqs| && seqs[k].finished && seqs[k].slot == slot
      {
        if k :| 0 <= k < |seqs| && seqs[k].finished && seqs[k].slot == slot && k < last {
          assert seqs[..last][k].slot == slot;
        }
      }
    }
  }

  lemma {:induction false} UnfinishedReservations(seqs: seq<JobSeq>)
    ensures Reservations(Unfinished(seqs)) <= Reservations(seqs)
  {
    if seqs != [] {
      var last := |seqs| - 1;
      UnfinishedReservations(seqs[..last]);
      if !seqs[last].finished {
        assert Unfinished(seqs)[..|Unfinished(seqs)| - 1] == Unfinished(seqs[..last]);
      } else {
        assert Unfinished(seqs) == Unfinished(seqs[..last]);
      }
    }
  }

  /** Retiring somebody shrinks the set; retiring nobody leaves it as it is. */
  lemma {:induction false} UnfinishedShrinks(seqs: seq<JobSeq>)
    ensures |Unfinished(seqs)| <= |seqs|
    ensures SomeFinished(seqs) ==> |Unfinished(seqs)| < |seqs|
    ensures !SomeFinished(seqs) ==> Unfinished(seqs) == seqs
  {
    if seqs != [] {
      var last := |seqs| - 1;
      UnfinishedShrinks(seqs[..last]);
      assert forall i :: 0 <= i < last ==> seqs[..last][i] == seqs[i];
      assert seqs == seqs[..last] + [seqs[last]];
    }
  }

  /** A retired job flies no more; everyone else flies as before. */
  lemma {:induction false} RetiredFlights(seqs: seq<JobSeq>, id: nat)
    ensures multiset(Ids(Unfinished(seqs)))[id] <= multiset(Ids(seqs))[id]
    ensures (forall k :: 0 <= k < |seqs| && seqs[k].extra.id == id ==> !seqs[k].finished) ==>
      multiset(Ids(Unfinished(seqs)))[id] == multiset(Ids(seqs))[id]
  {
    if seqs != [] {
      var last := |seqs| - 1;
      RetiredFlights(seqs[..last], id);
      assert Ids(seqs) == Ids(seqs[..last]) + [seqs[last].extra.id];
      var rest := Unfinished(seqs[..last]);
      if !seqs[last].finished {
        assert Ids(Unfinished(seqs)) == Ids(rest) + [seqs[last].extra.id];
      } else {
        assert Unfinished(seqs) == rest;
      }
    }
  }

  /** The lanes after the listed slots are released. */
  ghost predicate Released(before: seq<seq<Token>>, after: seq<seq<Token>>, slots: seq<nat>) {
    && |before| == |after|
    && forall l :: 0 <= l < |before| ==> after[l] == if l in slots then [] else before[l]
  }

  /** Survivors keep distinct slots, and a freed slot is none of theirs. */
  lemma SurvivorSlots(seqs: seq<JobSeq>, from: seq<nat>)
    requires Distinct(Slots(seqs)) && Origins(seqs, Unfinished(seqs), from)
    ensures forall k :: 0 <= k < |from| ==> Slots(Unfinished(seqs))[k] == Slots(seqs)[from[k]]
    ensures Distinct(Slots(Unfinished(seqs)))
    ensures forall k :: 0 <= k < |from| ==> Slots(seqs)[from[k]] !in FreedSlots(seqs)
    ensures forall slot :: slot in Slots(seqs) ==> slot in FreedSlots(seqs) || slot in Slots(Unfinished(seqs))
  {
    FreedFrom(seqs);
    hide Unfinished, FreedSlots;
    assert forall k :: 0 <= k < |from| ==> Slots(Unfinished(seqs))[k] == Slots(seqs)[from[k]];
    forall k | 0 <= k < |from|
      ensures Slots(seqs)[from[k]] !in FreedSlots(seqs)
    {
      if Slots(seqs)[from[k]] in FreedSlots(seqs) {
        var i :| 0 <= i < |seqs| && seqs[i].finished && seqs[i].slot == seqs[from[k]].slot;
        SameLaneIsSame(Slots(seqs), i, from[k]);
      }
    }
    forall slot | slot in Slots(seqs)
      ensures slot in FreedSlots(seqs) || slot in Slots(Unfinished(seqs))
    {
      var i :| 0 <= i < |seqs| && Slots(seqs)[i] == slot;
      if !seqs[i].finished {
        var k := SurvivesAt(seqs, i);
        assert Slots(Unfinished(seqs))[k] == slot;
      } else {
        assert seqs[i].slot == slot;
      }
    }
  }

  lemma RetiredHoused(env: Env, seqs: seq<JobSeq>, lanes: seq<seq<Token>>, lanes': seq<seq<Token>>)
    requires Housed(env, seqs, lanes) && Released(lanes, lanes', FreedSlots(seqs))
    ensures Housed(env, Unfinished(seqs), lanes')
  {
    var from := SurvivorsFrom(seqs);
    SurvivorSlots(seqs, from);
    UnfinishedReservations(seqs);
    OthersEmpty(env, seqs, lanes, lanes');
    assert env.blockSize >= 1 && env.server.maxSlots <= |lanes'| && Reservations(seqs) <= env.totalBlocks;
    forall i | 0 <= i < |from|
      ensures SurvivorHoused(env, Unfinished(seqs), lanes', i)
    {
      hide Unfinished, FreedSlots, Reservations, Slots, Housed, Released;
      OneHoused(env, seqs, lanes, lanes', Unfinished(seqs), from, i);
    }
    HousedOneByOne(env, Unfinished(seqs), lanes') by {
      hide Unfinished, FreedSlots, Reservations, Slots, Released, Housed;
    }
  }

  lemma HousedOneByOne(env: Env, rest: seq<JobSeq>, lanes: seq<seq<Token>>)
    requires env.blockSize >= 1 && env.server.maxSlots <= |lanes| && Reservations(rest) <= env.totalBlocks
    requires Distinct(Slots(rest)) && forall i :: 0 <= i < |rest| ==> SurvivorHoused(env, rest, lanes, i)
    requires forall l :: 0 <= l < |lanes| && l !in Slots(rest) ==> lanes[l] == []
    ensures Housed(env, rest, lanes)
  {
    hide Reservations, Slots, Distinct;
    forall i | 0 <= i < |rest|
      ensures rest[i].processed <= |rest[i].tokens| && 0 <= Slots(rest)[i] < |lanes|
      ensures lanes[Slots(rest)[i]] == rest[i].tokens[..rest[i].processed]
      ensures CeilDiv(rest[i].processed, env.blockSize) <= rest[i].kvReservation
    {
      assert SurvivorHoused(env, rest, lanes, i);
    }
  }

  lemma OthersEmpty(env: Env, seqs: seq<JobSeq>, lanes: seq<seq<Token>>, lanes': seq<seq<Token>>)
    requires Housed(env, seqs, lanes) && Released(lanes, lanes', FreedSlots(seqs))
    requires forall slot :: slot in Slots(seqs) ==> slot in FreedSlots(seqs) || slot in Slots(Unfinished(seqs))
    ensures forall l :: 0 <= l < |lanes'| && l !in Slots(Unfinished(seqs)) ==> lanes'[l] == []
  {
    hide Unfinished, FreedSlots, Reservations, Slots, InLockstep;
  }

  ghost predicate SurvivorHoused(env: Env, rest: seq<JobSeq>, lanes: seq<seq<Token>>, i: nat)
    requires env.blockSize >= 1 && i < |rest|
  {
    && rest[i].processed <= |rest[i].tokens| && Slots(rest)[i] < |lanes|
    && lanes[Slots(rest)[i]] == rest[i].tokens[..rest[i].processed]
    && CeilDiv(rest[i].processed, env.blockSize) <= rest[i].kvReservation
  }

  lemma OneHoused(env: Env, seqs: seq<JobSeq>, lanes: seq<seq<Token>>, lanes': seq<seq<Token>>, rest: seq<JobSeq>, from: seq<nat>, i: nat)
    requires Housed(env, seqs, lanes) && Released(lanes, lanes', FreedSlots(seqs))
    requires i < |from| == |rest| && from[i] < |seqs| && rest[i] == seqs[from[i]]
    requires Slots(rest)[i] == Slots(seqs)[from[i]] && Slots(seqs)[from[i]] !in FreedSlots(seqs)
    ensures SurvivorHoused(env, rest, lanes', i)
  {
    hide FreedSlots, Reservations, Slots;
    assert lanes[Slots(seqs)[from[i]]] == seqs[from[i]].tokens[..seqs[from[i]].processed];
  }

  /** Retiring the finished restores the invariant between turns: each is answered with the truth. */
  lemma RetirementQuiet(env: Env, st: State, lanes': seq<seq<Token>>)
    requires Shipped(env, st) && Released(st.lanes, lanes', FreedSlots(st.active))
    ensures Inv(env, st.(active := Unfinished(st.active), lanes := lanes', events := st.events + RetireEvents(st.active)))
  {
    hide Released, RetireEvents, Unfinished, FreedSlots, SeqShipped, ParkedOk, SeqOk, Accounted, Resolved, Inv;
    var st' := st.(active := Unfinished(st.active), lanes := lanes', events := st.events + RetireEvents(st.active));
    assert env.blockSize >= 1;
    hide Housed;
    RetiredHoused(env, st.active, st.lanes, lanes');
    ResolvedIds(env, st);
    SurvivorsOk(env, st);
    WaitersUnmoved(env, st);
    RetirementResolved(env, st, st');
    SameAccounts(st, st');
    InvParts(env, st');
  }

  lemma InvParts(env: Env, st: State)
    requires Housed(env, st.active, st.lanes) && Resolved(env, st) && Accounted(st)
    requires forall i :: 0 <= i < |st.active| ==> SeqOk(env, st.jobs, st.events, st.active[i]) && !st.active[i].finished
    requires forall i :: 0 <= i < |st.resume| ==> ParkedOk(env, st.jobs, st.events, st.resume[i])
    ensures Inv(env, st)
  {
    hide Resolved, Accounted, SeqOk, ParkedOk;
  }

  lemma SurvivorsOk(env: Env, st: State)
    requires env.blockSize >= 1 && DistinctIds(st.active)
    requires forall i :: 0 <= i < |st.active| ==> SeqShipped(env, st.jobs, st.events, st.active[i])
    ensures var rest := Unfinished(st.active);
      forall i :: 0 <= i < |rest| ==> SeqOk(env, st.jobs, st.events + RetireEvents(st.active), rest[i]) && !rest[i].finished
  {
    hide SeqOk, SeqShipped, RetireEvents, Unfinished;
    var rest := Unfinished(st.active);
    var from := SurvivorsFrom(st.active);
    forall i | 0 <= i < |rest|
      ensures SeqOk(env, st.jobs, st.events + RetireEvents(st.active), rest[i]) && !rest[i].finished
    {
      SurvivorOk(env, st, from[i]);
    }
  }

  lemma WaitersUnmoved(env: Env, st: State)
    requires env.blockSize >= 1 && forall i :: 0 <= i < |st.resume| ==> ParkedOk(env, st.jobs, st.events, st.resume[i])
    requires forall i, k :: 0 <= i < |st.active| && 0 <= k < |st.resume| ==> st.active[i].extra.id != st.resume[k].extra.id
    ensures forall i :: 0 <= i < |st.resume| ==> ParkedOk(env, st.jobs, st.events + RetireEvents(st.active), st.resume[i])
  {
    hide ParkedOk, RetireEvents;
    forall i | 0 <= i < |st.resume|
      ensures ParkedOk(env, st.jobs, st.events + RetireEvents(st.active), st.resume[i])
    {
      RetireMiss(st.events, st.active, st.resume[i].extra.id);
      ParkedFrame(env, st.jobs, st.events, st.jobs, st.events + RetireEvents(st.active), st.resume[i]);
    }
  }

  lemma SurvivorOk(env: Env, st: State, k: nat)
    requires env.blockSize >= 1 && k < |st.active| && !st.active[k].finished && DistinctIds(st.active)
    requires SeqShipped(env, st.jobs, st.events, st.active[k])
    ensures SeqOk(env, st.jobs, st.events + RetireEvents(st.active), st.active[k])
  {
    RetireHit(st.events, st.active, k);
    SeqFrame(env, st.jobs, st.events, st.jobs, st.events + RetireEvents(st.active), st.active[k]);
  }

  lemma RetirementResolved(env: Env, st: State, st': State)
    requires env.blockSize >= 1 && Resolved(env, st)
    requires forall i :: 0 <= i < |st.active| ==> SeqShipped(env, st.jobs, st.events, st.active[i])
    requires st'.active == Unfinished(st.active) && st'.resume == st.resume && st'.jobs == st.jobs
    requires st'.events == st.events + RetireEvents(st.active)
    ensures Resolved(env, st')
  {
    hide SeqShipped, Answered, RetireEvents, Unfinished;
    IdsAreDistinct(st);
    forall id: nat
      ensures Flights(st', id) <= Flights(st, id)
    {
      RetiredFlights(st.active, id);
    }
    forall id: nat | id < |st.jobs| && Flights(st', id) == 0
      ensures Answered(env, st'.jobs, st'.events, id)
    {
      RetiredFlights(st.active, id);
      if Flights(st, id) == 0 {
        AnsweredStays(env, st.jobs, st.events, st.active, id);
      } else {
        var k :| 0 <= k < |st.active| && st.active[k].extra.id == id && st.active[k].finished;
        FinishedAnswered(env, st.jobs, st.events, st.active, k);
      }
    }
    forall id: nat | id >= |st.jobs|
      ensures Track(st'.events, id) == Unknown
    {
      RetireIdle(st.events, st.active, id);
    }
  }

  lemma AnsweredStays(env: Env, jobs: seq<Job>, events: seq<EmissionEvent>, active: seq<JobSeq>, id: nat)
    requires id < |jobs| && Answered(env, jobs, events, id)
    ensures Answered(env, jobs, events + RetireEvents(active), id)
  {
    RetireIdle(events, active, id);
  }

  lemma FinishedAnswered(env: Env, jobs: seq<Job>, events: seq<EmissionEvent>, active: seq<JobSeq>, k: nat)
    requires env.blockSize >= 1 && k < |active| && active[k].finished && DistinctIds(active)
    requires SeqShipped(env, jobs, events, active[k])
    ensures active[k].extra.id < |jobs| && Answered(env, jobs, events + RetireEvents(active), active[k].extra.id)
  {
    RetireHit(events, active, k);
  }

  // ---- The model cannot be loaded ----

  function AllFailed(seqs: seq<JobSeq>): (r: seq<StepOutcome>)
    ensures |r| == |seqs|
  {
    seq(|seqs|, i => Failed(LoadError))
  }

  /** Every active sequence is answered with the load error, and its lane is gone with the model. */
  function LoadFailed(st: State): State {
    st.(active := [], lanes := seq(|st.lanes|, i => []), events := st.events + FailEvents(st.active, AllFailed(st.active), |st.active|))
  }

  lemma FailedIsAnswered(env: Env, jobs: seq<Job>, events: seq<EmissionEvent>, seqs: seq<JobSeq>, k: nat)
    requires env.blockSize >= 1 && k < |seqs| && DistinctIds(seqs) && SeqOk(env, jobs, events, seqs[k])
    ensures seqs[k].extra.id < |jobs| && Answered(env, jobs, events + FailEvents(seqs, AllFailed(seqs), |seqs|), seqs[k].extra.id)
  {
    FailsHit(events, seqs, AllFailed(seqs), |seqs|, k);
    PrefixIsFaithful(env, jobs[seqs[k].extra.id], seqs[k].tokens, seqs[k].generated, Err(LoadError));
  }

  lemma LoadFailureResolved(env: Env, st: State)
    requires env.blockSize >= 1 && Resolved(env, st) && AllOk(env, st.jobs, st.events, st.active, st.resume)
    ensures Resolved(env, LoadFailed(st))
  {
    hide SeqOk, ParkedOk, Answered, FailEvents, Track;
    var st' := LoadFailed(st);
    ResolvedIds(env, st);
    assert Ids(st'.active) == [];
    forall id: nat
      ensures Flights(st', id) <= Flights(st, id)
    {
      assert multiset(Ids(st'.active))[id] == 0;
    }
    hide Flights;
    forall id: nat | id < |st.jobs| && Flights(st', id) == 0
      ensures Answered(env, st'.jobs, st'.events, id)
    {
      EachAfterLoadFailure(env, st, id);
    }
    forall id: nat | id >= |st.jobs|
      ensures Track(st'.events, id) == Unknown
    {
      FailsIdle(st.events, st.active, AllFailed(st.active), |st.active|, id);
    }
  }

  lemma EachAfterLoadFailure(env: Env, st: State, id: nat)
    requires env.blockSize >= 1 && Resolved(env, st) && AllOk(env, st.jobs, st.events, st.active, st.resume)
    requires DistinctIds(st.active) && id < |st.jobs| && Flights(LoadFailed(st), id) == 0
    ensures Answered(env, st.jobs, LoadFailed(st).events, id)
  {
    hide SeqOk, ParkedOk, Answered, FailEvents, Track;
    if id in Ids(st.active) {
      var k :| 0 <= k < |st.active| && Ids(st.active)[k] == id;
      FailedIsAnswered(env, st.jobs, st.events, st.active, k);
    } else {
      assert Flights(st, id) == 0;
      FailsIdleAnswered(env, st.jobs, st.events, st.active, id);
    }
  }

  lemma FailsIdleAnswered(env: Env, jobs: seq<Job>, events: seq<EmissionEvent>, seqs: seq<JobSeq>, id: nat)
    requires id < |jobs| && Answered(env, jobs, events, id)
    ensures Answered(env, jobs, events + FailEvents(seqs, AllFailed(seqs), |seqs|), id)
  {
    FailsIdle(events, seqs, AllFailed(seqs), |seqs|, id);
  }

  lemma ParkedSurviveLoadFailure(env: Env, st: State)
    requires env.blockSize >= 1 && forall i :: 0 <= i < |st.resume| ==> ParkedOk(env, st.jobs, st.events, st.resume[i])
    requires forall i, k :: 0 <= i < |st.active| && 0 <= k < |st.resume| ==> st.active[i].extra.id != st.resume[k].extra.id
    ensures forall i :: 0 <= i < |st.resume| ==> ParkedOk(env, st.jobs, LoadFailed(st).events, st.resume[i])
  {
    hide ParkedOk, FailEvents;
    forall i | 0 <= i < |st.resume|
      ensures ParkedOk(env, st.jobs, LoadFailed(st).events, st.resume[i])
    {
      FailsMiss(st.events, st.active, AllFailed(st.active), |st.active|, st.resume[i].extra.id);
      ParkedFrame(env, st.jobs, st.events, st.jobs, LoadFailed(st).events, st.resume[i]);
    }
  }

  /** Losing the model answers everybody who was running and keeps everybody who was waiting. */
  lemma LoadFailureQuiet(env: Env, st: State)
    requires Running(env, st)
    ensures Inv(env, LoadFailed(st))
  {
    assert env.blockSize >= 1;
    hide Housed, SeqOk, ParkedOk, Resolved, Accounted, FailEvents;
    ResolvedIds(env, st);
    EmptiedIsHoused(env, st.active, st.lanes);
    LoadFailureResolved(env, st);
    ParkedSurviveLoadFailure(env, st);
    SameAccounts(st, LoadFailed(st));
  }

  lemma EmptiedIsHoused(env: Env, active: seq<JobSeq>, lanes: seq<seq<Token>>)
    requires Housed(env, active, lanes)
    ensures Housed(env, [], seq(|lanes|, i => []))
  {
    assert Slots<JobMeta>([]) == [];
  }
}
