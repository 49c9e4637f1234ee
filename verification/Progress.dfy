/** Why a turn makes progress, why its errors are the requests' own, and why nobody waits under
    `Reserve` admission. */
module Progress {
  import opened Arithmetic
  import opened Wrappers
  import opened Pools
  import opened Decoders
  import opened Batching
  import opened Errors
  import opened Events
  import opened Serving
  import opened Growth
  import opened Turns
  import opened Admission

  // ---- The measure ----

  /** Jobs not yet answered. */
  function Outstanding(st: State): nat {
    |st.queue| + |st.resume| + |st.active|
  }

  /** Tokens a sequence still has to read and to generate. */
  function Remaining(s: JobSeq): int {
    |s.tokens| + s.maxGen - s.generated - s.processed
  }

  /** Somebody was answered, or the oldest sequence, still there, has less left to do. */
  ghost predicate Advances(before: State, after: State) {
    || Outstanding(after) < Outstanding(before)
    || (&& Outstanding(after) == Outstanding(before)
        && before.active != [] && after.active != []
        && after.active[0].extra.id == before.active[0].extra.id
        && Remaining(after.active[0]) < Remaining(before.active[0]))
  }

  /** A running sequence moves every round it gets a share: it finishes or has less left to do. */
  lemma RunningMoves(s: JobSeq, share: nat, ctx: nat, stops: seq<Token>, model: Model, sample: Logits -> Token)
    requires !s.finished && !s.paused && (KindOf(s, ctx) == Prompt ==> share > 0)
    ensures var s' := Alone(s, share, ctx, stops, model, sample).0;
      s'.finished || (Remaining(s') < Remaining(s) && s'.extra == s.extra)
  {
  }

  /** The first sequence always gets a share of a non-zero allowance. */
  lemma FirstIsServed(seqs: seq<JobSeq>, ctx: nat, chunk: nat, budget: Option<nat>)
    requires seqs != [] && InBounds(seqs) && budget != Some(0) && KindOf(seqs[0], ctx) == Prompt
    ensures ShareOf(seqs, ctx, chunk, budget, 0) > 0
  {
  }

  /** Nobody is lost in a grant pass. */
  lemma ConservedCount(before: seq<JobSeq>, after: seq<JobSeq>, evicted: seq<JobSeq>)
    requires JobsConserved(before, after, evicted)
    ensures |before| == |after| + |evicted|
  {
    assert |multiset(Ids(before))| == |before| && |multiset(Ids(after))| == |after| && |multiset(Ids(evicted))| == |evicted|;
  }

  lemma {:induction false} KeptClimbs(kept: seq<nat>, q: nat)
    requires q < |kept| && forall j, k :: 0 <= j < k < |kept| ==> kept[j] < kept[k]
    ensures kept[0] + q <= kept[q]
  {
    if q > 0 {
      KeptClimbs(kept, q - 1);
    }
  }

  /** If nobody is finished after the grants, the first sequence is the senior: it was never evicted,
      never swept, and it is not paused. */
  lemma SeniorIsFirst(g: Start, seqs: seq<JobSeq>, lanes: seq<seq<Token>>, resume: seq<ResumedJob>, kept: seq<nat>, evicted: seq<JobSeq>)
    requires Steady(g, seqs, lanes, resume, kept, evicted) && Deciding(g, seqs, evicted, |seqs|)
    requires g.seqs != [] && !SomeFinished(seqs)
    requires forall i :: 0 <= i < |g.seqs| ==> Full(g.seqs[i], g.blockSize, g.ctx) <= g.totalBlocks
    ensures seqs != [] && OnlyGranted(g.seqs[0], seqs[0]) && !seqs[0].finished && !seqs[0].paused
  {
    hide InLockstep, Full, Covered, PausedForCause, YoungestFirst, Reservations;
    ConservedCount(g.seqs, seqs, evicted);
    hide JobsConserved;
    var q := Senior(g.seqs);
    if q < |g.seqs| {
      HeldIsReserved(seqs);
      NeedWithinFull(g.seqs[q], g.blockSize, g.ctx);
      KeptClimbs(kept, q);
      assert OnlyGranted(g.seqs[kept[0]], seqs[0]);
      assert SeniorServed(g, seqs);
    }
  }

  /** What a job in flight can ever need is its worst case, however far it got. */
  lemma FullIsWorst(env: Env, jobs: seq<Job>, events: seq<EmissionEvent>, s: JobSeq)
    requires env.blockSize >= 1 && SeqOk(env, jobs, events, s)
    ensures s.extra.id < |jobs| && Full(s, env.blockSize, env.ctx) == WorstBlocks(env, jobs[s.extra.id]) <= env.totalBlocks
  {
    hide Solo, SoloReason, SoloLength, Track, Detok, CeilDiv;
  }

  /** A whole step over a loaded model makes progress. */
  lemma StepAdvances(env: Env, st: State, cancelled: set<Ticket>, g: Start, seqs: seq<JobSeq>, lanes: seq<seq<Token>>, resume: seq<ResumedJob>, kept: seq<nat>, evicted: seq<JobSeq>, r: Round<JobMeta>, seqs2: seq<JobSeq>, outcomes: seq<StepOutcome>, lanes2: seq<seq<Token>>, after: State)
    requires st.active != [] && env.blockSize >= 1
    requires g.seqs == SweepAll(st.active, cancelled) && g.resume == st.resume
    requires Steady(g, seqs, lanes, resume, kept, evicted) && Deciding(g, seqs, evicted, |seqs|)
    requires forall i :: 0 <= i < |g.seqs| ==> Full(g.seqs[i], g.blockSize, g.ctx) <= g.totalBlocks
    requires r.seqs == seqs && r.promised && r.budget != Some(0) && Completed(r, seqs2, outcomes, lanes2)
    requires after.active == Unfinished(NotedAll(seqs2, outcomes)) && after.resume == resume && |after.queue| == |st.queue|
    ensures Advances(st, after)
  {
    hide Steady, Deciding, ToppedUp, Frugal, Completed, Unfinished, NotedAll, Full, SweepAll, SomeFinished;
    CompletedSizes(r, seqs2, outcomes, lanes2);
    var noted := NotedAll(seqs2, outcomes);
    UnfinishedShrinks(noted);
    NobodyLost(g, seqs, lanes, resume, kept, evicted);
    if !SomeFinished(noted) {
      RoundFinishesNone(r, seqs2, outcomes, lanes2);
      SeniorIsFirst(g, seqs, lanes, resume, kept, evicted);
      FirstMoves(r, seqs2, outcomes, lanes2);
      SeniorUnswept(st, cancelled);
    }
  }

  /** After the grants the jobs are the running and the waiting ones there were. */
  lemma NobodyLost(g: Start, seqs: seq<JobSeq>, lanes: seq<seq<Token>>, resume: seq<ResumedJob>, kept: seq<nat>, evicted: seq<JobSeq>)
    requires Steady(g, seqs, lanes, resume, kept, evicted)
    ensures |seqs| + |resume| == |g.seqs| + |g.resume|
  {
    ConservedCount(g.seqs, seqs, evicted);
    hide JobsConserved, InLockstep;
  }

  /** An unfinished sequence was not swept. */
  lemma SeniorUnswept(st: State, cancelled: set<Ticket>)
    requires st.active != []
    ensures var swept := SweepAll(st.active, cancelled); swept[0].finished || swept[0] == st.active[0]
  {
  }

  /** A round never unfinishes a sequence. */
  lemma RoundFinishesNone(r: Round<JobMeta>, seqs: seq<JobSeq>, outcomes: seq<StepOutcome>, lanes: seq<seq<Token>>)
    requires r.promised && Completed(r, seqs, outcomes, lanes) && !SomeFinished(NotedAll(seqs, outcomes))
    ensures !SomeFinished(r.seqs) && !SomeFinished(seqs)
    ensures r.seqs != [] ==> !seqs[0].finished && !r.seqs[0].finished
  {
    hide ShareOf, InLockstep, Within;
    forall i | 0 <= i < |seqs|
      ensures !r.seqs[i].finished && !seqs[i].finished
    {
      assert !NotedAll(seqs, outcomes)[i].finished;
      assert Settled(r.seqs[i], seqs[i], outcomes[i], ShareOf(r.seqs, r.ctx, r.chunk, r.budget, i), r.ctx, r.stops, r.model, r.sample, r.promised);
    }
  }

  lemma FirstMoves(r: Round<JobMeta>, seqs: seq<JobSeq>, outcomes: seq<StepOutcome>, lanes: seq<seq<Token>>)
    requires r.promised && r.budget != Some(0) && Completed(r, seqs, outcomes, lanes) && r.seqs != []
    requires |seqs| == |outcomes| == |r.seqs| && !r.seqs[0].finished && !r.seqs[0].paused && !seqs[0].finished
    ensures Remaining(NotedAll(seqs, outcomes)[0]) < Remaining(r.seqs[0])
    ensures NotedAll(seqs, outcomes)[0].extra.id == r.seqs[0].extra.id
  {
    hide InLockstep, Within, Alone;
    var share := ShareOf(r.seqs, r.ctx, r.chunk, r.budget, 0);
    assert Settled(r.seqs[0], seqs[0], outcomes[0], share, r.ctx, r.stops, r.model, r.sample, r.promised);
    if KindOf(r.seqs[0], r.ctx) == Prompt {
      FirstIsServed(r.seqs, r.ctx, r.chunk, r.budget);
    }
    RunningMoves(r.seqs[0], share, r.ctx, r.stops, r.model, r.sample);
  }

  /** With nobody running, the front of the queue never waits. */
  lemma FrontNeverWaits(env: Env, active: seq<JobSeq>, front: QueuedJob, refused: set<Ticket>, cancelled: set<Ticket>)
    requires env.blockSize >= 1 && active == []
    ensures !Judge(env, active, front, refused, cancelled).Wait?
  {
  }

  /** Admission into an idle worker starts somebody or answers somebody, unless the model cannot be
      loaded and only evicted jobs wait for it. */
  lemma AdmitAdvances(env: Env, st: State, loads: bool, refused: set<Ticket>, cancelled: set<Ticket>)
    requires Inv(env, st) && env.server.maxSlots >= 1 && Outstanding(st) > 0
    ensures var after := Admit(env, st, loads, refused, cancelled);
      && Inv(env, after) && OnlyAdmits(st, after) && Outstanding(after) <= Outstanding(st)
      && (st.active == [] && (loads || st.queue != []) ==> after.active != [] || Outstanding(after) < Outstanding(st))
  {
    assert env.blockSize >= 1;
    var resumed := ResumeAll(env, st, loads);
    ResumeAllKeepsInv(env, st, loads);
    AdmitQueueKeepsInv(env, resumed, refused, cancelled);
    AdmitsTransitively(st, resumed, AdmitQueue(env, resumed, refused, cancelled));
    if st.active == [] && (loads || st.queue != []) && resumed.active == [] {
      ResumedUnlessEmpty(env, st, loads);
      QueueMoves(env, resumed, refused, cancelled);
    }
    hide Inv, AdmitQueue, ResumeAll;
  }

  lemma ResumedUnlessEmpty(env: Env, st: State, loads: bool)
    requires Inv(env, st) && env.server.maxSlots >= 1 && Outstanding(st) > 0 && st.active == []
    requires ResumeAll(env, st, loads).active == [] && (loads || st.queue != [])
    ensures ResumeAll(env, st, loads).queue != []
  {
    ResumeAllKeepsInv(env, st, loads);
    if loads && st.resume != [] {
      FirstResumes(env, st);
      ResumesKeepsInv(env, st, loads);
      ResumeAllKeepsInv(env, ResumeTop(st, Returner(env, st)), loads);
    }
    hide Inv, Returner;
  }

  lemma QueueMoves(env: Env, st: State, refused: set<Ticket>, cancelled: set<Ticket>)
    requires Inv(env, st) && env.server.maxSlots >= 1 && st.active == [] && st.queue != []
    ensures var after := AdmitQueue(env, st, refused, cancelled);
      after.active != [] || Outstanding(after) < Outstanding(st)
  {
    assert env.blockSize >= 1;
    hide Inv, Judge, Newcomer;
    FrontNeverWaits(env, st.active, st.queue[0], refused, cancelled);
    match Judge(env, st.active, st.queue[0], refused, cancelled) {
      case Answer(error) =>
        AnswerKeepsInv(env, st, error);
        AdmitQueueKeepsInv(env, AnswerFront(st, error), refused, cancelled);
      case Enter(job, reservation) =>
        EnterKeepsInv(env, st, refused, cancelled);
        AdmitQueueKeepsInv(env, AdmitFront(st, job, Newcomer(env, st, job, reservation)), refused, cancelled);
    }
  }

  // ---- Whose fault an error is ----

  /** The only errors an admitted job can be answered with: the model could not be loaded, or its own
      tokens outgrew the window. The block pool is never the reason. */
  predicate OwnFault(env: Env, error: InferenceError) {
    error == LoadError || (error.ContextLengthExceeded? && error.actual > error.max == env.ctx)
  }

  ghost predicate Truthful(env: Env, events: seq<EmissionEvent>) {
    forall i :: 0 <= i < |events| && events[i].Retire? && events[i].reply.Err? ==> OwnFault(env, events[i].reply.error)
  }

  lemma {:induction false} FailuresTruthful(env: Env, r: Round<JobMeta>, seqs: seq<JobSeq>, outcomes: seq<StepOutcome>, lanes: seq<seq<Token>>, n: nat)
    requires r.promised && r.ctx == env.ctx && Completed(r, seqs, outcomes, lanes) && n <= |seqs|
    ensures Truthful(env, FailEvents(seqs, outcomes, n))
  {
    hide ShareOf, InLockstep, Within;
    if n > 0 {
      FailuresTruthful(env, r, seqs, outcomes, lanes, n - 1);
      assert Settled(r.seqs[n - 1], seqs[n - 1], outcomes[n - 1], ShareOf(r.seqs, r.ctx, r.chunk, r.budget, n - 1), r.ctx, r.stops, r.model, r.sample, r.promised);
    }
  }

  lemma {:induction false} RetirementsTruthful(env: Env, seqs: seq<JobSeq>)
    ensures Truthful(env, RetireEvents(seqs))
  {
    if seqs != [] {
      RetirementsTruthful(env, seqs[..|seqs| - 1]);
    }
  }

  /** With the promise kept, nothing a step sends blames the pool. */
  lemma StepTruthful(env: Env, events: seq<EmissionEvent>, r: Round<JobMeta>, seqs: seq<JobSeq>, outcomes: seq<StepOutcome>, lanes: seq<seq<Token>>)
    requires Truthful(env, events) && r.promised && r.ctx == env.ctx && Completed(r, seqs, outcomes, lanes)
    ensures Truthful(env, events + RoundEvents(env.server, seqs, outcomes) + RetireEvents(NotedAll(seqs, outcomes)))
  {
    hide Completed, RetireEvents, FailEvents, OwnFault, Truthful, NotedAll;
    assert |seqs| == |outcomes| by {
      CompletedSizes(r, seqs, outcomes, lanes);
    }
    FailuresTruthful(env, r, seqs, outcomes, lanes, |seqs|);
    RetirementsTruthful(env, NotedAll(seqs, outcomes));
    TokensTruthful(env, RoundTokens(env.server, seqs, outcomes, |seqs|));
    TruthfulAppend(env, FailEvents(seqs, outcomes, |seqs|), TokenEvents(RoundTokens(env.server, seqs, outcomes, |seqs|)));
    TruthfulAppend(env, events, RoundEvents(env.server, seqs, outcomes));
    TruthfulAppend(env, events + RoundEvents(env.server, seqs, outcomes), RetireEvents(NotedAll(seqs, outcomes)));
  }

  lemma CompletedSizes(r: Round<JobMeta>, seqs: seq<JobSeq>, outcomes: seq<StepOutcome>, lanes: seq<seq<Token>>)
    requires Completed(r, seqs, outcomes, lanes)
    ensures |seqs| == |outcomes| == |r.seqs|
  {
  }

  lemma TokensTruthful(env: Env, batch: seq<(nat, seq<Byte>)>)
    ensures Truthful(env, TokenEvents(batch))
  {
  }

  lemma TruthfulAppend(env: Env, a: seq<EmissionEvent>, b: seq<EmissionEvent>)
    requires Truthful(env, a) && Truthful(env, b)
    ensures Truthful(env, a + b)
  {
    hide OwnFault;
  }

  /** An answered job's error, if any, is one that was sent for it. */
  lemma {:induction false} RepliesTruthful(env: Env, events: seq<EmissionEvent>, id: nat)
    requires Truthful(env, events) && Track(events, id).Done? && Track(events, id).reply.Err?
    ensures OwnFault(env, Track(events, id).reply.error)
  {
    var last := |events| - 1;
    assert Truthful(env, events[..last]);
    if Track(events[..last], id).Done? {
      RepliesTruthful(env, events[..last], id);
    }
  }

  // ---- Reserve admission ----

  /** Under `Reserve` nobody is ever evicted and nobody unfinished is ever paused. */
  ghost predicate NobodyWaits(env: Env, active: seq<JobSeq>, resume: seq<ResumedJob>) {
    env.server.admission == Reserve ==>
      && resume == []
      && forall i :: 0 <= i < |active| ==> active[i].finished || !active[i].paused
  }

  /** Full reservations make the grant pass a no-op. */
  lemma ReserveNeverWaits(env: Env, st: State, g: Start, seqs: seq<JobSeq>, lanes: seq<seq<Token>>, resume: seq<ResumedJob>, kept: seq<nat>, evicted: seq<JobSeq>)
    requires env.blockSize >= 1 && NobodyWaits(env, st.active, st.resume)
    requires forall i :: 0 <= i < |g.seqs| ==> SeqOk(env, st.jobs, st.events, g.seqs[i])
    requires g.resume == st.resume && g.blockSize == env.blockSize && g.totalBlocks == env.totalBlocks && g.ctx == env.ctx
    requires Steady(g, seqs, lanes, resume, kept, evicted) && Deciding(g, seqs, evicted, |seqs|)
    ensures NobodyWaits(env, seqs, resume)
  {
    if env.server.admission == Reserve {
      hide InLockstep, JobsConserved, Covered, Full;
      forall i | 0 <= i < |g.seqs|
        ensures Full(g.seqs[i], g.blockSize, g.ctx) <= g.seqs[i].kvReservation
      {
        FullIsWorst(env, st.jobs, st.events, g.seqs[i]);
      }
      assert AllFull(g);
    }
  }

  lemma RoundNeverPauses(env: Env, r: Round<JobMeta>, seqs: seq<JobSeq>, outcomes: seq<StepOutcome>, lanes: seq<seq<Token>>, resume: seq<ResumedJob>)
    requires NobodyWaits(env, r.seqs, resume) && r.promised && Completed(r, seqs, outcomes, lanes)
    ensures NobodyWaits(env, Unfinished(NotedAll(seqs, outcomes)), resume)
  {
    if env.server.admission == Reserve {
      hide Completed, Unfinished, NotedAll;
      CompletedSizes(r, seqs, outcomes, lanes);
      var noted := NotedAll(seqs, outcomes);
      var from := SurvivorsFrom(noted);
      forall i | 0 <= i < |from|
        ensures !Unfinished(noted)[i].paused
      {
        RoundKeepsPause(r, seqs, outcomes, lanes, from[i]);
      }
    }
  }

  /** A round pauses nobody and unfinishes nobody. */
  lemma RoundKeepsPause(r: Round<JobMeta>, seqs: seq<JobSeq>, outcomes: seq<StepOutcome>, lanes: seq<seq<Token>>, i: nat)
    requires r.promised && Completed(r, seqs, outcomes, lanes) && i < |seqs| == |outcomes| == |r.seqs|
    ensures NotedAll(seqs, outcomes)[i].paused == r.seqs[i].paused
    ensures r.seqs[i].finished ==> NotedAll(seqs, outcomes)[i].finished
  {
    hide ShareOf, InLockstep, Within;
    assert Settled(r.seqs[i], seqs[i], outcomes[i], ShareOf(r.seqs, r.ctx, r.chunk, r.budget, i), r.ctx, r.stops, r.model, r.sample, r.promised);
  }

  lemma {:induction false} LoadFailuresTruthful(env: Env, seqs: seq<JobSeq>, n: nat)
    requires n <= |seqs|
    ensures Truthful(env, FailEvents(seqs, AllFailed(seqs), n))
  {
    if n > 0 {
      LoadFailuresTruthful(env, seqs, n - 1);
    }
  }

  /** Every error among these events, from position `from` on, is this kind of error. */
  ghost predicate ErrorsFrom(events: seq<EmissionEvent>, from: nat, env: Env, loaded: bool) {
    forall i :: from <= i < |events| && events[i].Retire? && events[i].reply.Err? ==>
      if loaded then events[i].reply.error.ContextLengthExceeded? && events[i].reply.error.actual > events[i].reply.error.max == env.ctx
      else events[i].reply.error == LoadError
  }

  /** While the model is there, the only errors a step sends are for tokens that outgrew the window. */
  lemma StepErrors(env: Env, before: State, cancelled: set<Ticket>, t: StepTrace, after: State)
    requires Inv(env, before) && StepTaken(env, before, cancelled, t, after)
    ensures ErrorsFrom(after.events, |before.events|, env, true)
  {
    hide Inv, Running, Granted, Promised, Released, Unfinished, FreedSlots, FailEvents, RetireEvents, RoundTokens, NotedAll;
    GrantsPromise(env, before, cancelled, t);
    RoundFailures(env, t, |t.seqs|);
    RetirementsHaveNoError(NotedAll(t.seqs, t.outcomes));
  }

  lemma {:induction false} RoundFailures(env: Env, t: StepTrace, n: nat)
    requires Rounded(env, t) && t.round.promised && n <= |t.seqs|
    ensures ErrorsFrom(FailEvents(t.seqs, t.outcomes, n), 0, env, true)
  {
    hide ShareOf, InLockstep, Within, Promised;
    if n > 0 {
      RoundFailures(env, t, n - 1);
      assert Settled(t.round.seqs[n - 1], t.seqs[n - 1], t.outcomes[n - 1], ShareOf(t.round.seqs, t.round.ctx, t.round.chunk, t.round.budget, n - 1), t.round.ctx, t.round.stops, t.round.model, t.round.sample, t.round.promised);
    }
  }

  lemma {:induction false} RetirementsHaveNoError(seqs: seq<JobSeq>)
    ensures forall i :: 0 <= i < |RetireEvents(seqs)| ==> RetireEvents(seqs)[i].Retire? && RetireEvents(seqs)[i].reply.Ok?
  {
    if seqs != [] {
      RetirementsHaveNoError(seqs[..|seqs| - 1]);
    }
  }

  /** When it is not, everybody running gets the load error, in order, and nobody gets anything else. */
  lemma {:induction false} LoadFailuresInOrder(seqs: seq<JobSeq>, n: nat)
    requires n <= |seqs|
    ensures |FailEvents(seqs, AllFailed(seqs), n)| == n
    ensures forall i :: 0 <= i < n ==> FailEvents(seqs, AllFailed(seqs), n)[i] == Retire(seqs[i].extra.id, Err(LoadError))
  {
    if n > 0 {
      LoadFailuresInOrder(seqs, n - 1);
    }
  }

  // ---- Ids ----

  lemma {:induction false} FailuresAdmitNobody(seqs: seq<JobSeq>, outcomes: seq<StepOutcome>, n: nat)
    requires n <= |seqs| == |outcomes|
    ensures NoAdmissions(FailEvents(seqs, outcomes, n))
  {
    if n > 0 {
      FailuresAdmitNobody(seqs, outcomes, n - 1);
    }
  }

  lemma {:induction false} RetirementsAdmitNobody(seqs: seq<JobSeq>)
    ensures NoAdmissions(RetireEvents(seqs))
  {
    if seqs != [] {
      RetirementsAdmitNobody(seqs[..|seqs| - 1]);
    }
  }

  lemma StepAdmitsNobody(server: Server, seqs: seq<JobSeq>, outcomes: seq<StepOutcome>)
    requires |seqs| == |outcomes|
    ensures NoAdmissions(RoundEvents(server, seqs, outcomes)) && NoAdmissions(RetireEvents(NotedAll(seqs, outcomes)))
  {
    FailuresAdmitNobody(seqs, outcomes, |seqs|);
    RetirementsAdmitNobody(NotedAll(seqs, outcomes));
    hide FailEvents, RetireEvents;
  }

  lemma StepStaysNumbered(server: Server, events: seq<EmissionEvent>, count: nat, seqs: seq<JobSeq>, outcomes: seq<StepOutcome>)
    requires |seqs| == |outcomes| && Numbered(events, count)
    ensures Numbered(events + RoundEvents(server, seqs, outcomes) + RetireEvents(NotedAll(seqs, outcomes)), count)
  {
    StepAdmitsNobody(server, seqs, outcomes);
    hide Numbered, RoundEvents, RetireEvents, NoAdmissions;
    NumberedAppend(events, RoundEvents(server, seqs, outcomes), count);
    NumberedAppend(events + RoundEvents(server, seqs, outcomes), RetireEvents(NotedAll(seqs, outcomes)), count);
  }

  // ---- Who is told that it was cancelled ----

  /** Only jobs whose signal fired are told that they were cancelled. */
  ghost predicate Signalled(events: seq<EmissionEvent>, jobs: seq<Job>, fired: set<Ticket>) {
    forall i :: 0 <= i < |events| && events[i].Retire? && events[i].reply.Ok? && events[i].reply.reason == Aborted ==>
      events[i].id < |jobs| && jobs[events[i].id].ticket in fired
  }

  lemma SignalledAppend(a: seq<EmissionEvent>, b: seq<EmissionEvent>, jobs: seq<Job>, fired: set<Ticket>, fired': set<Ticket>)
    requires Signalled(a, jobs, fired) && Signalled(b, jobs, fired') && fired <= fired'
    ensures Signalled(a + b, jobs, fired')
  {
  }

  lemma {:induction false} FailuresSignalled(seqs: seq<JobSeq>, outcomes: seq<StepOutcome>, n: nat, jobs: seq<Job>, fired: set<Ticket>)
    requires n <= |seqs| == |outcomes|
    ensures Signalled(FailEvents(seqs, outcomes, n), jobs, fired)
  {
    if n > 0 {
      FailuresSignalled(seqs, outcomes, n - 1, jobs, fired);
    }
  }

  lemma {:induction false} RetirementsSignalled(seqs: seq<JobSeq>, jobs: seq<Job>, fired: set<Ticket>)
    requires forall k :: 0 <= k < |seqs| && seqs[k].extra.cancelled ==> seqs[k].extra.id < |jobs| && jobs[seqs[k].extra.id].ticket in fired
    ensures Signalled(RetireEvents(seqs), jobs, fired)
  {
    if seqs != [] {
      RetirementsSignalled(seqs[..|seqs| - 1], jobs, fired);
    }
  }

  /** After the sweep only signalled sequences are marked cancelled. */
  lemma SweptIsSignalled(env: Env, before: State, cancelled: set<Ticket>)
    requires Inv(env, before)
    ensures var swept := SweepAll(before.active, cancelled);
      forall k :: 0 <= k < |swept| && swept[k].extra.cancelled ==>
        swept[k].extra.id < |before.jobs| && before.jobs[swept[k].extra.id].ticket in cancelled
  {
    hide Solo, SoloReason, SoloLength, Track, Detok, WorstBlocks, OnCourse;
    forall k | 0 <= k < |before.active|
      ensures var s := SweepAll(before.active, cancelled)[k];
        s.extra.cancelled ==> s.extra.id < |before.jobs| && before.jobs[s.extra.id].ticket in cancelled
    {
      assert SeqOk(env, before.jobs, before.events, before.active[k]);
    }
  }

  /** The round and the grants mark nobody cancelled. */
  lemma NotedIsSignalled(g: Start, t: StepTrace, jobs: seq<Job>, cancelled: set<Ticket>)
    requires Survive(g.seqs, t.granted, t.kept)
    requires forall k :: 0 <= k < |g.seqs| && g.seqs[k].extra.cancelled ==> g.seqs[k].extra.id < |jobs| && jobs[g.seqs[k].extra.id].ticket in cancelled
    requires |t.seqs| == |t.outcomes| == |t.granted| && forall i :: 0 <= i < |t.seqs| ==> t.seqs[i].extra == t.granted[i].extra
    ensures var noted := NotedAll(t.seqs, t.outcomes);
      forall k :: 0 <= k < |noted| && noted[k].extra.cancelled ==> noted[k].extra.id < |jobs| && jobs[noted[k].extra.id].ticket in cancelled
  {
    forall k | 0 <= k < |t.seqs| && NotedAll(t.seqs, t.outcomes)[k].extra.cancelled
      ensures var s := NotedAll(t.seqs, t.outcomes)[k]; s.extra.id < |jobs| && jobs[s.extra.id].ticket in cancelled
    {
      assert OnlyGranted(g.seqs[t.kept[k]], t.granted[k]);
    }
  }

  /** A step tells only signalled jobs that they were cancelled. */
  lemma StepSignals(env: Env, before: State, cancelled: set<Ticket>, t: StepTrace, after: State)
    requires Inv(env, before) && Signalled(before.events, before.jobs, before.fired) && StepTaken(env, before, cancelled, t, after)
    ensures Signalled(after.events, after.jobs, after.fired)
  {
    hide Inv, Running, Completed, Promised, Released, Steady, Deciding, ToppedUp, Frugal, RetireEvents, FailEvents, Unfinished, FreedSlots, NotedAll, SweepAll, Signalled, RoundTokens;
    GrantsPromise(env, before, cancelled, t);
    SweptIsSignalled(env, before, cancelled);
    var g := GrantStart(env, before, cancelled);
    SurvivorsOfGrant(g, t);
    RoundIds(env, before.(active := t.granted), t.round, t.seqs, t.outcomes, t.lanesAfter);
    NotedIsSignalled(g, t, before.jobs, cancelled);
    var noted, fired := NotedAll(t.seqs, t.outcomes), before.fired + cancelled;
    FailuresSignalled(t.seqs, t.outcomes, |t.seqs|, before.jobs, fired);
    RetirementsSignalled(noted, before.jobs, fired);
    TokensSignalled(RoundTokens(env.server, t.seqs, t.outcomes, |t.seqs|), before.jobs, fired);
    SignalledAppend(FailEvents(t.seqs, t.outcomes, |t.seqs|), TokenEvents(RoundTokens(env.server, t.seqs, t.outcomes, |t.seqs|)), before.jobs, fired, fired);
    SignalledAppend(before.events, RoundEvents(env.server, t.seqs, t.outcomes), before.jobs, before.fired, fired);
    SignalledAppend(before.events + RoundEvents(env.server, t.seqs, t.outcomes), RetireEvents(noted), before.jobs, fired, fired);
  }

  lemma SurvivorsOfGrant(g: Start, t: StepTrace)
    requires Steady(g, t.granted, t.lanes, t.resume, t.kept, t.evicted)
    ensures Survive(g.seqs, t.granted, t.kept)
  {
  }

  lemma TokensSignalled(batch: seq<(nat, seq<Byte>)>, jobs: seq<Job>, fired: set<Ticket>)
    ensures Signalled(TokenEvents(batch), jobs, fired)
  {
  }

  /** An answered job that is told so was signalled. */
  lemma {:induction false} RepliesSignalled(events: seq<EmissionEvent>, jobs: seq<Job>, fired: set<Ticket>, id: nat)
    requires Signalled(events, jobs, fired)
    requires Track(events, id).Done? && Track(events, id).reply.Ok? && Track(events, id).reply.reason == Aborted
    ensures id < |jobs| && jobs[id].ticket in fired
  {
    var last := |events| - 1;
    assert Signalled(events[..last], jobs, fired);
    if Track(events[..last], id).Done? {
      RepliesSignalled(events[..last], jobs, fired, id);
    }
  }

  /** What the worker also keeps: errors are the requests' own, nobody waits under `Reserve`, ids are
      given out once, in order, and only signalled jobs are told that they were cancelled. */
  ghost predicate Sound(env: Env, st: State) {
    && Truthful(env, st.events)
    && Signalled(st.events, st.jobs, st.fired)
    && NobodyWaits(env, st.active, st.resume)
    && Numbered(st.events, |st.jobs|)
  }

  // ---- A whole step over a loaded model ----

  /** What a step went through between its sweep and its retirements. */
  datatype StepTrace = StepTrace(
    granted: seq<JobSeq>, lanes: seq<seq<Token>>, resume: seq<ResumedJob>, kept: seq<nat>, evicted: seq<JobSeq>,
    round: Round<JobMeta>, seqs: seq<JobSeq>, outcomes: seq<StepOutcome>, lanesAfter: seq<seq<Token>>)

  /** What the grants of a step start from. */
  function GrantStart(env: Env, before: State, cancelled: set<Ticket>): Start {
    Start(SweepAll(before.active, cancelled), before.lanes, before.resume, env.blockSize, env.totalBlocks, env.ctx)
  }

  /** Sweep, grant, one round, ship, retire. */
  ghost predicate StepTaken(env: Env, before: State, cancelled: set<Ticket>, t: StepTrace, after: State) {
    && Granted(env, before, cancelled, t)
    && Rounded(env, t)
    && var noted := NotedAll(t.seqs, t.outcomes);
    && Released(t.lanesAfter, after.lanes, FreedSlots(noted))
    && after == before.(active := Unfinished(noted), lanes := after.lanes, resume := t.resume, fired := before.fired + cancelled,
         events := before.events + RoundEvents(env.server, t.seqs, t.outcomes) + RetireEvents(noted))
  }

  ghost predicate Granted(env: Env, before: State, cancelled: set<Ticket>, t: StepTrace) {
    var g := GrantStart(env, before, cancelled);
    && Steady(g, t.granted, t.lanes, t.resume, t.kept, t.evicted) && Deciding(g, t.granted, t.evicted, |t.granted|)
    && ToppedUp(g, t.granted) && Frugal(g, t.granted, t.kept, t.evicted, |t.granted|)
  }

  /** Some sequence has been through the decoder before and owes exactly one token. */
  ghost predicate SomebodyDecodes(seqs: seq<JobSeq>) {
    exists i :: 0 <= i < |seqs| && !seqs[i].finished && seqs[i].generated < seqs[i].maxGen && seqs[i].processed > 0 && |seqs[i].tokens| == seqs[i].processed + 1
  }

  ghost predicate Rounded(env: Env, t: StepTrace) {
    && t.round.seqs == t.granted && t.round.lanes == t.lanes
    && t.round.blockSize == env.blockSize && t.round.totalBlocks == env.totalBlocks && t.round.ctx == env.ctx
    && t.round.stops == env.server.stops && t.round.model == env.model && t.round.sample == env.server.sample
    && t.round.chunk == env.server.chunk
    && t.round.budget == (if env.server.prefillBudget > 0 && SomebodyDecodes(t.granted) then Some(env.server.prefillBudget) else None)
    && (t.round.blockSize >= 1 && Promised(t.granted, t.lanes, t.round.blockSize, t.round.totalBlocks, t.round.ctx) ==> t.round.promised)
    && Completed(t.round, t.seqs, t.outcomes, t.lanesAfter)
    && |t.seqs| == |t.outcomes|
  }

  /** The grants keep the promise on which the round runs undisturbed. */
  lemma GrantsPromise(env: Env, before: State, cancelled: set<Ticket>, t: StepTrace)
    requires Inv(env, before) && Granted(env, before, cancelled, t) && Rounded(env, t)
    ensures Running(env, Swept(before, cancelled).(active := t.granted, lanes := t.lanes, resume := t.resume)) && t.round.promised
  {
    var swept := Swept(before, cancelled);
    SweepKeepsRunning(env, before, cancelled);
    assert Housed(env, swept.active, swept.lanes);
    var g := GrantStart(env, before, cancelled);
    hide Running, Housed, Promised, Completed, Steady, Deciding, ToppedUp, Frugal, SweepAll;
    GrantKeepsRunning(env, swept, g, t.granted, t.lanes, t.resume, t.kept, t.evicted);
    GrantedIsPromised(env, g, t.granted, t.lanes, t.resume, t.kept, t.evicted);
  }

  /** The heart of the worker: a step keeps every job's delivery the beginning of its solo run, and
      every reply faithful. */
  lemma StepKeepsInv(env: Env, before: State, cancelled: set<Ticket>, t: StepTrace, after: State)
    requires Inv(env, before) && StepTaken(env, before, cancelled, t, after)
    ensures Inv(env, after)
  {
    GrantsPromise(env, before, cancelled, t);
    var ran := Swept(before, cancelled).(active := t.granted, lanes := t.lanes, resume := t.resume);
    var noted := NotedAll(t.seqs, t.outcomes);
    var shipped := ran.(active := noted, lanes := t.lanesAfter, events := before.events + RoundEvents(env.server, t.seqs, t.outcomes));
    hide Inv, Running, Granted, Completed, Shipped, Released, RoundEvents, RetireEvents, FreedSlots, Unfinished, NotedAll;
    RoundShipped(env, ran, t.round, t.seqs, t.outcomes, t.lanesAfter);
    RetirementQuiet(env, shipped, after.lanes);
    assert after == shipped.(active := Unfinished(noted), lanes := after.lanes, events := shipped.events + RetireEvents(noted));
  }

  /** A step over a loaded model answers somebody or brings the oldest sequence closer to its end. */
  lemma StepMakesProgress(env: Env, before: State, cancelled: set<Ticket>, t: StepTrace, after: State)
    requires Inv(env, before) && StepTaken(env, before, cancelled, t, after) && before.active != []
    ensures Advances(before, after)
  {
    var g := GrantStart(env, before, cancelled);
    GrantsPromise(env, before, cancelled, t);
    SweptStaysOk(env, before, cancelled);
    hide Inv, Running, Steady, Deciding, ToppedUp, Frugal, Completed, Promised, Released, RoundEvents, RetireEvents, FreedSlots, Unfinished, NotedAll, SweepAll, SeqOk, Advances, Full;
    forall i | 0 <= i < |g.seqs|
      ensures Full(g.seqs[i], g.blockSize, g.ctx) <= g.totalBlocks
    {
      FullIsWorst(env, before.jobs, before.events, g.seqs[i]);
    }
    StepAdvances(env, before, cancelled, g, t.granted, t.lanes, t.resume, t.kept, t.evicted, t.round, t.seqs, t.outcomes, t.lanesAfter, after);
  }

  /** What a step reports is the requests' own fault or success, and under `Reserve` it leaves nobody
      waiting. */
  lemma StepStaysSound(env: Env, before: State, cancelled: set<Ticket>, t: StepTrace, after: State)
    requires Inv(env, before) && Sound(env, before) && StepTaken(env, before, cancelled, t, after)
    ensures Sound(env, after)
  {
    var g := GrantStart(env, before, cancelled);
    var noted := NotedAll(t.seqs, t.outcomes);
    StepSignals(env, before, cancelled, t, after);
    GrantsPromise(env, before, cancelled, t);
    SweptStaysOk(env, before, cancelled);
    hide Inv, Running, Steady, Deciding, ToppedUp, Frugal, Completed, Promised, Released, RoundEvents, RetireEvents, FreedSlots, Unfinished, NotedAll, SweepAll, Truthful, Signalled, NobodyWaits, Numbered, SeqOk;
    StepTruthful(env, before.events, t.round, t.seqs, t.outcomes, t.lanesAfter);
    StepStaysNumbered(env.server, before.events, |before.jobs|, t.seqs, t.outcomes);
    ReserveNeverWaits(env, before, g, t.granted, t.lanes, t.resume, t.kept, t.evicted);
    RoundNeverPauses(env, t.round, t.seqs, t.outcomes, t.lanesAfter, t.resume);
  }

  lemma SweptStaysOk(env: Env, st: State, cancelled: set<Ticket>)
    requires Inv(env, st)
    ensures env.blockSize >= 1
    ensures var swept := SweepAll(st.active, cancelled); forall i :: 0 <= i < |swept| ==> SeqOk(env, st.jobs, st.events, swept[i])
  {
    SweepKeepsRunning(env, st, cancelled);
    hide SweepAll, SeqOk;
  }

  // ---- The prefill allowance ----

  /** A sequence with more than one unread token, which this round may run. */
  ghost predicate Waits(s: JobSeq, ctx: nat) {
    && !s.finished && !s.paused && s.generated < s.maxGen
    && s.processed + 1 < |s.tokens| <= ctx
  }

  /** Prompt tokens the round read for the first `n` sequences. */
  function PromptTokens(before: seq<JobSeq>, after: seq<JobSeq>, n: nat): int
    requires n <= |before| == |after|
  {
    if n == 0 then 0
    else
      PromptTokens(before, after, n - 1)
      + if before[n - 1].processed + 1 < |before[n - 1].tokens| then after[n - 1].processed - before[n - 1].processed else 0
  }

  /** What the round reads of one sequence is its share. */
  lemma ReadIsShare(env: Env, t: StepTrace, i: nat)
    requires Rounded(env, t) && t.round.promised && i < |t.granted|
    ensures InBounds(t.granted) && |t.seqs| == |t.granted|
    ensures var s := t.granted[i]; s.processed + 1 < |s.tokens| ==>
      t.seqs[i].processed - s.processed == ShareOf(t.granted, env.ctx, env.server.chunk, t.round.budget, i)
  {
    hide Promised, InLockstep, Within, BudgetAt;
    assert Settled(t.round.seqs[i], t.seqs[i], t.outcomes[i], ShareOf(t.round.seqs, t.round.ctx, t.round.chunk, t.round.budget, i), t.round.ctx, t.round.stops, t.round.model, t.round.sample, t.round.promised);
  }

  lemma {:induction false} ReadIsSpent(env: Env, t: StepTrace, n: nat)
    requires Rounded(env, t) && t.round.promised && n <= |t.granted|
    ensures InBounds(t.granted) && |t.seqs| == |t.granted|
    ensures PromptTokens(t.granted, t.seqs, n) == SharesBelow(t.granted, env.ctx, env.server.chunk, t.round.budget, n)
  {
    hide Rounded, ShareOf, InBounds;
    RoundedBounds(env, t);
    if n > 0 {
      ReadIsSpent(env, t, n - 1);
      ReadIsShare(env, t, n - 1);
      if t.granted[n - 1].processed + 1 >= |t.granted[n - 1].tokens| {
        NoShareWithoutPrompt(t.granted, env.ctx, env.server.chunk, t.round.budget, n - 1);
      }
    }
  }

  lemma RoundedBounds(env: Env, t: StepTrace)
    requires Rounded(env, t)
    ensures InBounds(t.granted) && |t.seqs| == |t.granted|
  {
    hide Settled, ShareOf, InLockstep, Within;
  }

  lemma NoShareWithoutPrompt(seqs: seq<JobSeq>, ctx: nat, chunk: nat, budget: Option<nat>, i: nat)
    requires i < |seqs| && InBounds(seqs) && seqs[i].processed + 1 >= |seqs[i].tokens|
    ensures ShareOf(seqs, ctx, chunk, budget, i) == 0
  {
  }

  /** While somebody decodes and the operator set an allowance, the prompt tokens a round reads total at
      most that allowance. */
  lemma RoundIsBounded(env: Env, before: State, cancelled: set<Ticket>, t: StepTrace, after: State)
    requires Inv(env, before) && StepTaken(env, before, cancelled, t, after)
    requires env.server.prefillBudget > 0 && SomebodyDecodes(t.granted)
    ensures |t.seqs| == |t.granted| && PromptTokens(t.granted, t.seqs, |t.granted|) <= env.server.prefillBudget
  {
    hide Inv, Running, Granted, Completed;
    GrantsPromise(env, before, cancelled, t);
    ReadIsSpent(env, t, |t.granted|);
    AllowanceBounds(t.granted, env.ctx, env.server.chunk, env.server.prefillBudget, |t.granted|);
  }

  /** Every waiting prompt reads a whole chunk, or all it has left, or all that older prompts left of the
      allowance; no less and no more. */
  lemma PromptReadsItsShare(env: Env, before: State, cancelled: set<Ticket>, t: StepTrace, after: State, i: nat)
    requires Inv(env, before) && StepTaken(env, before, cancelled, t, after) && i < |t.granted| && Waits(t.granted[i], env.ctx)
    ensures |t.seqs| == |t.granted|
    ensures var s := t.granted[i]; var left := |s.tokens| - s.processed;
      var chunk := if env.server.chunk == 0 || left < env.server.chunk then left else env.server.chunk;
      t.seqs[i].processed - s.processed ==
        if env.server.prefillBudget > 0 && SomebodyDecodes(t.granted)
        then if chunk <= env.server.prefillBudget - PromptTokens(t.granted, t.seqs, i) then chunk else env.server.prefillBudget - PromptTokens(t.granted, t.seqs, i)
        else chunk
  {
    hide Inv, Running, Granted, Completed;
    GrantsPromise(env, before, cancelled, t);
    ReadIsShare(env, t, i);
    ReadIsSpent(env, t, i);
    if env.server.prefillBudget > 0 && SomebodyDecodes(t.granted) {
      AllowanceBounds(t.granted, env.ctx, env.server.chunk, env.server.prefillBudget, i);
    } else {
      Unbounded(t.granted, env.ctx, env.server.chunk, i);
    }
  }

  // ---- One sequence, one round ----

  /** The round in plain words, for whoever the grants left running. Finished and paused sequences stand
      still. One with nothing left to do, or longer than the context, is finished, the latter with an
      error. Anybody else reads on; who reads everything samples the one greedy token after it, and is
      finished by a stop token or by its cap. */
  lemma OneRound(env: Env, before: State, cancelled: set<Ticket>, t: StepTrace, after: State, i: nat)
    requires Inv(env, before) && StepTaken(env, before, cancelled, t, after) && i < |t.granted|
    ensures |t.seqs| == |t.outcomes| == |t.granted|
    ensures var s, s', o := t.granted[i], t.seqs[i], t.outcomes[i];
      var still, idle := s.finished || s.paused, s.generated >= s.maxGen || s.processed == |s.tokens|;
      && (still ==> s' == s && o == Skipped)
      && (!still && idle ==> s' == s.(finished := true) && o == Skipped)
      && (!still && !idle && |s.tokens| > env.ctx ==> s' == s.(finished := true) && o == Failed(ContextLengthExceeded(|s.tokens|, env.ctx)))
      && (!still && !idle && |s.tokens| <= env.ctx ==>
            && s.processed <= s'.processed <= |s.tokens|
            && (s.processed + 1 == |s.tokens| ==> s'.processed == |s.tokens|)
            && (s'.processed < |s.tokens| ==>
                  && s' == s.(processed := s'.processed)
                  && o == if s'.processed == s.processed then Skipped else Prefilling)
            && (s'.processed == |s.tokens| ==>
                  && var token := env.server.sample(env.model.head(Encode(env.model, s.tokens)));
                  var ends := token in env.server.stops || s.generated + 1 == s.maxGen;
                  && s' == s.(processed := |s.tokens|, tokens := s.tokens + [token], generated := s.generated + 1, finished := ends)
                  && o == Stepped(token, token in env.server.stops, ends)))
  {
    hide Inv, Running, Granted, Promised, InLockstep, Within, ShareOf;
    GrantsPromise(env, before, cancelled, t);
    assert Settled(t.round.seqs[i], t.seqs[i], t.outcomes[i], ShareOf(t.round.seqs, t.round.ctx, t.round.chunk, t.round.budget, i), t.round.ctx, t.round.stops, t.round.model, t.round.sample, t.round.promised);
  }

  // ---- A signal that fires is honoured ----

  /** A finished sequence is never evicted: it goes through the grants where it stands. */
  lemma FinishedStays(g: Start, t: StepTrace, k: nat) returns (i: nat)
    requires Steady(g, t.granted, t.lanes, t.resume, t.kept, t.evicted) && DistinctIds(g.seqs)
    requires k < |g.seqs| && g.seqs[k].finished
    ensures i < |t.granted| && OnlyGranted(g.seqs[k], t.granted[i])
  {
    hide InLockstep, Reservations, HeldByFinished, YoungestFirst, Senior;
    var id := g.seqs[k].extra.id;
    assert Ids(g.seqs)[k] == id && id in multiset(Ids(g.seqs));
    forall e | 0 <= e < |t.evicted|
      ensures Ids(t.evicted)[e] != id
    {
      var m :| 0 <= m < |g.seqs| && g.seqs[m] == t.evicted[e];
    }
    assert id !in Ids(t.evicted);
    assert id in multiset(Ids(t.granted));
    i :| 0 <= i < |t.granted| && Ids(t.granted)[i] == id;
    assert OnlyGranted(g.seqs[t.kept[i]], t.granted[i]);
  }

  /** A finished sequence goes through the round untouched and unheard. */
  lemma FinishedRests(env: Env, t: StepTrace, i: nat)
    requires Rounded(env, t) && i < |t.granted| && t.granted[i].finished && t.round.promised
    ensures |t.seqs| == |t.outcomes| == |t.granted|
    ensures t.seqs[i] == t.granted[i] && t.outcomes[i] == Skipped && NotedAll(t.seqs, t.outcomes)[i] == t.granted[i]
  {
    hide Promised, InLockstep, Within, ShareOf;
    assert Settled(t.round.seqs[i], t.seqs[i], t.outcomes[i], ShareOf(t.round.seqs, t.round.ctx, t.round.chunk, t.round.budget, i), t.round.ctx, t.round.stops, t.round.model, t.round.sample, t.round.promised);
  }

  /** A running job whose signal has fired is answered in this very step: it is told that it was
      cancelled, how many tokens it had generated, and gets no byte more. */
  lemma CancelIsHonoured(env: Env, before: State, cancelled: set<Ticket>, t: StepTrace, after: State, k: nat)
    requires Inv(env, before) && StepTaken(env, before, cancelled, t, after)
    requires k < |before.active| && before.active[k].extra.ticket in cancelled
    ensures var s := before.active[k]; var d := Track(before.events, s.extra.id);
      d.Live? && Track(after.events, s.extra.id) == Done(d.ticket, d.sent, Ok(Aborted, s.generated))
  {
    hide Running, Housed, Resolved, Accounted, AllOk, Granted, Rounded, Completed, Promised, Released, RoundEvents, RetireEvents, Unfinished, FreedSlots, NotedAll, Track, SeqOk, DistinctIds;
    var s := before.active[k];
    var swept := Swept(before, cancelled);
    ActiveIsLive(env, before, k);
    GrantsPromise(env, before, cancelled, t);
    SweepKeepsRunning(env, before, cancelled);
    RunningIds(env, swept);
    assert swept.active[k] == s.(finished := true, extra := s.extra.(cancelled := true));
    SteadyOfGrant(env, before, cancelled, t);
    var i := FinishedStays(GrantStart(env, before, cancelled), t, k);
    FinishedRests(env, t, i);
    var ran := swept.(active := t.granted, lanes := t.lanes, resume := t.resume);
    RunningIds(env, ran);
    RoundIdsKept(env, ran, t);
    RoundHit(env.server, before.events, t.seqs, t.outcomes, i);
    RetireHit(before.events + RoundEvents(env.server, t.seqs, t.outcomes), NotedAll(t.seqs, t.outcomes), i);
  }

  lemma SteadyOfGrant(env: Env, before: State, cancelled: set<Ticket>, t: StepTrace)
    requires Granted(env, before, cancelled, t)
    ensures Steady(GrantStart(env, before, cancelled), t.granted, t.lanes, t.resume, t.kept, t.evicted)
  {
  }

  lemma ActiveIsLive(env: Env, st: State, k: nat)
    requires Inv(env, st) && k < |st.active|
    ensures !st.active[k].finished && !st.active[k].extra.cancelled && Track(st.events, st.active[k].extra.id).Live?
  {
    hide Solo, SoloReason, SoloLength, Track, Detok, WorstBlocks, OnCourse;
    assert SeqOk(env, st.jobs, st.events, st.active[k]);
  }

  lemma RunningIds(env: Env, st: State)
    requires Running(env, st)
    ensures DistinctIds(st.active)
  {
    ResolvedIds(env, st);
  }

  lemma RoundIdsKept(env: Env, ran: State, t: StepTrace)
    requires ran.active == t.granted && DistinctIds(t.granted) && Rounded(env, t) && t.round.promised
    ensures |t.seqs| == |t.outcomes| && DistinctIds(t.seqs) && DistinctIds(NotedAll(t.seqs, t.outcomes))
  {
    RoundIds(env, ran, t.round, t.seqs, t.outcomes, t.lanesAfter);
    hide Rounded;
  }

  // ---- A whole turn ----

  /** What the outside decides about one turn: whether the model can be borrowed when evicted jobs ask for
      it, for which queued jobs it cannot, whether it can for the round, and whose cancel signals have
      fired by the time admission and the round look. */
  datatype Signals = Signals(loadsForResume: bool, refused: set<Ticket>, loadsForRound: bool, cancelledQueued: set<Ticket>, cancelledActive: set<Ticket>)

  /** Admission under a turn's signals. */
  function AfterAdmission(env: Env, st: State, signals: Signals): State
    requires env.blockSize >= 1
  {
    Admit(env, st, signals.loadsForResume, signals.refused, signals.cancelledQueued)
  }

  /** Somebody was answered; or the oldest sequence has less left to do, or has just started. */
  ghost predicate TurnAdvances(before: State, after: State) {
    || Outstanding(after) < Outstanding(before)
    || (&& Outstanding(after) == Outstanding(before) && after.active != []
        && (before.active == []
            || (after.active[0].extra.id == before.active[0].extra.id && Remaining(after.active[0]) < Remaining(before.active[0]))))
  }

  /** The step of a turn: nothing when nobody is active, the load failure when the model is not there,
      otherwise a whole step. */
  ghost predicate StepDone(env: Env, before: State, loads: bool, cancelled: set<Ticket>, t: Option<StepTrace>, after: State) {
    && (t.Some? <==> before.active != [] && loads)
    && (before.active == [] ==> after == before)
    && (before.active != [] && !loads ==> after == LoadFailed(Swept(before, cancelled)))
    && (t.Some? ==> StepTaken(env, before, cancelled, t.value, after))
    && (before.active != [] ==> Advances(before, after))
  }

  /** A turn that takes no command in makes progress, unless the model cannot be loaded and only
      evicted jobs wait for it. */
  lemma TurnMakesProgress(env: Env, before: State, signals: Signals, t: Option<StepTrace>, after: State)
    requires Inv(env, before) && env.server.maxSlots >= 1 && Outstanding(before) > 0
    requires StepDone(env, AfterAdmission(env, before, signals), signals.loadsForRound, signals.cancelledActive, t, after)
    ensures signals.loadsForResume || before.active != [] || before.queue != [] ==> TurnAdvances(before, after)
    ensures !signals.loadsForResume && before.active == [] && before.queue == [] ==> after == before
    ensures after.submitted == before.submitted
  {
    assert env.blockSize >= 1;
    hide Inv, Granted, Rounded, Released, SweepAll, AdmitQueue, ResumeAll;
    AdmitAdvances(env, before, signals.loadsForResume, signals.refused, signals.cancelledQueued);
    var mid := AfterAdmission(env, before, signals);
    if !signals.loadsForResume && before.active == [] && before.queue == [] {
      NothingToAdmit(env, before, signals.refused, signals.cancelledQueued);
    } else if mid.active != [] && before.active != [] {
      assert mid.active[0] == before.active[0];
    }
  }

  lemma NothingToAdmit(env: Env, st: State, refused: set<Ticket>, cancelled: set<Ticket>)
    requires env.blockSize >= 1 && st.queue == []
    ensures Admit(env, st, false, refused, cancelled) == st
  {
  }

  lemma RemainingIsNat(env: Env, st: State)
    requires Inv(env, st) && st.active != []
    ensures Remaining(st.active[0]) >= 0
  {
    hide Solo, SoloReason, SoloLength, Track, Detok, WorstBlocks;
    assert SeqOk(env, st.jobs, st.events, st.active[0]);
  }

  // ---- What the invariant says about each job ----

  /** In every reachable state, each admitted job has received exactly the bytes of a beginning of its
      solo run; and once it is answered without a cancel or an error, of the whole run. Batching,
      chunking, pausing, evicting and resuming never show. */
  lemma SchedulingIsInvisible(env: Env, st: State, id: nat)
    requires Inv(env, st) && id < |st.jobs|
    ensures var d := Track(st.events, id); var job := st.jobs[id];
      && !d.Unknown? && d.ticket == job.ticket && BeginningOfSolo(env, job, d.sent)
      && (d.Done? && d.reply.Ok? && d.reply.reason != Aborted ==>
            && d.sent == Detok(env, Solo(env, job.prompt, job.maxGen))
            && d.reply.reason == SoloReason(env, job.prompt, job.maxGen)
            && d.reply.generated == SoloLength(env, job.prompt, job.maxGen))
      && (d.Done? && d.reply.Ok? && d.reply.reason == Aborted ==>
            && d.reply.generated <= |Solo(env, job.prompt, job.maxGen)|
            && d.sent == Detok(env, Solo(env, job.prompt, job.maxGen)[..d.reply.generated]))
      && (d.Live? <==> Flights(st, id) == 1)
  {
    var job := st.jobs[id];
    hide BeginningOfSolo, Solo, SoloReason, SoloLength, Track, Detok, WorstBlocks;
    if Flights(st, id) == 0 {
      assert Answered(env, st.jobs, st.events, id);
    } else if id in Ids(st.active) {
      var i :| 0 <= i < |st.active| && Ids(st.active)[i] == id;
      assert SeqOk(env, st.jobs, st.events, st.active[i]);
      PrefixIsFaithful(env, job, st.active[i].tokens, st.active[i].generated, Err(LoadError));
    } else {
      assert id in ParkedIds(st.resume);
      var i :| 0 <= i < |st.resume| && ParkedIds(st.resume)[i] == id;
      assert ParkedOk(env, st.jobs, st.events, st.resume[i]);
      PrefixIsFaithful(env, job, st.resume[i].tokens, st.resume[i].generated, Err(LoadError));
    }
  }

  /** With nobody waiting or running, every submitted job has been answered. */
  lemma DrainedIsAnswered(env: Env, st: State)
    requires Inv(env, st) && Outstanding(st) == 0
    ensures forall id :: 0 <= id < |st.jobs| ==> Answered(env, st.jobs, st.events, id)
    ensures multiset(st.submitted) == multiset(AnswerTickets(st.answers)) + multiset(JobTickets(st.jobs))
  {
    hide Answered, Housed, AllOk;
    assert Ids(st.active) == [] && ParkedIds(st.resume) == [] && QueueTickets(st.queue) == [];
    forall id: nat | id < |st.jobs|
      ensures Answered(env, st.jobs, st.events, id)
    {
      assert Flights(st, id) == 0;
    }
  }

  // ---- Commands ----

  datatype Command = Submit(job: QueuedJob) | Unload | ClearState | Query | Quit

  /** What one command does to the worker. Unloading or clearing changes no lane: it is refused while
      anything is active, and without active sequences every lane is already empty. */
  function Commanded(st: State, command: Command): State {
    match command
    case Submit(job) => st.(queue := st.queue + [job], submitted := st.submitted + [job.ticket])
    case _ => st
  }

  function Intake(st: State, commands: seq<Command>): State {
    if commands == [] then st
    else Commanded(Intake(st, commands[..|commands| - 1]), commands[|commands| - 1])
  }

  /** The jobs these commands submit, in the order they came. */
  function Arrivals(commands: seq<Command>): (jobs: seq<QueuedJob>)
    ensures |jobs| <= |commands|
  {
    if commands == [] then []
    else Arrival(commands[0]) + Arrivals(commands[1..])
  }

  function Arrival(command: Command): (jobs: seq<QueuedJob>)
    ensures jobs == if command.Submit? then [command.job] else []
  {
    if command.Submit? then [command.job] else []
  }

  lemma {:induction false} ArrivalsAppend(commands: seq<Command>, last: Command)
    ensures Arrivals(commands + [last]) == Arrivals(commands) + Arrival(last)
  {
    hide Arrival;
    if commands == [] {
      assert [last][1..] == [] && commands + [last] == [last];
      assert Arrival(last) + [] == Arrival(last) && [] + Arrival(last) == Arrival(last);
    } else {
      assert (commands + [last])[1..] == commands[1..] + [last] && (commands + [last])[0] == commands[0];
      ArrivalsAppend(commands[1..], last);
      Regrouped(Arrival(commands[0]), Arrivals(commands[1..]), Arrival(last));
    }
  }

  lemma Regrouped<T>(a: seq<T>, b: seq<T>, c: seq<T>)
    ensures a + (b + c) == (a + b) + c
  {
  }

  /** Submissions join the back of the queue in the order they came, and nothing else moves. */
  lemma {:induction false} IntakeQueues(st: State, commands: seq<Command>)
    ensures var after := Intake(st, commands);
      && after.queue == st.queue + Arrivals(commands)
      && after.submitted == st.submitted + QueueTickets(Arrivals(commands))
      && after == st.(queue := after.queue, submitted := after.submitted)
  {
    if commands == [] {
      assert st.queue + [] == st.queue && st.submitted + QueueTickets([]) == st.submitted;
    } else {
      var front, last := commands[..|commands| - 1], commands[|commands| - 1];
      IntakeQueues(st, front);
      assert commands == front + [last];
      ArrivalsAppend(front, last);
      hide Arrivals;
      if last.Submit? {
        assert QueueTickets(Arrivals(front) + [last.job]) == QueueTickets(Arrivals(front)) + [last.job.ticket];
      } else {
        assert Arrivals(front) + [] == Arrivals(front);
      }
    }
  }

  /** Commands that bring no job and end nothing. */
  predicate Housekeeping(commands: seq<Command>) {
    forall i :: 0 <= i < |commands| ==> !commands[i].Submit? && commands[i] != Quit
  }

  /** Loading, unloading, clearing and queries move no job. */
  lemma {:induction false} HousekeepingChangesNothing(st: State, commands: seq<Command>)
    requires Housekeeping(commands)
    ensures Intake(st, commands) == st && Quit !in commands
  {
    if commands != [] {
      HousekeepingChangesNothing(st, commands[..|commands| - 1]);
    }
  }

  /** The commands a turn gets to see: everything before a shutdown. */
  function BeforeQuit(commands: seq<Command>): (seen: seq<Command>)
    ensures seen <= commands && Quit !in seen && (Quit !in commands ==> seen == commands)
    ensures |seen| < |commands| ==> commands[|seen|] == Quit
  {
    if commands == [] || commands[0] == Quit then [] else [commands[0]] + BeforeQuit(commands[1..])
  }

  lemma IdleLanesAreEmpty(env: Env, st: State)
    requires Inv(env, st) && st.active == []
    ensures st.lanes == seq(|st.lanes|, i => [])
  {
    assert Slots<JobMeta>([]) == [];
    assert forall l :: 0 <= l < |st.lanes| ==> l !in Slots(st.active) && st.lanes[l] == [];
  }
}
