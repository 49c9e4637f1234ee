/** Admission on values: why taking a job off the queue, resuming an evicted one, or answering one
    from the queue keeps the invariant, and why a free slot is always found. */
module Admission {
  import opened Arithmetic
  import opened Wrappers
  import opened Pools
  import opened Decoders
  import opened Batching
  import opened Errors
  import opened Events
  import opened Serving
  import opened Growth
  import opened Turns

  /** The cap a job runs under: the tighter of what it asked for, if it asked, and the server's own. */
  function GenerationCap(server: Server, job: QueuedJob): (cap: nat)
    ensures cap <= server.maxGenTokens && (job.maxTokens.Some? ==> cap <= job.maxTokens.value)
    ensures cap == server.maxGenTokens || job.maxTokens == Some(cap)
  {
    match job.maxTokens
    case Some(requested) => Min(requested, server.maxGenTokens)
    case None => server.maxGenTokens
  }

  /** Blocks a newcomer is guaranteed: its worst case when it is alone or under `Reserve`, otherwise
      its present tokens and room to start decoding. */
  function Guaranteed(env: Env, alone: bool, tokens: nat, remaining: nat): nat
    requires env.blockSize >= 1
  {
    if alone || env.server.admission == Reserve then CeilDiv(Min(tokens + remaining, env.ctx), env.blockSize)
    else CeilDiv(Min(tokens + 1, env.ctx), env.blockSize)
  }

  /** What the guarantee is worth: the next forward is covered, and so is the first token generated; alone
      or under `Reserve` every length the sequence can ever reach is. */
  lemma GuaranteeCovers(env: Env, alone: bool, tokens: nat, remaining: nat, len: nat)
    requires env.blockSize >= 1
    requires len <= tokens + (if alone || env.server.admission == Reserve then remaining else 1)
    ensures CeilDiv(Min(len, env.ctx), env.blockSize) <= Guaranteed(env, alone, tokens, remaining)
  {
    CeilDivMonotone(Min(len, env.ctx), Min(tokens + (if alone || env.server.admission == Reserve then remaining else 1), env.ctx), env.blockSize);
  }

  function Entered(slot: nat, tokens: seq<Token>, generated: nat, maxGen: nat, reservation: nat, extra: JobMeta): JobSeq {
    ActiveSeq(slot, tokens, 0, generated, maxGen, false, reservation, false, extra)
  }

  // ---- A free slot ----

  /** Fewer sequences than slots leave a slot free. */
  lemma {:induction false} Pigeonhole(slots: seq<nat>, maxSlots: nat)
    requires forall slot: nat :: slot < maxSlots ==> slot in slots
    ensures maxSlots <= |slots|
  {
    if maxSlots > 0 {
      var top: nat := maxSlots - 1;
      assert top in slots;
      var k :| 0 <= k < |slots| && slots[k] == top;
      forall slot: nat | slot < top
        ensures slot in Without(slots, k)
      {
        assert slot in slots;
        var i :| 0 <= i < |slots| && slots[i] == slot;
        assert Without(slots, k)[if i < k then i else i - 1] == slot;
      }
      Pigeonhole(Without(slots, k), top);
    }
  }

  // ---- One more sequence in a lane ----

  lemma HousedAppend(env: Env, active: seq<JobSeq>, lanes: seq<seq<Token>>, s: JobSeq)
    requires Housed(env, active, lanes) && s.processed == 0 && s.slot < env.server.maxSlots && s.slot !in Slots(active)
    requires s.kvReservation <= env.totalBlocks - Reservations(active)
    ensures Housed(env, active + [s], lanes) && lanes[s.slot] == []
  {
    var joined := active + [s];
    assert Slots(joined) == Slots(active) + [s.slot];
    assert joined[..|active|] == active;
    SlotJoins(Slots(active), lanes, s.slot);
    forall i | 0 <= i < |joined|
      ensures SurvivorHoused(env, joined, lanes, i)
    {
      if i < |active| {
        assert lanes[Slots(active)[i]] == active[i].tokens[..active[i].processed];
      }
    }
    hide Reservations, Slots, Housed, SurvivorHoused, Distinct;
    HousedOneByOne(env, joined, lanes);
  }

  lemma SlotJoins(slots: seq<nat>, lanes: seq<seq<Token>>, slot: nat)
    requires Distinct(slots) && slot !in slots && forall l :: 0 <= l < |lanes| && l !in slots ==> lanes[l] == []
    ensures Distinct(slots + [slot])
    ensures forall l :: 0 <= l < |lanes| && l !in slots + [slot] ==> lanes[l] == []
  {
  }

  lemma FlightsBelow(env: Env, st: State, id: nat)
    requires env.blockSize >= 1 && AllOk(env, st.jobs, st.events, st.active, st.resume)
    requires Flights(st, id) > 0
    ensures id < |st.jobs|
  {
    hide OnCourse, Track, WorstBlocks;
    if id in Ids(st.active) {
      var i :| 0 <= i < |st.active| && Ids(st.active)[i] == id;
      assert SeqOk(env, st.jobs, st.events, st.active[i]);
    } else {
      assert id in ParkedIds(st.resume);
      var i :| 0 <= i < |st.resume| && ParkedIds(st.resume)[i] == id;
      assert ParkedOk(env, st.jobs, st.events, st.resume[i]);
    }
  }

  // ---- From the queue ----

  /** The state after the front job is admitted. */
  function AdmitFront(st: State, job: Job, s: JobSeq): State
    requires st.queue != []
  {
    st.(active := st.active + [s], queue := st.queue[1..], events := st.events + [Admitted(|st.jobs|, job.ticket)], jobs := st.jobs + [job])
  }

  lemma NewcomerOk(env: Env, st: State, job: Job, s: JobSeq)
    requires env.blockSize >= 1 && WorstBlocks(env, job) <= env.totalBlocks
    requires s == Entered(s.slot, job.prompt, 0, job.maxGen, s.kvReservation, JobMeta(|st.jobs|, job.ticket, false, false))
    requires s.slot < env.server.maxSlots && (env.server.admission == Reserve ==> WorstBlocks(env, job) <= s.kvReservation)
    ensures SeqOk(env, st.jobs + [job], st.events + [Admitted(|st.jobs|, job.ticket)], s)
  {
    TrackAppend(st.events, Admitted(|st.jobs|, job.ticket), |st.jobs|);
    JobStarts(env, job);
  }

  lemma OthersOk(env: Env, st: State, job: Job)
    requires env.blockSize >= 1 && AllOk(env, st.jobs, st.events, st.active, st.resume)
    ensures AllOk(env, st.jobs + [job], st.events + [Admitted(|st.jobs|, job.ticket)], st.active, st.resume)
  {
    var jobs', events' := st.jobs + [job], st.events + [Admitted(|st.jobs|, job.ticket)];
    assert forall i :: 0 <= i < |st.active| ==> st.active[i].extra.id < |st.jobs|;
    assert forall i :: 0 <= i < |st.resume| ==> st.resume[i].extra.id < |st.jobs|;
    hide SeqOk, ParkedOk, Track;
    forall i | 0 <= i < |st.active|
      ensures SeqOk(env, jobs', events', st.active[i])
    {
      TrackAppend(st.events, Admitted(|st.jobs|, job.ticket), st.active[i].extra.id);
      SeqFrame(env, st.jobs, st.events, jobs', events', st.active[i]);
    }
    forall i | 0 <= i < |st.resume|
      ensures ParkedOk(env, jobs', events', st.resume[i])
    {
      TrackAppend(st.events, Admitted(|st.jobs|, job.ticket), st.resume[i].extra.id);
      ParkedFrame(env, st.jobs, st.events, jobs', events', st.resume[i]);
    }
  }

  lemma AdmitResolved(env: Env, st: State, job: Job, s: JobSeq)
    requires env.blockSize >= 1 && AllOk(env, st.jobs, st.events, st.active, st.resume) && Resolved(env, st)
    requires st.queue != [] && s.extra.id == |st.jobs|
    ensures Resolved(env, AdmitFront(st, job, s))
  {
    var st' := AdmitFront(st, job, s);
    hide AllOk, Answered, Track;
    AdmittedFlights(env, st, job, s);
    hide Flights;
    forall id: nat | id < |st'.jobs| && Flights(st', id) == 0
      ensures Answered(env, st'.jobs, st'.events, id)
    {
      TrackAppend(st.events, Admitted(|st.jobs|, job.ticket), id);
      AnsweredFrame(env, st.jobs, st.events, st'.jobs, st'.events, id);
    }
    forall id: nat | id >= |st'.jobs|
      ensures Track(st'.events, id) == Unknown
    {
      TrackAppend(st.events, Admitted(|st.jobs|, job.ticket), id);
    }
  }

  lemma AdmittedFlights(env: Env, st: State, job: Job, s: JobSeq)
    requires env.blockSize >= 1 && AllOk(env, st.jobs, st.events, st.active, st.resume) && Resolved(env, st)
    requires st.queue != [] && s.extra.id == |st.jobs|
    ensures forall id: nat :: Flights(AdmitFront(st, job, s), id) == Flights(st, id) + (if id == |st.jobs| then 1 else 0)
    ensures forall id: nat :: Flights(AdmitFront(st, job, s), id) <= 1
  {
    hide AllOk, Answered, Track;
    var st' := AdmitFront(st, job, s);
    assert Ids(st'.active) == Ids(st.active) + [s.extra.id];
    if Flights(st, |st.jobs|) > 0 {
      FlightsBelow(env, st, |st.jobs|);
    }
  }

  lemma AnsweredFrame(env: Env, jobs: seq<Job>, events: seq<EmissionEvent>, jobs': seq<Job>, events': seq<EmissionEvent>, id: nat)
    requires id < |jobs| && Answered(env, jobs, events, id) && jobs <= jobs' && Track(events', id) == Track(events, id)
    ensures Answered(env, jobs', events', id)
  {
    hide Faithful;
  }

  /** The front job's ticket moves from the queue to the admitted jobs or to the answers. */
  lemma FrontAccounted(st: State, job: Job)
    requires Accounted(st) && st.queue != [] && job.ticket == st.queue[0].ticket
    ensures multiset(st.submitted) == multiset(QueueTickets(st.queue[1..])) + multiset(AnswerTickets(st.answers)) + multiset(JobTickets(st.jobs + [job]))
  {
    assert QueueTickets(st.queue) == [job.ticket] + QueueTickets(st.queue[1..]);
    assert JobTickets(st.jobs + [job]) == JobTickets(st.jobs) + [job.ticket];
  }

  /** Admitting the front job keeps the invariant; the lane it takes was already empty, so releasing
      it first changes nothing. */
  lemma AdmitKeepsInv(env: Env, st: State, job: Job, s: JobSeq)
    requires Inv(env, st) && st.queue != [] && job.ticket == st.queue[0].ticket
    requires s == Entered(s.slot, job.prompt, 0, job.maxGen, s.kvReservation, JobMeta(|st.jobs|, job.ticket, false, false))
    requires WorstBlocks(env, job) <= env.totalBlocks
    requires s.kvReservation == Guaranteed(env, st.active == [], |job.prompt|, job.maxGen) <= env.totalBlocks - Reservations(st.active)
    requires s.slot < env.server.maxSlots && s.slot !in Slots(st.active)
    ensures Inv(env, AdmitFront(st, job, s)) && st.lanes[s.slot := []] == st.lanes
  {
    hide Running, WorstBlocks;
    RunningFacts(env, st);
    GuaranteeCoversWorst(env, st.active == [], job);
    AdmitKeepsRunning(env, st, job, s);
  }

  lemma RunningFacts(env: Env, st: State)
    requires Running(env, st)
    ensures env.blockSize >= 1 && env.server.maxSlots <= |st.lanes| && Reservations(st.active) <= env.totalBlocks
  {
  }

  /** Under `Reserve` the guarantee is the worst case. */
  lemma GuaranteeCoversWorst(env: Env, alone: bool, job: Job)
    requires env.blockSize >= 1
    ensures env.server.admission == Reserve ==> Guaranteed(env, alone, |job.prompt|, job.maxGen) == WorstBlocks(env, job)
  {
  }

  lemma AdmitKeepsRunning(env: Env, st: State, job: Job, s: JobSeq)
    requires Running(env, st) && st.queue != [] && job.ticket == st.queue[0].ticket
    requires s == Entered(s.slot, job.prompt, 0, job.maxGen, s.kvReservation, JobMeta(|st.jobs|, job.ticket, false, false))
    requires env.blockSize >= 1 && WorstBlocks(env, job) <= env.totalBlocks
    requires env.server.admission == Reserve ==> WorstBlocks(env, job) <= s.kvReservation
    requires s.kvReservation <= env.totalBlocks - Reservations(st.active)
    requires s.slot < env.server.maxSlots && s.slot !in Slots(st.active)
    ensures Running(env, AdmitFront(st, job, s)) && st.lanes[s.slot := []] == st.lanes
  {
    var st' := AdmitFront(st, job, s);
    LanesSized(env, st);
    HousedAppend(env, st.active, st.lanes, s);
    hide Housed, AllOk, Resolved, SeqOk, ParkedOk, Accounted, WorstBlocks, Slots, Reservations;
    NewcomerOk(env, st, job, s);
    OthersOk(env, st, job);
    AdmitResolved(env, st, job, s);
    FrontAccounted(st, job);
    AllOkAppend(env, st'.jobs, st'.events, st.active, st.resume, s);
    AccountedMeans(st');
  }

  lemma LanesSized(env: Env, st: State)
    requires Housed(env, st.active, st.lanes)
    ensures env.server.maxSlots <= |st.lanes|
  {
  }

  lemma AccountedMeans(st: State)
    requires multiset(st.submitted) == multiset(QueueTickets(st.queue)) + multiset(AnswerTickets(st.answers)) + multiset(JobTickets(st.jobs))
    ensures Accounted(st)
  {
  }

  lemma AllOkAppend(env: Env, jobs: seq<Job>, events: seq<EmissionEvent>, active: seq<JobSeq>, resume: seq<ResumedJob>, s: JobSeq)
    requires env.blockSize >= 1 && AllOk(env, jobs, events, active, resume) && SeqOk(env, jobs, events, s)
    ensures AllOk(env, jobs, events, active + [s], resume)
  {
    hide SeqOk, ParkedOk;
  }

  // ---- Answered from the queue ----

  /** What happens to the queue alone concerns nobody in flight. */
  lemma QueueOnly(env: Env, st: State, st': State)
    requires Inv(env, st) && st' == st.(queue := st'.queue, answers := st'.answers, submitted := st'.submitted)
    requires Accounted(st')
    ensures Inv(env, st')
  {
    hide Accounted, Housed, AllOk, Answered;
    assert forall id: nat :: Flights(st', id) == Flights(st, id);
    hide Flights;
  }

  /** The state after the front job is answered with an error instead of being admitted. */
  function AnswerFront(st: State, error: InferenceError): State
    requires st.queue != []
  {
    st.(queue := st.queue[1..], answers := st.answers + [(st.queue[0].ticket, error)])
  }

  lemma AnswerKeepsInv(env: Env, st: State, error: InferenceError)
    requires Inv(env, st) && st.queue != []
    ensures Inv(env, AnswerFront(st, error))
  {
    hide Inv, QueueTickets, AnswerTickets;
    InvAccounted(env, st);
    AnswerAccounted(st, error);
    QueueOnly(env, st, AnswerFront(st, error));
  }

  lemma InvAccounted(env: Env, st: State)
    requires Inv(env, st)
    ensures Accounted(st)
  {
    hide Housed, AllOk, Resolved;
  }

  lemma AnswerAccounted(st: State, error: InferenceError)
    requires Accounted(st) && st.queue != []
    ensures Accounted(AnswerFront(st, error))
  {
    var st' := AnswerFront(st, error);
    assert QueueTickets(st.queue) == [st.queue[0].ticket] + QueueTickets(st'.queue);
    assert AnswerTickets(st'.answers) == AnswerTickets(st.answers) + [st.queue[0].ticket];
  }

  /** A submission joins the back of the queue. */
  lemma SubmitKeepsInv(env: Env, st: State, job: QueuedJob)
    requires Inv(env, st)
    ensures Inv(env, st.(queue := st.queue + [job], submitted := st.submitted + [job.ticket]))
  {
    hide Inv, QueueTickets;
    InvAccounted(env, st);
    SubmitAccounted(st, job);
    QueueOnly(env, st, st.(queue := st.queue + [job], submitted := st.submitted + [job.ticket]));
  }

  lemma SubmitAccounted(st: State, job: QueuedJob)
    requires Accounted(st)
    ensures Accounted(st.(queue := st.queue + [job], submitted := st.submitted + [job.ticket]))
  {
    assert QueueTickets(st.queue + [job]) == QueueTickets(st.queue) + [job.ticket];
  }

  // ---- From the resume stack ----

  /** The state after the most recently evicted job re-enters, to prefill everything it had. */
  function ResumeTop(st: State, s: JobSeq): State
    requires st.resume != []
  {
    st.(active := st.active + [s], resume := st.resume[..|st.resume| - 1])
  }

  lemma ResumedSeqOk(env: Env, st: State, s: JobSeq)
    requires env.blockSize >= 1 && st.resume != [] && AllOk(env, st.jobs, st.events, st.active, st.resume)
    requires var top := st.resume[|st.resume| - 1];
      s == Entered(s.slot, top.tokens, top.generated, top.maxGen, s.kvReservation, top.extra)
      && (env.server.admission == Reserve ==> s.kvReservation == Guaranteed(env, st.active == [], |top.tokens|, top.maxGen - top.generated))
    requires s.slot < env.server.maxSlots
    ensures SeqOk(env, st.jobs, st.events, s)
  {
    hide Solo, Track, Detok;
    assert ParkedOk(env, st.jobs, st.events, st.resume[|st.resume| - 1]);
  }

  /** What a parked job still needs at most: never more than the whole pool. */
  lemma ParkedFitsAlone(env: Env, jobs: seq<Job>, events: seq<EmissionEvent>, j: ResumedJob)
    requires env.blockSize >= 1 && ParkedOk(env, jobs, events, j)
    ensures j.generated <= j.maxGen && CeilDiv(Min(|j.tokens| + (j.maxGen - j.generated), env.ctx), env.blockSize) <= env.totalBlocks
  {
    hide Solo, Track, Detok, CeilDiv;
  }

  lemma ResumeResolved(env: Env, st: State, s: JobSeq)
    requires Resolved(env, st) && st.resume != [] && s.extra == st.resume[|st.resume| - 1].extra
    ensures Resolved(env, ResumeTop(st, s))
  {
    var st' := ResumeTop(st, s);
    var top := |st.resume| - 1;
    assert Ids(st'.active) == Ids(st.active) + [s.extra.id];
    assert ParkedIds(st.resume) == ParkedIds(st'.resume) + [s.extra.id];
    assert forall id: nat :: Flights(st', id) == Flights(st, id);
    hide Flights, Answered;
  }

  lemma ResumeKeepsInv(env: Env, st: State, s: JobSeq)
    requires Inv(env, st) && st.resume != []
    requires var top := st.resume[|st.resume| - 1];
      && top.generated <= top.maxGen
      && s == Entered(s.slot, top.tokens, top.generated, top.maxGen, s.kvReservation, top.extra)
      && s.kvReservation == Guaranteed(env, st.active == [], |top.tokens|, top.maxGen - top.generated) <= env.totalBlocks - Reservations(st.active)
    requires s.slot < env.server.maxSlots && s.slot !in Slots(st.active)
    ensures Inv(env, ResumeTop(st, s)) && st.lanes[s.slot := []] == st.lanes
  {
    hide Running, Housed, AllOk, Resolved, SeqOk, ParkedOk, Accounted, Guaranteed, Reservations, Slots;
    RunningParts(env, st);
    LanesSized(env, st);
    HousedAppend(env, st.active, st.lanes, s);
    ResumedSeqOk(env, st, s);
    ResumeResolved(env, st, s);
    AllOkPop(env, st);
    AllOkAppend(env, st.jobs, st.events, st.active, st.resume[..|st.resume| - 1], s);
    SameAccounts(st, ResumeTop(st, s));
    RunningFrom(env, ResumeTop(st, s));
  }

  lemma RunningFrom(env: Env, st: State)
    requires Housed(env, st.active, st.lanes) && Resolved(env, st) && Accounted(st)
    requires AllOk(env, st.jobs, st.events, st.active, st.resume)
    ensures Running(env, st)
  {
  }

  lemma AllOkPop(env: Env, st: State)
    requires env.blockSize >= 1 && st.resume != [] && AllOk(env, st.jobs, st.events, st.active, st.resume)
    ensures AllOk(env, st.jobs, st.events, st.active, st.resume[..|st.resume| - 1])
  {
    hide SeqOk, ParkedOk;
  }

  // ---- The whole admission sweep ----

  /** The lowest slot not in use, from `candidate` on. */
  function FreeSlot(slots: seq<nat>, candidate: nat, maxSlots: nat): (slot: nat)
    requires candidate <= maxSlots
    ensures candidate <= slot <= maxSlots && (slot < maxSlots ==> slot !in slots)
    ensures forall taken: nat :: candidate <= taken < slot ==> taken in slots
    decreases maxSlots - candidate
  {
    if candidate == maxSlots || candidate !in slots then candidate else FreeSlot(slots, candidate + 1, maxSlots)
  }

  /** The lowest-free-slot search succeeds whenever the set is not full. */
  lemma SlotIsFound(slots: seq<nat>, maxSlots: nat)
    requires |slots| < maxSlots
    ensures FreeSlot(slots, 0, maxSlots) < maxSlots && FreeSlot(slots, 0, maxSlots) !in slots
  {
    if FreeSlot(slots, 0, maxSlots) == maxSlots {
      Pigeonhole(slots, maxSlots);
    }
  }

  /** Blocks not promised to anybody. */
  function Slack(env: Env, active: seq<JobSeq>): nat {
    if Reservations(active) <= env.totalBlocks then env.totalBlocks - Reservations(active) else 0
  }

  datatype Verdict = Wait | Answer(error: InferenceError) | Enter(job: Job, reservation: nat)

  /** What becomes of the job at the front of the queue; `refused` are the jobs for which the model could
      not be borrowed when their turn came. */
  function Judge(env: Env, active: seq<JobSeq>, front: QueuedJob, refused: set<Ticket>, cancelled: set<Ticket>): Verdict
    requires env.blockSize >= 1
  {
    if front.ticket in cancelled then Answer(Cancelled)
    else if front.ticket in refused then Answer(LoadError)
    else
      match env.server.tokenize(front.task)
      case None => Answer(TokenizeError)
      case Some(tokens) =>
        var job := Job(front.ticket, tokens, GenerationCap(env.server, front));
        var guaranteed := Guaranteed(env, active == [], |tokens|, job.maxGen);
        if WorstBlocks(env, job) > env.totalBlocks then Answer(KvPoolExhausted(WorstBlocks(env, job) - env.totalBlocks))
        else if guaranteed > Slack(env, active) then Wait
        else Enter(job, guaranteed)
  }

  function Newcomer(env: Env, st: State, job: Job, reservation: nat): JobSeq {
    Entered(FreeSlot(Slots(st.active), 0, env.server.maxSlots), job.prompt, 0, job.maxGen, reservation, JobMeta(|st.jobs|, job.ticket, false, false))
  }

  /** The queue, drained first come, first served, until the set is full or the front must wait. */
  function AdmitQueue(env: Env, st: State, refused: set<Ticket>, cancelled: set<Ticket>): State
    requires env.blockSize >= 1
    decreases |st.queue|
  {
    if |st.active| >= env.server.maxSlots || st.queue == [] then st
    else
      match Judge(env, st.active, st.queue[0], refused, cancelled)
      case Wait => st
      case Answer(error) => AdmitQueue(env, AnswerFront(st, error), refused, cancelled)
      case Enter(job, reservation) => AdmitQueue(env, AdmitFront(st, job, Newcomer(env, st, job, reservation)), refused, cancelled)
  }

  function Left(j: ResumedJob): nat {
    if j.generated <= j.maxGen then j.maxGen - j.generated else 0
  }

  function Returner(env: Env, st: State): JobSeq
    requires env.blockSize >= 1 && st.resume != []
  {
    var top := st.resume[|st.resume| - 1];
    Entered(FreeSlot(Slots(st.active), 0, env.server.maxSlots), top.tokens, top.generated, top.maxGen,
      Guaranteed(env, st.active == [], |top.tokens|, Left(top)), top.extra)
  }

  /** Whether the most recently evicted job re-enters now. */
  predicate Resumes(env: Env, st: State, loads: bool)
    requires env.blockSize >= 1
  {
    && st.resume != [] && |st.active| < env.server.maxSlots && loads
    && Returner(env, st).kvReservation <= Slack(env, st.active)
  }

  /** Evicted jobs re-enter, the latest first, until one does not fit. */
  function ResumeAll(env: Env, st: State, loads: bool): State
    requires env.blockSize >= 1
    decreases |st.resume|
  {
    if Resumes(env, st, loads) then ResumeAll(env, ResumeTop(st, Returner(env, st)), loads) else st
  }

  function Admit(env: Env, st: State, loads: bool, refused: set<Ticket>, cancelled: set<Ticket>): State
    requires env.blockSize >= 1
  {
    AdmitQueue(env, ResumeAll(env, st, loads), refused, cancelled)
  }

  /** What admission leaves as it was: the lanes, the sequences already running and their order. */
  ghost predicate OnlyAdmits(before: State, after: State) {
    && after.lanes == before.lanes && after.submitted == before.submitted && after.fired == before.fired
    && before.active <= after.active && before.jobs <= after.jobs
    && before.events <= after.events && before.answers <= after.answers
    && (forall i :: |before.active| <= i < |after.active| ==> !after.active[i].paused)
    && (forall i :: |before.events| <= i < |after.events| ==> after.events[i].Admitted?)
  }

  lemma AdmitsTransitively(a: State, b: State, c: State)
    requires OnlyAdmits(a, b) && OnlyAdmits(b, c)
    ensures OnlyAdmits(a, c)
  {
    forall i | |a.active| <= i < |c.active|
      ensures !c.active[i].paused
    {
      if i < |b.active| {
        assert c.active[i] == b.active[i];
      }
    }
    forall i | |a.events| <= i < |c.events|
      ensures c.events[i].Admitted?
    {
      if i < |b.events| {
        assert c.events[i] == b.events[i];
      }
    }
  }

  lemma AdmitsNothing(st: State)
    ensures OnlyAdmits(st, st)
  {
  }

  lemma AdmitsByAnswer(st: State, error: InferenceError)
    requires st.queue != []
    ensures OnlyAdmits(st, AnswerFront(st, error))
  {
  }

  lemma AdmitsByEntry(st: State, job: Job, s: JobSeq)
    requires st.queue != [] && !s.paused
    ensures OnlyAdmits(st, AdmitFront(st, job, s))
  {
  }

  lemma AdmitsByReturn(st: State, s: JobSeq)
    requires st.resume != [] && !s.paused
    ensures OnlyAdmits(st, ResumeTop(st, s))
  {
  }

  lemma EnterKeepsInv(env: Env, st: State, refused: set<Ticket>, cancelled: set<Ticket>)
    requires Inv(env, st) && |st.active| < env.server.maxSlots && st.queue != []
    requires Judge(env, st.active, st.queue[0], refused, cancelled).Enter?
    ensures var v := Judge(env, st.active, st.queue[0], refused, cancelled);
      Inv(env, AdmitFront(st, v.job, Newcomer(env, st, v.job, v.reservation)))
      && Newcomer(env, st, v.job, v.reservation).slot < env.server.maxSlots
      && st.lanes[Newcomer(env, st, v.job, v.reservation).slot := []] == st.lanes
  {
    var v := Judge(env, st.active, st.queue[0], refused, cancelled);
    hide Running, FreeSlot, Guaranteed, WorstBlocks, Reservations;
    SlotIsFound(Slots(st.active), env.server.maxSlots);
    RunningFacts(env, st);
    assert v.job.ticket == st.queue[0].ticket && WorstBlocks(env, v.job) <= env.totalBlocks;
    assert v.reservation == Guaranteed(env, st.active == [], |v.job.prompt|, v.job.maxGen) <= Slack(env, st.active);
    hide Inv, Judge;
    AdmitKeepsInv(env, st, v.job, Newcomer(env, st, v.job, v.reservation));
  }

  lemma ResumesKeepsInv(env: Env, st: State, loads: bool)
    requires Inv(env, st) && Resumes(env, st, loads)
    ensures Inv(env, ResumeTop(st, Returner(env, st)))
    ensures Returner(env, st).slot < env.server.maxSlots && st.lanes[Returner(env, st).slot := []] == st.lanes
    ensures st.resume[|st.resume| - 1].generated <= st.resume[|st.resume| - 1].maxGen
  {
    hide Running, FreeSlot, Guaranteed, Reservations, ParkedOk;
    SlotIsFound(Slots(st.active), env.server.maxSlots);
    RunningFacts(env, st);
    TopIsParked(env, st);
    ParkedFitsAlone(env, st.jobs, st.events, st.resume[|st.resume| - 1]);
    hide Inv;
    ResumeKeepsInv(env, st, Returner(env, st));
  }

  lemma TopIsParked(env: Env, st: State)
    requires Running(env, st) && st.resume != []
    ensures env.blockSize >= 1 && ParkedOk(env, st.jobs, st.events, st.resume[|st.resume| - 1])
  {
    RunningParts(env, st);
    hide ParkedOk, SeqOk, Housed, Running;
  }

  /** Alone in the set, the job on top of the resume stack always fits. */
  lemma FirstResumes(env: Env, st: State)
    requires Inv(env, st) && st.active == [] && st.resume != [] && env.server.maxSlots >= 1
    ensures Resumes(env, st, true)
  {
    ParkedFitsAlone(env, st.jobs, st.events, st.resume[|st.resume| - 1]);
    hide Inv;
  }

  lemma {:induction false} ResumeAllKeepsInv(env: Env, st: State, loads: bool)
    requires Inv(env, st)
    ensures var after := ResumeAll(env, st, loads);
      && Inv(env, after) && OnlyAdmits(st, after) && after.events == st.events && after.queue == st.queue
      && |after.active| + |after.resume| == |st.active| + |st.resume|
      && |after.resume| <= |st.resume|
    decreases |st.resume|
  {
    assert env.blockSize >= 1 && (st.resume != [] ==> !Returner(env, st).paused);
    hide Inv, Returner, OnlyAdmits;
    if Resumes(env, st, loads) {
      var s := Returner(env, st);
      ResumesKeepsInv(env, st, loads);
      ResumeAllKeepsInv(env, ResumeTop(st, s), loads);
      AdmitsByReturn(st, s);
      AdmitsTransitively(st, ResumeTop(st, s), ResumeAll(env, st, loads));
    } else {
      AdmitsNothing(st);
    }
  }

  /** What draining the queue achieves: everybody taken off it is running or answered. */
  ghost predicate Drained(env: Env, st: State, after: State) {
    && Inv(env, after) && OnlyAdmits(st, after) && after.resume == st.resume
    && |after.active| + |after.queue| + |after.answers| == |st.active| + |st.queue| + |st.answers|
  }

  lemma DrainedPastAnswer(env: Env, st: State, error: InferenceError, after: State)
    requires st.queue != [] && Drained(env, AnswerFront(st, error), after)
    ensures Drained(env, st, after)
  {
    hide Inv, OnlyAdmits;
    AdmitsByAnswer(st, error);
    AdmitsTransitively(st, AnswerFront(st, error), after);
  }

  lemma DrainedPastEntry(env: Env, st: State, job: Job, reservation: nat, after: State)
    requires st.queue != [] && Drained(env, AdmitFront(st, job, Newcomer(env, st, job, reservation)), after)
    ensures Drained(env, st, after)
  {
    var s := Newcomer(env, st, job, reservation);
    assert !s.paused;
    hide Inv, OnlyAdmits, Newcomer;
    AdmitsByEntry(st, job, s);
    AdmitsTransitively(st, AdmitFront(st, job, s), after);
  }

  lemma {:induction false} AdmitQueueKeepsInv(env: Env, st: State, refused: set<Ticket>, cancelled: set<Ticket>)
    requires Inv(env, st)
    ensures Drained(env, st, AdmitQueue(env, st, refused, cancelled))
    decreases |st.queue|
  {
    hide Inv, Judge, Newcomer, OnlyAdmits, Drained;
    InvBasics(env, st);
    var after := AdmitQueue(env, st, refused, cancelled);
    if |st.active| >= env.server.maxSlots || st.queue == [] {
      DrainedNothing(env, st);
    } else {
      match Judge(env, st.active, st.queue[0], refused, cancelled) {
        case Wait => DrainedNothing(env, st);
        case Answer(error) =>
          AnswerKeepsInv(env, st, error);
          AdmitQueueKeepsInv(env, AnswerFront(st, error), refused, cancelled);
          DrainedPastAnswer(env, st, error, after);
        case Enter(job, reservation) =>
          EnterKeepsInv(env, st, refused, cancelled);
          AdmitQueueKeepsInv(env, AdmitFront(st, job, Newcomer(env, st, job, reservation)), refused, cancelled);
          DrainedPastEntry(env, st, job, reservation, after);
      }
    }
  }

  lemma InvBasics(env: Env, st: State)
    requires Inv(env, st)
    ensures env.blockSize >= 1
  {
  }

  lemma DrainedNothing(env: Env, st: State)
    requires Inv(env, st)
    ensures Drained(env, st, st)
  {
    hide Inv;
    AdmitsNothing(st);
  }
}
