/** What admission decides, said job by job: who re-enters, who is turned away and why, who enters and on
    what, and why whoever is left must wait. Nothing here refers to how the sweep goes about it. */
module Verdicts {
  import opened Arithmetic
  import opened Wrappers
  import opened Pools
  import opened Decoders
  import opened Batching
  import opened Errors
  import opened Events
  import opened Serving
  import opened Turns
  import opened Admission

  // ---- One job ----

  /** Blocks for this many tokens, cut to the context window. */
  function BlocksFor(env: Env, tokens: nat): nat
    requires env.blockSize >= 1
  {
    CeilDiv(Min(tokens, env.ctx), env.blockSize)
  }

  /** What a sequence must find unpromised to enter: everything it can ever need when nobody runs or under
      `Reserve`, otherwise its present tokens and one more. */
  function Ask(env: Env, nobodyRuns: bool, tokens: nat, toGenerate: nat): (blocks: nat)
    requires env.blockSize >= 1
    ensures nobodyRuns || env.server.admission == Reserve ==> blocks == BlocksFor(env, tokens + toGenerate)
    ensures !nobodyRuns && env.server.admission == Elastic ==> blocks == BlocksFor(env, tokens + 1)
  {
    if nobodyRuns || env.server.admission == Reserve then BlocksFor(env, tokens + toGenerate) else BlocksFor(env, tokens + 1)
  }

  /** The token cap of a queued job. */
  function CapOf(env: Env, job: QueuedJob): (cap: nat)
    ensures job.maxTokens.Some? && job.maxTokens.value <= env.server.maxGenTokens ==> cap == job.maxTokens.value
    ensures job.maxTokens.None? || job.maxTokens.value > env.server.maxGenTokens ==> cap == env.server.maxGenTokens
  {
    if job.maxTokens.Some? && job.maxTokens.value <= env.server.maxGenTokens then job.maxTokens.value else env.server.maxGenTokens
  }

  /** Why a queued job whose turn has come is turned away, if it is. */
  function Cause(env: Env, job: QueuedJob, refused: set<Ticket>, cancelled: set<Ticket>): (cause: Option<InferenceError>)
    requires env.blockSize >= 1
    ensures cause == Some(Cancelled) <==> job.ticket in cancelled
    ensures cause == Some(LoadError) <==> job.ticket !in cancelled && job.ticket in refused
    ensures cause == Some(TokenizeError) <==>
      job.ticket !in cancelled && job.ticket !in refused && env.server.tokenize(job.task).None?
    ensures forall excess: nat :: cause == Some(KvPoolExhausted(excess)) <==>
      && job.ticket !in cancelled && job.ticket !in refused && env.server.tokenize(job.task).Some?
      && excess > 0 && BlocksFor(env, |env.server.tokenize(job.task).value| + CapOf(env, job)) == env.totalBlocks + excess
    ensures cause == None <==>
      && job.ticket !in cancelled && job.ticket !in refused && env.server.tokenize(job.task).Some?
      && BlocksFor(env, |env.server.tokenize(job.task).value| + CapOf(env, job)) <= env.totalBlocks
  {
    if job.ticket in cancelled then Some(Cancelled)
    else if job.ticket in refused then Some(LoadError)
    else
      match env.server.tokenize(job.task)
      case None => Some(TokenizeError)
      case Some(tokens) =>
        var worst := BlocksFor(env, |tokens| + CapOf(env, job));
        if worst > env.totalBlocks then Some(KvPoolExhausted(worst - env.totalBlocks)) else None
  }

  /** The answers due to the jobs turned away, in queue order. */
  function AnswersOf(env: Env, jobs: seq<QueuedJob>, refused: set<Ticket>, cancelled: set<Ticket>): seq<(Ticket, InferenceError)>
    requires env.blockSize >= 1
  {
    if jobs == [] then []
    else
      (match Cause(env, jobs[0], refused, cancelled) case Some(error) => [(jobs[0].ticket, error)] case None => [])
      + AnswersOf(env, jobs[1..], refused, cancelled)
  }

  /** The jobs not turned away, in queue order. */
  function EntrantsOf(env: Env, jobs: seq<QueuedJob>, refused: set<Ticket>, cancelled: set<Ticket>): (entrants: seq<QueuedJob>)
    requires env.blockSize >= 1
    ensures |entrants| <= |jobs|
    ensures forall k :: 0 <= k < |entrants| ==> Cause(env, entrants[k], refused, cancelled) == None
  {
    if jobs == [] then []
    else (if Cause(env, jobs[0], refused, cancelled) == None then [jobs[0]] else []) + EntrantsOf(env, jobs[1..], refused, cancelled)
  }

  // ---- A place in the set ----

  /** Position `a` sits in the lowest slot that nobody before it uses. */
  ghost predicate InLowestSlot(env: Env, active: seq<JobSeq>, a: nat)
    requires a < |active|
  {
    && active[a].slot < env.server.maxSlots && active[a].slot !in Slots(active[..a])
    && forall slot: nat :: slot < active[a].slot ==> slot in Slots(active[..a])
  }

  /** Position `a` is the next entrant in order, under the next id, with everything still to read. */
  ghost predicate Seated(env: Env, before: State, after: State, a: nat, entrants: seq<QueuedJob>)
    requires env.blockSize >= 1 && |before.active| <= a < |after.active| == |before.active| + |entrants|
  {
    var k := a - |before.active|;
    var s, job, id := after.active[a], entrants[k], |before.jobs| + k;
    && InLowestSlot(env, after.active, a)
    && env.server.tokenize(job.task) == Some(s.tokens) && s.processed == 0
    && s.generated == 0 && s.maxGen == CapOf(env, job) && !s.finished && !s.paused
    && s.kvReservation == Ask(env, a == 0, |s.tokens|, s.maxGen)
    && s.extra == JobMeta(id, job.ticket, false, false)
    && id < |after.jobs| && after.jobs[id] == Job(job.ticket, s.tokens, s.maxGen)
  }

  /** What the emission thread is told about the next entrant in order. */
  function Announced(before: State, entrants: seq<QueuedJob>, e: nat): EmissionEvent
    requires |before.events| <= e < |before.events| + |entrants|
  {
    var k := e - |before.events|;
    Admitted(|before.jobs| + k, entrants[k].ticket)
  }

  /** Position `a` is the next evicted job from the top, with everything it had to read again. */
  ghost predicate Reseated(env: Env, before: State, after: State, a: nat)
    requires env.blockSize >= 1 && |before.active| <= a < |after.active| && a - |before.active| < |before.resume|
  {
    var s, j := after.active[a], before.resume[|before.resume| - 1 - (a - |before.active|)];
    && InLowestSlot(env, after.active, a)
    && s.tokens == j.tokens && s.processed == 0
    && s.generated == j.generated <= s.maxGen == j.maxGen && !s.finished && !s.paused
    && s.kvReservation == Ask(env, a == 0, |s.tokens|, s.maxGen - s.generated)
    && s.extra == j.extra
  }

  // ---- The whole sweep ----

  /** The last `n` evicted jobs re-entered, latest first, behind those running; and whoever is left waits
      for a slot, for the model, or for blocks. */
  ghost predicate Returned(env: Env, before: State, loads: bool, after: State, n: nat)
    requires env.blockSize >= 1
  {
    && n <= |before.resume| && after.resume == before.resume[..|before.resume| - n] && (!loads ==> n == 0)
    && before.active <= after.active && |after.active| == |before.active| + n
    && (forall a :: |before.active| <= a < |after.active| ==> Reseated(env, before, after, a))
    && after == before.(active := after.active, resume := after.resume)
    && (|| after.resume == [] || |after.active| >= env.server.maxSlots || !loads
        || LacksBlocks(env, after.active, |after.resume[|after.resume| - 1].tokens|, Left(after.resume[|after.resume| - 1])))
  }

  /** What the sequence asks for does not fit beside what is promised. */
  ghost predicate LacksBlocks(env: Env, active: seq<JobSeq>, tokens: nat, toGenerate: nat)
    requires env.blockSize >= 1
  {
    Reservations(active) + Ask(env, active == [], tokens, toGenerate) > env.totalBlocks
  }

  /** The first `taken` jobs left the queue: those with a cause answered with it, the others seated behind
      those running, both in queue order; and whoever is left waits for a slot or for blocks. */
  ghost predicate Served(env: Env, before: State, refused: set<Ticket>, cancelled: set<Ticket>, after: State, taken: nat)
    requires env.blockSize >= 1
  {
    && taken <= |before.queue| && after.queue == before.queue[taken..]
    && after.answers == before.answers + AnswersOf(env, before.queue[..taken], refused, cancelled)
    && var entrants := EntrantsOf(env, before.queue[..taken], refused, cancelled);
    && before.active <= after.active && |after.active| == |before.active| + |entrants|
    && before.jobs <= after.jobs && |after.jobs| == |before.jobs| + |entrants|
    && before.events <= after.events && |after.events| == |before.events| + |entrants|
    && (forall a :: |before.active| <= a < |after.active| ==> Seated(env, before, after, a, entrants))
    && (forall e :: |before.events| <= e < |after.events| ==> after.events[e] == Announced(before, entrants, e))
    && after == before.(active := after.active, queue := after.queue, answers := after.answers, jobs := after.jobs, events := after.events)
    && (|| after.queue == [] || |after.active| >= env.server.maxSlots
        || MustWait(env, after.active, after.queue[0], refused, cancelled))
  }

  /** The job has no cause to be turned away, but what it asks for does not fit. */
  ghost predicate MustWait(env: Env, active: seq<JobSeq>, job: QueuedJob, refused: set<Ticket>, cancelled: set<Ticket>)
    requires env.blockSize >= 1
  {
    && Cause(env, job, refused, cancelled) == None
    && LacksBlocks(env, active, |env.server.tokenize(job.task).value|, CapOf(env, job))
  }

  // ---- That is what the sweep does ----

  lemma ReservedFits(env: Env, st: State)
    requires Inv(env, st)
    ensures env.blockSize >= 1 && Reservations(st.active) <= env.totalBlocks
  {
  }

  /** The verdict on the front job, in terms of its cause. */
  lemma VerdictIsCause(env: Env, active: seq<JobSeq>, job: QueuedJob, refused: set<Ticket>, cancelled: set<Ticket>)
    requires env.blockSize >= 1 && Reservations(active) <= env.totalBlocks
    ensures var v := Judge(env, active, job, refused, cancelled);
      && (v.Answer? ==> Cause(env, job, refused, cancelled) == Some(v.error))
      && (v.Wait? ==> MustWait(env, active, job, refused, cancelled))
      && (v.Enter? ==>
            && Cause(env, job, refused, cancelled) == None && env.server.tokenize(job.task) == Some(v.job.prompt)
            && v.job == Job(job.ticket, v.job.prompt, CapOf(env, job))
            && v.reservation == Ask(env, active == [], |v.job.prompt|, v.job.maxGen)
            && !LacksBlocks(env, active, |v.job.prompt|, v.job.maxGen))
  {
    hide Reservations, CeilDiv;
  }

  /** A newcomer in the lowest free slot. */
  lemma NewcomerSits(env: Env, st: State, s: JobSeq)
    requires |st.active| < env.server.maxSlots && s.slot == FreeSlot(Slots(st.active), 0, env.server.maxSlots)
    ensures InLowestSlot(env, st.active + [s], |st.active|)
  {
    assert (st.active + [s])[..|st.active|] == st.active;
    SlotIsFound(Slots(st.active), env.server.maxSlots);
    hide FreeSlot;
  }

  lemma SitsAsBefore(env: Env, active: seq<JobSeq>, longer: seq<JobSeq>, a: nat)
    requires active <= longer && a < |active| && InLowestSlot(env, active, a)
    ensures InLowestSlot(env, longer, a)
  {
    assert longer[..a] == active[..a];
  }

  /** Admission from the queue, job by job. */
  lemma {:induction false} QueueServed(env: Env, st: State, refused: set<Ticket>, cancelled: set<Ticket>) returns (taken: nat)
    requires Inv(env, st)
    ensures env.blockSize >= 1 && Served(env, st, refused, cancelled, AdmitQueue(env, st, refused, cancelled), taken)
    decreases |st.queue|
  {
    hide Inv, Judge, Newcomer, Served, Cause, MustWait, Reservations;
    ReservedFits(env, st);
    taken := 0;
    var after := AdmitQueue(env, st, refused, cancelled);
    if |st.active| >= env.server.maxSlots || st.queue == [] {
      NothingServed(env, st, refused, cancelled);
    } else {
      VerdictIsCause(env, st.active, st.queue[0], refused, cancelled);
      match Judge(env, st.active, st.queue[0], refused, cancelled) {
        case Wait => NothingServed(env, st, refused, cancelled);
        case Answer(error) =>
          AnswerKeepsInv(env, st, error);
          var more := QueueServed(env, AnswerFront(st, error), refused, cancelled);
          ServedPastAnswer(env, st, refused, cancelled, error, after, more);
          taken := more + 1;
        case Enter(job, reservation) =>
          EnterKeepsInv(env, st, refused, cancelled);
          var more := QueueServed(env, AdmitFront(st, job, Newcomer(env, st, job, reservation)), refused, cancelled);
          ServedPastEntry(env, st, refused, cancelled, job, reservation, after, more);
          taken := more + 1;
      }
    }
  }

  lemma NothingServed(env: Env, st: State, refused: set<Ticket>, cancelled: set<Ticket>)
    requires env.blockSize >= 1
    requires |st.active| >= env.server.maxSlots || st.queue == [] || MustWait(env, st.active, st.queue[0], refused, cancelled)
    ensures Served(env, st, refused, cancelled, st, 0)
  {
    hide Cause, MustWait;
    assert st.queue[..0] == [] && st.queue[0..] == st.queue;
  }

  lemma ServedPastAnswer(env: Env, st: State, refused: set<Ticket>, cancelled: set<Ticket>, error: InferenceError, after: State, more: nat)
    requires env.blockSize >= 1 && st.queue != [] && Cause(env, st.queue[0], refused, cancelled) == Some(error)
    requires Served(env, AnswerFront(st, error), refused, cancelled, after, more)
    ensures Served(env, st, refused, cancelled, after, more + 1)
  {
    hide Cause, MustWait, InLowestSlot, Ask, CapOf, AnswersOf, EntrantsOf;
    TurnedPastFront(env, st.queue, refused, cancelled, error, more);
    var mid := AnswerFront(st, error);
    var rest := AnswersOf(env, st.queue[1..][..more], refused, cancelled);
    assert st.answers + [(st.queue[0].ticket, error)] + rest == st.answers + ([(st.queue[0].ticket, error)] + rest);
    var entrants := EntrantsOf(env, st.queue[1..][..more], refused, cancelled);
    forall a | |st.active| <= a < |after.active|
      ensures Seated(env, st, after, a, entrants)
    {
      assert Seated(env, mid, after, a, entrants);
    }
    forall e | |st.events| <= e < |after.events|
      ensures after.events[e] == Announced(st, entrants, e)
    {
      assert after.events[e] == Announced(mid, entrants, e);
    }
  }

  /** Turning one more job away at the front. */
  lemma TurnedPastFront(env: Env, queue: seq<QueuedJob>, refused: set<Ticket>, cancelled: set<Ticket>, error: InferenceError, more: nat)
    requires env.blockSize >= 1 && more < |queue| && Cause(env, queue[0], refused, cancelled) == Some(error)
    ensures queue[1..][more..] == queue[more + 1..]
    ensures AnswersOf(env, queue[..more + 1], refused, cancelled) == [(queue[0].ticket, error)] + AnswersOf(env, queue[1..][..more], refused, cancelled)
    ensures EntrantsOf(env, queue[..more + 1], refused, cancelled) == EntrantsOf(env, queue[1..][..more], refused, cancelled)
  {
    hide Cause;
    assert queue[..more + 1] == [queue[0]] + queue[1..][..more];
    assert [] + EntrantsOf(env, queue[1..][..more], refused, cancelled) == EntrantsOf(env, queue[1..][..more], refused, cancelled);
  }

  lemma ServedPastEntry(env: Env, st: State, refused: set<Ticket>, cancelled: set<Ticket>, job: Job, reservation: nat, after: State, more: nat)
    requires env.blockSize >= 1 && st.queue != [] && |st.active| < env.server.maxSlots
    requires Cause(env, st.queue[0], refused, cancelled) == None && env.server.tokenize(st.queue[0].task) == Some(job.prompt)
    requires job == Job(st.queue[0].ticket, job.prompt, CapOf(env, st.queue[0]))
    requires reservation == Ask(env, st.active == [], |job.prompt|, job.maxGen)
    requires Served(env, AdmitFront(st, job, Newcomer(env, st, job, reservation)), refused, cancelled, after, more)
    ensures Served(env, st, refused, cancelled, after, more + 1)
  {
    hide Cause, MustWait, Seated, Newcomer, InLowestSlot, Ask, CapOf, AnswersOf, EntrantsOf;
    TakenPastFront(env, st.queue, refused, cancelled, more);
    var mid := AdmitFront(st, job, Newcomer(env, st, job, reservation));
    var rest := EntrantsOf(env, st.queue[1..][..more], refused, cancelled);
    assert after.active[|st.active|] == mid.active[|st.active|];
    assert after.jobs[|st.jobs|] == mid.jobs[|st.jobs|];
    FrontSits(env, st, job, reservation, st.queue[0], after, rest);
    forall a | |st.active| <= a < |after.active|
      ensures Seated(env, st, after, a, [st.queue[0]] + rest)
    {
      if a > |st.active| {
        SitsInOrder(env, st, mid, st.queue[0], after, a, rest);
      }
    }
    forall e | |st.events| <= e < |after.events|
      ensures after.events[e] == Announced(st, [st.queue[0]] + rest, e)
    {
      if e == |st.events| {
        assert after.events[e] == mid.events[e];
      }
    }
  }

  /** Taking one more job off the front. */
  lemma TakenPastFront(env: Env, queue: seq<QueuedJob>, refused: set<Ticket>, cancelled: set<Ticket>, more: nat)
    requires env.blockSize >= 1 && more < |queue| && Cause(env, queue[0], refused, cancelled) == None
    ensures queue[1..][more..] == queue[more + 1..]
    ensures AnswersOf(env, queue[..more + 1], refused, cancelled) == AnswersOf(env, queue[1..][..more], refused, cancelled)
    ensures EntrantsOf(env, queue[..more + 1], refused, cancelled) == [queue[0]] + EntrantsOf(env, queue[1..][..more], refused, cancelled)
  {
    hide Cause;
    assert queue[..more + 1] == [queue[0]] + queue[1..][..more];
    assert [] + AnswersOf(env, queue[1..][..more], refused, cancelled) == AnswersOf(env, queue[1..][..more], refused, cancelled);
  }

  /** The front job, admitted, is seated. */
  lemma FrontSits(env: Env, st: State, job: Job, reservation: nat, front: QueuedJob, after: State, rest: seq<QueuedJob>)
    requires env.blockSize >= 1 && |st.active| < env.server.maxSlots && env.server.tokenize(front.task) == Some(job.prompt)
    requires job == Job(front.ticket, job.prompt, CapOf(env, front)) && reservation == Ask(env, st.active == [], |job.prompt|, job.maxGen)
    requires st.active + [Newcomer(env, st, job, reservation)] <= after.active && |after.active| == |st.active| + 1 + |rest|
    requires st.jobs + [job] <= after.jobs
    ensures Seated(env, st, after, |st.active|, [front] + rest)
  {
    var s := Newcomer(env, st, job, reservation);
    NewcomerSits(env, st, s);
    SitsAsBefore(env, st.active + [s], after.active, |st.active|);
    assert after.active[|st.active|] == (st.active + [s])[|st.active|] == s;
    assert after.jobs[|st.jobs|] == (st.jobs + [job])[|st.jobs|] == job;
  }

  /** Whoever sits behind the front job sits where the rest of the sweep put it. */
  lemma SitsInOrder(env: Env, st: State, mid: State, front: QueuedJob, after: State, a: nat, rest: seq<QueuedJob>)
    requires env.blockSize >= 1 && |mid.active| == |st.active| + 1 && |mid.jobs| == |st.jobs| + 1
    requires |mid.active| <= a < |after.active| == |mid.active| + |rest| && Seated(env, mid, after, a, rest)
    ensures Seated(env, st, after, a, [front] + rest)
  {
    hide InLowestSlot, Ask, CapOf;
  }

  /** Admission from the resume stack, job by job. */
  lemma {:induction false} StackReturned(env: Env, st: State, loads: bool) returns (n: nat)
    requires Inv(env, st)
    ensures env.blockSize >= 1 && Returned(env, st, loads, ResumeAll(env, st, loads), n)
    decreases |st.resume|
  {
    hide Inv, Returner, Returned, Reservations, LacksBlocks, Slack;
    ReservedFits(env, st);
    n := 0;
    var after := ResumeAll(env, st, loads);
    if Resumes(env, st, loads) {
      var s := Returner(env, st);
      ResumesKeepsInv(env, st, loads);
      var more := StackReturned(env, ResumeTop(st, s), loads);
      ReturnedPastOne(env, st, loads, after, more);
      n := more + 1;
    } else {
      NobodyReturned(env, st, loads);
    }
  }

  lemma NobodyReturned(env: Env, st: State, loads: bool)
    requires env.blockSize >= 1 && Reservations(st.active) <= env.totalBlocks && !Resumes(env, st, loads)
    ensures Returned(env, st, loads, st, 0)
  {
    hide Reservations, FreeSlot, CeilDiv;
    assert st.resume[..|st.resume|] == st.resume;
  }

  lemma ReturnedPastOne(env: Env, st: State, loads: bool, after: State, more: nat)
    requires env.blockSize >= 1 && Resumes(env, st, loads)
    requires st.resume[|st.resume| - 1].generated <= st.resume[|st.resume| - 1].maxGen
    requires Returned(env, ResumeTop(st, Returner(env, st)), loads, after, more)
    ensures Returned(env, st, loads, after, more + 1)
  {
    var s := Returner(env, st);
    var mid := ResumeTop(st, s);
    NewcomerSits(env, st, s);
    SitsAsBefore(env, mid.active, after.active, |st.active|);
    assert after.active[|st.active|] == mid.active[|st.active|] == s;
    assert Reseated(env, st, after, |st.active|);
    hide Returner, InLowestSlot, Ask, LacksBlocks, Resumes;
    assert mid.resume[..|mid.resume| - more] == st.resume[..|st.resume| - (more + 1)];
    forall a | |st.active| <= a < |after.active|
      ensures Reseated(env, st, after, a)
    {
      if a > |st.active| {
        assert Reseated(env, mid, after, a);
      }
    }
  }

  // ---- One decision ----

  /** The top evicted job re-enters exactly when the model can be borrowed and what it asks for fits. */
  lemma OneReturns(env: Env, st: State, loads: bool)
    requires Inv(env, st) && st.resume != [] && |st.active| < env.server.maxSlots
    ensures env.blockSize >= 1
    ensures var top := st.resume[|st.resume| - 1];
      Resumes(env, st, loads) <==> loads && !LacksBlocks(env, st.active, |top.tokens|, Left(top))
    ensures Resumes(env, st, loads) ==> Reseated(env, st, ResumeTop(st, Returner(env, st)), |st.active|)
  {
    hide Inv, Resumes, Reservations, Reseated, LacksBlocks, Returner;
    ReservedFits(env, st);
    AskIsGuaranteed(env, st, loads);
    if Resumes(env, st, loads) {
      ResumesKeepsInv(env, st, loads);
      ReturnerSits(env, st);
    }
  }

  lemma AskIsGuaranteed(env: Env, st: State, loads: bool)
    requires env.blockSize >= 1 && Reservations(st.active) <= env.totalBlocks && st.resume != [] && |st.active| < env.server.maxSlots
    ensures var top := st.resume[|st.resume| - 1];
      Resumes(env, st, loads) <==> loads && !LacksBlocks(env, st.active, |top.tokens|, Left(top))
  {
    hide Reservations, FreeSlot, CeilDiv;
  }

  lemma ReturnerSits(env: Env, st: State)
    requires env.blockSize >= 1 && st.resume != [] && |st.active| < env.server.maxSlots
    requires st.resume[|st.resume| - 1].generated <= st.resume[|st.resume| - 1].maxGen
    ensures Reseated(env, st, ResumeTop(st, Returner(env, st)), |st.active|)
  {
    NewcomerSits(env, st, Returner(env, st));
    hide InLowestSlot, FreeSlot, CeilDiv;
  }

  /** The front job is turned away for its cause, or sits down if what it asks for fits, or waits. */
  lemma OneDecided(env: Env, st: State, refused: set<Ticket>, cancelled: set<Ticket>)
    requires Inv(env, st) && st.queue != [] && |st.active| < env.server.maxSlots
    ensures env.blockSize >= 1
    ensures var front := st.queue[0]; var v := Judge(env, st.active, front, refused, cancelled); var cause := Cause(env, front, refused, cancelled);
      && (v.Answer? <==> cause.Some?) && (v.Answer? ==> cause == Some(v.error))
      && (v.Wait? <==> MustWait(env, st.active, front, refused, cancelled))
      && (v.Enter? ==> Seated(env, st, AdmitFront(st, v.job, Newcomer(env, st, v.job, v.reservation)), |st.active|, [front]))
  {
    hide Inv, Judge, Reservations, Cause, Newcomer, Seated;
    ReservedFits(env, st);
    VerdictIsCause(env, st.active, st.queue[0], refused, cancelled);
    var v := Judge(env, st.active, st.queue[0], refused, cancelled);
    if v.Enter? {
      var after := AdmitFront(st, v.job, Newcomer(env, st, v.job, v.reservation));
      FrontSits(env, st, v.job, v.reservation, st.queue[0], after, []);
      assert [st.queue[0]] + [] == [st.queue[0]];
    }
  }

  /** A whole admission: the evicted first, then the queue. */
  lemma EvictedComeFirst(env: Env, st: State, loads: bool, refused: set<Ticket>, cancelled: set<Ticket>) returns (mid: State, n: nat, taken: nat)
    requires Inv(env, st)
    ensures env.blockSize >= 1
    ensures Returned(env, st, loads, mid, n) && Served(env, mid, refused, cancelled, Admit(env, st, loads, refused, cancelled), taken)
  {
    hide Inv, Returned, Served, AdmitQueue, ResumeAll;
    n := StackReturned(env, st, loads);
    ResumeAllKeepsInv(env, st, loads);
    mid := ResumeAll(env, st, loads);
    taken := QueueServed(env, mid, refused, cancelled);
  }
}
