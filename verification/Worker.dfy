/** The continuous-batching worker: one loop turn takes commands in, admits what fits, and advances
    every running sequence by at most one token. */
module Workers {
  import opened Arithmetic
  import opened Wrappers
  import opened Pools
  import opened Decoders
  import opened Batching
  import opened Errors
  import opened Events
  import opened Serving
  import opened Growth
  import opened Turns
  import opened Admission
  import opened Verdicts
  import opened Progress

  datatype Flow = Continue | Shutdown

  class Worker {
    const server: Server
    const decoder: LlamaDecoder
    const active: ActiveSet<JobMeta>
    var resume: seq<ResumedJob>
    var queue: seq<QueuedJob>
    var nextId: nat
    /** Everything sent to the emission thread. */
    var events: seq<EmissionEvent>
    /** Jobs answered straight from the queue. */
    var answers: seq<(Ticket, InferenceError)>
    ghost var jobs: seq<Job>
    ghost var submitted: seq<Ticket>
    /** Tickets whose cancel signal a round has seen fired. */
    ghost var fired: set<Ticket>

    ghost function Repr(): set<object> {
      {this, active} + decoder.Repr()
    }

    ghost function Setting(): Env {
      Env(server, decoder.model, decoder.BlockSize(), decoder.TotalBlocks(), decoder.cache.maxSeqLen)
    }

    ghost function Now(): State
      reads this, active, decoder
    {
      State(active.seqs, resume, queue, decoder.lanes, events, answers, jobs, submitted, fired)
    }

    ghost predicate Valid()
      reads Repr()
    {
      && decoder.Valid()
      && nextId == |jobs|
      && Inv(Setting(), Now())
      && Sound(Setting(), Now())
    }

    /** A worker over an idle decoder; its slots are lanes of that decoder. */
    constructor (server: Server, decoder: LlamaDecoder)
      requires decoder.Valid() && server.maxSlots <= |decoder.lanes|
      requires forall l :: 0 <= l < |decoder.lanes| ==> decoder.lanes[l] == []
      ensures Valid() && this.server == server && this.decoder == decoder
      ensures Now() == State([], [], [], decoder.lanes, [], [], [], [], {})
      ensures fresh(Repr() - decoder.Repr())
    {
      this.server, this.decoder := server, decoder;
      active := new ActiveSet();
      resume, queue, nextId, events, answers, jobs, submitted, fired := [], [], 0, [], [], [], [], {};
      new;
      assert Slots<JobMeta>([]) == [] && decoder.BlockSize() >= 1;
      StartsInv(Setting(), decoder.lanes);
    }

    /** The KV budget admission reserves against: the pool's own numbers. */
    function Capacity(): (kv: KvBudget)
      requires decoder.Valid()
      reads decoder.Repr()
      ensures kv.blockSize == decoder.BlockSize() >= 1
      ensures kv.totalBlocks == decoder.TotalBlocks() < USIZE_MAX
    {
      decoder.cache.pool.UsableIsConstant();
      KvBudget(decoder.cache.pool.blockSize, decoder.cache.pool.UsableBlocks())
    }

    // ---- Admission ----

    /** The lowest slot no active sequence uses. */
    method FindFreeSlot() returns (slot: nat)
      requires |active.seqs| < server.maxSlots
      ensures slot == FreeSlot(Slots(active.seqs), 0, server.maxSlots) < server.maxSlots
    {
      var slots := Slots(active.seqs);
      slot := 0;
      while slot < server.maxSlots && slot in slots
        invariant slot <= server.maxSlots && FreeSlot(slots, slot, server.maxSlots) == FreeSlot(slots, 0, server.maxSlots)
      {
        slot := slot + 1;
      }
      SlotIsFound(slots, server.maxSlots);
    }

    /** Blocks to guarantee a sequence entering with `tokens` tokens and `left` more to generate, and the
        blocks nobody was promised: entering within them keeps all promises inside the pool. */
    method Guarantee(tokens: nat, left: nat) returns (guaranteed: nat, slack: nat)
      requires Valid()
      ensures Setting().blockSize >= 1
      ensures guaranteed == Guaranteed(Setting(), active.seqs == [], tokens, left) && slack == Slack(Setting(), active.seqs)
      ensures guaranteed <= slack <==> Reservations(active.seqs) + guaranteed <= decoder.TotalBlocks()
      ensures forall len: nat :: len <= tokens || (len <= tokens + left && (active.seqs == [] || server.admission == Reserve || len == tokens + 1)) ==>
        CeilDiv(Min(len, decoder.cache.maxSeqLen), decoder.BlockSize()) <= guaranteed
    {
      hide LlamaDecoder.Valid, Inv;
      var kv, ctx := Capacity(), decoder.cache.maxSeqLen;
      if |active.seqs| == 0 || server.admission == Reserve {
        guaranteed := CeilDiv(Min(tokens + left, ctx), kv.blockSize);
      } else {
        guaranteed := CeilDiv(Min(tokens + 1, ctx), kv.blockSize);
      }
      var reserved := Reservations(active.seqs);
      slack := if reserved <= kv.totalBlocks then kv.totalBlocks - reserved else 0;
      InvFacts(Setting(), Now());
      ghost var alone := active.seqs == [];
      forall len: nat | len <= tokens || (len <= tokens + left && (alone || server.admission == Reserve || len == tokens + 1))
        ensures CeilDiv(Min(len, decoder.cache.maxSeqLen), decoder.BlockSize()) <= Guaranteed(Setting(), alone, tokens, left)
      {
        GuaranteeCovers(Setting(), alone, tokens, left, len);
      }
    }

    /** Give a sequence the lowest free slot, releasing the slot first whatever it may still hold. */
    method Enter(tokens: seq<Token>, generated: nat, maxGen: nat, reservation: nat, extra: JobMeta)
      requires decoder.Valid() && |active.seqs| < server.maxSlots <= |decoder.lanes|
      modifies active, decoder.Repr()
      ensures decoder.Valid()
      ensures var slot := FreeSlot(Slots(old(active.seqs)), 0, server.maxSlots);
        && slot < |old(decoder.lanes)| && decoder.lanes == old(decoder.lanes)[slot := []]
        && active.seqs == old(active.seqs) + [Entered(slot, tokens, generated, maxGen, reservation, extra)]
    {
      hide LlamaDecoder.Valid;
      var slot := FindFreeSlot();
      decoder.Release(slot);
      active.seqs := active.seqs + [ActiveSeq(slot, tokens, 0, generated, maxGen, false, reservation, false, extra)];
    }

    /** Let the most recently evicted job back in, if its blocks fit. */
    method ResumeNext(loads: bool) returns (more: bool)
      requires Valid() && resume != [] && |active.seqs| < server.maxSlots
      modifies Repr()
      ensures Valid() && Setting().blockSize >= 1
      ensures more == Resumes(Setting(), old(Now()), loads)
      ensures Now() == if more then ResumeTop(old(Now()), Returner(Setting(), old(Now()))) else old(Now())
      ensures var top := old(resume)[|old(resume)| - 1];
        more <==> loads && !LacksBlocks(Setting(), old(active.seqs), |top.tokens|, Left(top))
      ensures more ==>
        && resume == old(resume)[..|old(resume)| - 1] && queue == old(queue)
        && |active.seqs| == |old(active.seqs)| + 1 && old(active.seqs) <= active.seqs
        && Reseated(Setting(), old(Now()), Now(), |old(active.seqs)|)
    {
      hide LlamaDecoder.Valid, Inv, Sound, Guaranteed, Slack, FreeSlot, Reseated, LacksBlocks;
      ghost var env, before := Setting(), Now();
      InvFacts(env, before);
      OneReturns(env, before, loads);
      if !loads {
        return false;
      }
      var candidate := resume[|resume| - 1];
      CandidateLeft(env, before);
      var guaranteed, slack := Guarantee(|candidate.tokens|, candidate.maxGen - candidate.generated);
      if guaranteed > slack {
        return false;
      }
      ResumesKeepsInv(env, before, loads);
      ResumeWaits(env, before);
      resume := resume[..|resume| - 1];
      Enter(candidate.tokens, candidate.generated, candidate.maxGen, guaranteed, candidate.extra);
      more := true;
      assert Now() == ResumeTop(before, Returner(env, before));
    }

    /** Evicted sequences re-enter, the latest first, while there is a slot, the model, and blocks. */
    method ResumeEvicted(loads: bool) returns (ghost n: nat)
      requires Valid()
      modifies Repr()
      ensures Valid() && Setting().blockSize >= 1
      ensures Now() == ResumeAll(Setting(), old(Now()), loads)
      ensures Returned(Setting(), old(Now()), loads, Now(), n)
    {
      assert Setting().blockSize >= 1;
      n := StackReturned(Setting(), Now(), loads);
      hide Valid, Inv, Returner, Resumes, ResumeTop, Returned, LacksBlocks, Reseated;
      while resume != [] && |active.seqs| < server.maxSlots
        invariant Valid()
        invariant ResumeAll(Setting(), Now(), loads) == ResumeAll(Setting(), old(Now()), loads)
        decreases |resume|
      {
        var more := ResumeNext(loads);
        if !more {
          break;
        }
      }
    }

    /** Answer the job at the front of the queue without running it. */
    method Reject(error: InferenceError)
      requires Valid() && queue != []
      modifies this
      ensures Valid() && Now() == AnswerFront(old(Now()), error)
    {
      hide LlamaDecoder.Valid, Inv, Truthful, NobodyWaits, Numbered;
      ghost var before := Now();
      assert this !in decoder.Repr();
      AnswerKeepsInv(Setting(), before, error);
      answers := answers + [(queue[0].ticket, error)];
      queue := queue[1..];
      assert Now() == AnswerFront(before, error);
    }

    /** Admit a job that fits: it leaves the queue, gets an id and a lane, and its delivery is handed
        to the emission thread. */
    method Accept(tokens: seq<Token>, maxGen: nat, guaranteed: nat, ghost refused: set<Ticket>, ghost cancelled: set<Ticket>)
      requires Valid() && queue != [] && |active.seqs| < server.maxSlots && Setting().blockSize >= 1
      requires Judge(Setting(), active.seqs, queue[0], refused, cancelled) == Verdict.Enter(Job(queue[0].ticket, tokens, maxGen), guaranteed)
      modifies Repr()
      ensures Valid() && queue == old(queue)[1..]
      ensures Now() == AdmitFront(old(Now()), Job(old(queue)[0].ticket, tokens, maxGen), Newcomer(Setting(), old(Now()), Job(old(queue)[0].ticket, tokens, maxGen), guaranteed))
    {
      hide LlamaDecoder.Valid, Inv, Sound, Judge, FreeSlot;
      ghost var env, before := Setting(), Now();
      ghost var job := Job(queue[0].ticket, tokens, maxGen);
      InvFacts(env, before);
      EnterKeepsInv(env, before, refused, cancelled);
      EntryWaits(env, before, job, guaranteed);
      var ticket := queue[0].ticket;
      queue := queue[1..];
      var id := nextId;
      nextId := nextId + 1;
      events := events + [Admitted(id, ticket)];
      Enter(tokens, 0, maxGen, guaranteed, JobMeta(id, ticket, false, false));
      jobs := jobs + [job];
      assert Now() == AdmitFront(before, job, Newcomer(env, before, job, guaranteed));
    }

    /** Decide the job at the front of the queue: admit it, answer it, or let it wait. */
    method AdmitNext(refused: set<Ticket>, cancelled: set<Ticket>) returns (more: bool)
      requires Valid() && queue != [] && |active.seqs| < server.maxSlots
      modifies Repr()
      ensures Valid() && Setting().blockSize >= 1
      ensures match Judge(Setting(), old(active.seqs), old(queue)[0], refused, cancelled)
        case Wait => !more && Now() == old(Now())
        case Answer(error) => more && Now() == AnswerFront(old(Now()), error)
        case Enter(job, reservation) => more && Now() == AdmitFront(old(Now()), job, Newcomer(Setting(), old(Now()), job, reservation))
      ensures more ==> |queue| < |old(queue)|
      ensures var cause := Cause(Setting(), old(queue)[0], refused, cancelled);
        && (cause.Some? ==>
              && more && queue == old(queue)[1..] && answers == old(answers) + [(old(queue)[0].ticket, cause.value)]
              && active.seqs == old(active.seqs) && events == old(events))
        && (cause.None? ==> (!more <==> MustWait(Setting(), old(active.seqs), old(queue)[0], refused, cancelled)))
        && (cause.None? && more ==>
              && queue == old(queue)[1..] && answers == old(answers)
              && |active.seqs| == |old(active.seqs)| + 1 && old(active.seqs) <= active.seqs
              && Seated(Setting(), old(Now()), Now(), |old(active.seqs)|, [old(queue)[0]]))
    {
      hide LlamaDecoder.Valid, Inv, Sound, Guaranteed, Slack, Newcomer, Cause, MustWait, Seated;
      InvFacts(Setting(), Now());
      OneDecided(Setting(), Now(), refused, cancelled);
      var front := queue[0];
      if front.ticket in cancelled {
        Reject(Cancelled);
        return true;
      }
      if front.ticket in refused {
        Reject(LoadError);
        return true;
      }
      var tokens := server.tokenize(front.task);
      if tokens.None? {
        Reject(TokenizeError);
        return true;
      }
      var maxGen := match front.maxTokens
        case Some(requested) => Min(requested, server.maxGenTokens)
        case None => server.maxGenTokens;
      var kv := Capacity();
      var need := CeilDiv(Min(|tokens.value| + maxGen, decoder.cache.maxSeqLen), kv.blockSize);
      if need > kv.totalBlocks {
        Reject(KvPoolExhausted(need - kv.totalBlocks));
        return true;
      }
      var guaranteed, slack := Guarantee(|tokens.value|, maxGen);
      if guaranteed > slack {
        return false;
      }
      Accept(tokens.value, maxGen, guaranteed, refused, cancelled);
      more := true;
    }

    /** Take jobs off the queue while there is room, first come, first served. */
    method AdmitQueued(refused: set<Ticket>, cancelled: set<Ticket>) returns (ghost taken: nat)
      requires Valid()
      modifies Repr()
      ensures Valid() && Setting().blockSize >= 1
      ensures Now() == AdmitQueue(Setting(), old(Now()), refused, cancelled)
      ensures Served(Setting(), old(Now()), refused, cancelled, Now(), taken)
    {
      hide LlamaDecoder.Valid, Inv, Sound, Judge, AdmitFront, Newcomer, Served, Cause, MustWait, Seated;
      InvFacts(Setting(), Now());
      taken := QueueServed(Setting(), Now(), refused, cancelled);
      while |active.seqs| < server.maxSlots
        invariant Valid()
        invariant AdmitQueue(Setting(), Now(), refused, cancelled) == AdmitQueue(Setting(), old(Now()), refused, cancelled)
        decreases |queue|
      {
        if |queue| == 0 {
          break;
        }
        var more := AdmitNext(refused, cancelled);
        if !more {
          break;
        }
      }
    }

    // ---- The step ----

    /** A fired signal finishes its sequence this round. */
    method SweepCancelled(cancelled: set<Ticket>)
      modifies active, this`fired
      ensures active.seqs == SweepAll(old(active.seqs), cancelled) && fired == old(fired) + cancelled
    {
      fired := fired + cancelled;
      ghost var seqs0 := active.seqs;
      for i := 0 to |active.seqs|
        invariant |active.seqs| == |seqs0| && fired == old(fired) + cancelled
        invariant forall k :: 0 <= k < i ==> active.seqs[k] == Sweep(seqs0[k], cancelled)
        invariant forall k :: i <= k < |seqs0| ==> active.seqs[k] == seqs0[k]
      {
        var s := active.seqs[i];
        if !s.finished && s.extra.ticket in cancelled {
          active.seqs := active.seqs[i := s.(finished := true, extra := s.extra.(cancelled := true))];
        }
      }
    }

    /** One outcome: a failure is sent at once, a token joins the round's, a stop token is only noted. */
    method ShipOne(i: nat, outcome: StepOutcome, before: seq<(nat, seq<Byte>)>) returns (roundTokens: seq<(nat, seq<Byte>)>)
      requires i < |active.seqs|
      modifies active, this`events
      ensures active.seqs == old(active.seqs)[i := Noted(old(active.seqs)[i], outcome)]
      ensures events == old(events) + FailureOf(old(active.seqs)[i], outcome)
      ensures roundTokens == before + TokenOf(server, old(active.seqs)[i], outcome)
    {
      var s := active.seqs[i];
      roundTokens := before;
      match outcome {
        case Stepped(token, isStop, _) =>
          if isStop {
            active.seqs := active.seqs[i := s.(extra := s.extra.(hitStop := true))];
          } else {
            roundTokens := roundTokens + [(s.extra.id, server.bytes(token))];
          }
        case Failed(error) => events := events + [Retire(s.extra.id, Err(error))];
        case Skipped =>
        case Prefilling =>
      }
    }

    /** Send the round's failures as they come and its tokens as one event. */
    method Ship(outcomes: seq<StepOutcome>)
      requires |outcomes| == |active.seqs|
      modifies active, this`events
      ensures active.seqs == NotedAll(old(active.seqs), outcomes)
      ensures events == old(events) + RoundEvents(server, old(active.seqs), outcomes)
      ensures forall i :: |old(events)| <= i < |events| ==> if events[i].Tokens? then i == |events| - 1 else events[i].Retire? && events[i].reply.Err?
    {
      RoundIsOneEvent(server, active.seqs, outcomes);
      hide Noted, FailureOf, TokenOf;
      ghost var seqs0 := active.seqs;
      var roundTokens: seq<(nat, seq<Byte>)> := [];
      for i := 0 to |outcomes|
        invariant |active.seqs| == |seqs0|
        invariant forall k :: 0 <= k < i ==> active.seqs[k] == Noted(seqs0[k], outcomes[k])
        invariant forall k :: i <= k < |seqs0| ==> active.seqs[k] == seqs0[k]
        invariant events == old(events) + FailEvents(seqs0, outcomes, i)
        invariant roundTokens == RoundTokens(server, seqs0, outcomes, i)
      {
        roundTokens := ShipOne(i, outcomes[i], roundTokens);
      }
      if roundTokens != [] {
        events := events + [EmissionEvent.Tokens(roundTokens)];
      }
    }

    /** Drop the finished sequences, each with its reply. */
    method RetireFinished() returns (freed: seq<nat>, ghost stay: seq<nat>, ghost go: seq<nat>)
      modifies active, this`events
      ensures old(events) <= events
      ensures Staying(old(active.seqs), stay, active.seqs) && Going(old(active.seqs), go, freed, events[|old(events)|..])
      ensures active.seqs == Unfinished(old(active.seqs)) && freed == FreedSlots(old(active.seqs))
      ensures events == old(events) + RetireEvents(old(active.seqs))
    {
      var kept: seq<JobSeq> := [];
      freed := [];
      for i := 0 to |active.seqs|
        invariant active.seqs == old(active.seqs)
        invariant kept == Unfinished(active.seqs[..i]) && freed == FreedSlots(active.seqs[..i])
        invariant events == old(events) + RetireEvents(active.seqs[..i])
      {
        var s := active.seqs[i];
        assert active.seqs[..i + 1][..i] == active.seqs[..i];
        if s.finished {
          freed := freed + [s.slot];
          var reason := if s.extra.cancelled then Aborted else if s.extra.hitStop then Stop else if s.generated >= s.maxGen then Length else Stop;
          events := events + [Retire(s.extra.id, Ok(reason, s.generated))];
        } else {
          kept := kept + [s];
        }
      }
      assert active.seqs[..|active.seqs|] == active.seqs;
      stay, go := WhoRetires(active.seqs);
      assert events[|old(events)|..] == RetireEvents(active.seqs);
      active.seqs := kept;
    }

    /** Hand every retired slot back: its lane is emptied in the decoder. */
    method ReleaseAll(freed: seq<nat>)
      requires decoder.Valid()
      modifies decoder.Repr()
      ensures decoder.Valid() && Released(old(decoder.lanes), decoder.lanes, freed)
    {
      hide LlamaDecoder.Valid;
      for i := 0 to |freed|
        invariant decoder.Valid() && Released(old(decoder.lanes), decoder.lanes, freed[..i])
      {
        assert freed[..i + 1] == freed[..i] + [freed[i]];
        decoder.Release(freed[i]);
      }
      assert freed[..|freed|] == freed;
    }

    /** The model is gone: answer everybody who was running with the load error. A fresh load starts
        with empty lanes. */
    method FailActive()
      requires decoder.Valid()
      modifies active, this`events, decoder.Repr()
      ensures decoder.Valid() && Now() == LoadFailed(old(Now()))
    {
      hide LlamaDecoder.Valid;
      for i := 0 to |active.seqs|
        invariant active.seqs == old(active.seqs) && decoder.Valid() && decoder.lanes == old(decoder.lanes)
        invariant events == old(events) + FailEvents(active.seqs, AllFailed(active.seqs), i)
      {
        events := events + [Retire(active.seqs[i].extra.id, Err(LoadError))];
      }
      active.seqs := [];
      decoder.Reset();
      assert Now() == LoadFailed(old(Now()));
    }

    /** Settle who may grow before the round runs. */
    method Grant() returns (ghost kept: seq<nat>, ghost evicted: seq<JobSeq>, ghost gone: seq<nat>)
      requires decoder.Valid() && InLockstep(active.seqs, decoder.lanes) && Reservations(active.seqs) <= decoder.TotalBlocks()
      modifies active, this`resume, decoder.Repr()
      ensures decoder.Valid()
      ensures var g := Start(old(active.seqs), old(decoder.lanes), old(resume), decoder.BlockSize(), decoder.TotalBlocks(), decoder.cache.maxSeqLen);
        Steady(g, active.seqs, decoder.lanes, resume, kept, evicted) && Deciding(g, active.seqs, evicted, |active.seqs|)
        && ToppedUp(g, active.seqs) && Frugal(g, active.seqs, kept, evicted, |active.seqs|) && Falling(g, kept, evicted, gone)
    {
      hide LlamaDecoder.Valid, Steady, Deciding, ToppedUp, Frugal, Falling, InLockstep, Reservations;
      var kv := Capacity();
      var waiting;
      waiting, kept, evicted, gone := GrantKvGrowth(kv, decoder.cache.maxSeqLen, active, resume, decoder);
      resume := waiting;
    }

    /** One round of the shared decode core, under this server's settings. */
    method RunRound() returns (outcomes: seq<StepOutcome>, ghost r: Round<JobMeta>)
      requires decoder.Valid() && InLockstep(active.seqs, decoder.lanes)
      modifies active, decoder.Repr()
      ensures decoder.Valid() && |outcomes| == |active.seqs|
      ensures r.seqs == old(active.seqs) && r.lanes == old(decoder.lanes)
      ensures r.blockSize == decoder.BlockSize() && r.totalBlocks == decoder.TotalBlocks() && r.ctx == decoder.cache.maxSeqLen
      ensures r.stops == server.stops && r.model == decoder.model && r.sample == server.sample && r.chunk == server.chunk
      ensures r.budget == if server.prefillBudget > 0 && SomebodyDecodes(r.seqs) then Some(server.prefillBudget) else None
      ensures r.blockSize >= 1 && Promised(r.seqs, r.lanes, r.blockSize, r.totalBlocks, r.ctx) ==> r.promised
      ensures Completed(r, active.seqs, outcomes, decoder.lanes)
    {
      hide LlamaDecoder.Valid, InLockstep, Promised;
      var budget := new PrefillBudget.ForRound(active.seqs, server.prefillBudget);
      outcomes, r := StepRound(decoder, active, server.stops, budget, server.chunk, server.sample);
    }

    /** Run one round and deal with its results: sweep, grant, step, ship, retire. */
    method Step(loads: bool, cancelled: set<Ticket>) returns (ghost t: Option<StepTrace>)
      requires Valid()
      modifies Repr()
      ensures Valid()
      ensures t.Some? <==> old(active.seqs) != [] && loads
      ensures old(active.seqs) == [] ==> Now() == old(Now())
      ensures old(active.seqs) != [] && !loads ==>
        Now() == LoadFailed(Swept(old(Now()), cancelled))
      ensures t.Some? ==> StepTaken(Setting(), old(Now()), cancelled, t.value, Now())
      ensures t.Some? ==> ErrorsFrom(events, |old(events)|, Setting(), true)
      ensures t.Some? ==> forall k :: 0 <= k < |old(active.seqs)| && old(active.seqs)[k].extra.ticket in cancelled ==>
        var s := old(active.seqs)[k]; var d := Track(old(events), s.extra.id);
        d.Live? && Track(events, s.extra.id) == Done(d.ticket, d.sent, Ok(Aborted, s.generated))
      ensures old(active.seqs) != [] && !loads ==>
        && active.seqs == [] && |events| == |old(events)| + |old(active.seqs)| && old(events) <= events
        && forall k :: |old(events)| <= k < |events| ==> events[k] == Retire(old(active.seqs)[k - |old(events)|].extra.id, Err(LoadError))
      ensures old(active.seqs) != [] ==> Advances(old(Now()), Now())
    {
      hide LlamaDecoder.Valid, Inv, Sound, SweepAll, Steady, Deciding, ToppedUp, Frugal, Completed, Promised, Released, Unfinished, RoundEvents, RetireEvents, FreedSlots, NotedAll, StepTaken, Advances, ErrorsFrom, FailEvents, Track;
      t := None;
      if |active.seqs| == 0 {
        return;
      }
      ghost var env, before := Setting(), Now();
      SweepCancelled(cancelled);
      if !loads {
        LoadFailureIsFinal(env, before, cancelled);
        SweptFailures(before, cancelled);
        FailActive();
        return;
      }
      ghost var taken;
      taken := StepLoaded(before, cancelled);
      t := Some(taken);
      StepKeepsInv(env, before, cancelled, taken, Now());
      StepStaysSound(env, before, cancelled, taken, Now());
      StepMakesProgress(env, before, cancelled, taken, Now());
      StepErrors(env, before, cancelled, taken, Now());
      CancelsAreHonoured(env, before, cancelled, taken, Now());
    }

    /** The part of a step that needs the model. */
    method StepLoaded(ghost before: State, ghost cancelled: set<Ticket>) returns (ghost t: StepTrace)
      requires decoder.Valid() && Inv(Setting(), before)
      requires Now() == Swept(before, cancelled)
      modifies active, this`resume, this`events, decoder.Repr()
      ensures decoder.Valid()
      ensures StepTaken(Setting(), before, cancelled, t, Now())
    {
      hide LlamaDecoder.Valid, Inv, SweepAll, Steady, Deciding, ToppedUp, Frugal, Completed, Promised, Released, Unfinished, RoundEvents, RetireEvents, FreedSlots, NotedAll;
      ghost var env := Setting();
      SweptFacts(env, before, cancelled);
      ghost var kept, evicted, gone;
      kept, evicted, gone := Grant();
      ghost var granted, lanes := active.seqs, decoder.lanes;
      GrantedFacts(GrantStart(env, before, cancelled), granted, lanes, resume, kept, evicted);
      var outcomes;
      ghost var r;
      outcomes, r := RunRound();
      t := StepTrace(granted, lanes, resume, kept, evicted, r, active.seqs, outcomes, decoder.lanes);
      Ship(outcomes);
      ghost var stay, go;
      var freed;
      freed, stay, go := RetireFinished();
      ReleaseAll(freed);
    }

    // ---- A turn ----

    /** One lifecycle command between rounds. Unload and clear-state look at the active set and the
        queue, not at evicted jobs; those hold no lane, so nothing they need is lost. */
    method HandleCommand(command: Command) returns (stop: bool, refused: bool)
      requires Valid()
      modifies Repr()
      ensures Valid() && Now() == Commanded(old(Now()), command)
      ensures queue == old(queue) + (if command.Submit? then [command.job] else [])
      ensures submitted == old(submitted) + (if command.Submit? then [command.job.ticket] else [])
      ensures Now() == old(Now()).(queue := queue, submitted := submitted)
      ensures stop <==> command == Quit
      ensures stop ==> Now() == old(Now())
      ensures refused <==> (command.Unload? || command.ClearState?) && (old(active.seqs) != [] || old(queue) != [])
    {
      hide LlamaDecoder.Valid, Inv, Truthful, NobodyWaits, Numbered;
      ghost var env, before := Setting(), Now();
      assert this !in decoder.Repr() && active !in decoder.Repr();
      stop, refused := false, false;
      match command {
        case Submit(job) =>
          SubmitKeepsInv(env, before, job);
          queue := queue + [job];
          submitted := submitted + [job.ticket];
        case Unload =>
          refused := ClearLanes();
        case ClearState =>
          refused := ClearLanes();
        case Query =>
        case Quit => stop := true;
      }
      assert Now() == Commanded(before, command);
    }

    /** Drop the decoder's state, unless work is in flight. */
    method ClearLanes() returns (refused: bool)
      requires Valid()
      modifies decoder.Repr()
      ensures decoder.Valid() && Now() == old(Now())
      ensures refused <==> active.seqs != [] || queue != []
    {
      hide LlamaDecoder.Valid, Inv, Sound;
      if |active.seqs| == 0 && |queue| == 0 {
        IdleLanesAreEmpty(Setting(), Now());
        decoder.Reset();
        assert decoder.lanes == old(decoder.lanes);
        return false;
      }
      return true;
    }

    /** Take in what is waiting on the command channel. */
    method TakeIn(commands: seq<Command>) returns (stop: bool)
      requires Valid()
      modifies Repr()
      ensures Valid() && Now() == Intake(old(Now()), BeforeQuit(commands))
      ensures queue == old(queue) + Arrivals(BeforeQuit(commands))
      ensures Now() == old(Now()).(queue := queue, submitted := submitted)
      ensures stop <==> Quit in commands
    {
      IntakeQueues(Now(), BeforeQuit(commands));
      hide LlamaDecoder.Valid, Inv, Sound, Commanded, Arrivals;
      ghost var seen := BeforeQuit(commands);
      for i := 0 to |commands|
        invariant Valid() && i <= |seen|
        invariant Now() == Intake(old(Now()), seen[..i])
      {
        var refused;
        stop, refused := HandleCommand(commands[i]);
        if stop {
          assert i == |seen| by {
            assert forall k :: 0 <= k < |seen| ==> seen[k] == commands[k] != Quit;
          }
          assert seen[..i] == seen;
          return;
        }
        assert seen[..i + 1][..i] == seen[..i];
      }
      assert seen == commands && seen[..|seen|] == seen;
      stop := false;
    }

    /** One turn of the worker loop. With nothing to do and no command to come, the channel's senders
        are gone and the worker stops. */
    method Iterate(commands: seq<Command>, signals: Signals) returns (flow: Flow, ghost t: Option<StepTrace>)
      requires Valid()
      modifies Repr()
      ensures Valid() && Setting().blockSize >= 1
      ensures flow == Shutdown <==>
        || Quit in commands
        || (commands == [] && old(active.seqs) == [] && (server.maxSlots == 0 || (old(queue) == [] && old(resume) == [])))
      ensures flow == Shutdown ==> Now() == Intake(old(Now()), BeforeQuit(commands))
      ensures flow == Continue ==>
        StepDone(Setting(), AfterAdmission(Setting(), Intake(old(Now()), commands), signals), signals.loadsForRound, signals.cancelledActive, t, Now())
      ensures fired <= old(fired) + signals.cancelledActive
    {
      hide LlamaDecoder.Valid, Inv, Sound, StepTaken, Advances, SweepAll, AdmitQueue, ResumeAll;
      t := None;
      IntakeFires(Now(), BeforeQuit(commands));
      InvFacts(Setting(), Now());
      var canAdmit := (|queue| > 0 || |resume| > 0) && server.maxSlots > |active.seqs|;
      if |active.seqs| == 0 && !canAdmit && |commands| == 0 {
        return Shutdown, t;
      }
      var stop := TakeIn(commands);
      if stop {
        return Shutdown, t;
      }
      ghost var taken := Now();
      ghost var n := ResumeEvicted(signals.loadsForResume);
      AdmissionFires(Setting(), taken, signals);
      ghost var served := AdmitQueued(signals.refused, signals.cancelledQueued);
      ghost var admitted := Now();
      t := Step(signals.loadsForRound, signals.cancelledActive);
      StepFires(Setting(), admitted, signals.loadsForRound, signals.cancelledActive, t, Now());
      flow := Continue;
    }

    // ---- Whole runs ----

    /** Any number of turns, whatever commands and signals they meet: the invariant holds throughout,
        so in every reachable state every job's delivery is the beginning of its solo run. The run ends
        early only when the worker was told to stop or nobody is left to wake it. */
    method Run(script: seq<(seq<Command>, Signals)>) returns (turns: nat, quit: bool)
      requires Valid()
      modifies Repr()
      ensures Valid() && turns <= |script|
      ensures forall id :: 0 <= id < |jobs| ==> Delivered(id)
      ensures forall x :: x in fired ==> x in old(fired) || exists i :: 0 <= i < |script| && x in script[i].1.cancelledActive
      ensures quit ==> exists i :: 0 <= i < |script| && Quit in script[i].0
      ensures turns < |script| && !quit && server.maxSlots >= 1 ==> Outstanding(Now()) == 0
    {
      hide Inv, Sound, LlamaDecoder.Valid;
      turns, quit := 0, false;
      while turns < |script|
        invariant Valid() && turns <= |script| && !quit
        invariant forall x :: x in fired ==> x in old(fired) || exists i :: 0 <= i < turns && x in script[i].1.cancelledActive
      {
        var flow;
        ghost var t;
        flow, t := Iterate(script[turns].0, script[turns].1);
        if flow == Shutdown {
          quit := Quit in script[turns].0;
          if !quit {
            assert BeforeQuit(script[turns].0) == script[turns].0 == [];
          }
          AllDelivered();
          return;
        }
        turns := turns + 1;
      }
      AllDelivered();
    }

    lemma AllDelivered()
      requires Valid()
      ensures forall id :: 0 <= id < |jobs| ==> Delivered(id)
    {
      hide Inv, NobodyWaits, Numbered, LlamaDecoder.Valid, BeginningOfSolo, Truthful, OwnFault, Signalled;
      forall id | 0 <= id < |jobs|
        ensures Delivered(id)
      {
        SchedulingIsInvisible(Setting(), Now(), id);
        if Track(events, id).Done? && Track(events, id).reply.Err? {
          RepliesTruthful(Setting(), events, id);
        }
        if Track(events, id).Done? && Track(events, id).reply.Ok? && Track(events, id).reply.reason == Aborted {
          RepliesSignalled(events, jobs, fired, id);
        }
      }
    }

    /** What job `id`'s caller has been sent is the beginning of its solo run, and all of it once the
        job is answered without a cancel or an error; and only a signalled job is told it was cancelled. */
    ghost predicate Delivered(id: nat)
      requires id < |jobs|
      reads this
    {
      var d := Track(events, id);
      && !d.Unknown? && d.ticket == jobs[id].ticket
      && BeginningOfSolo(Setting(), jobs[id], d.sent)
      && (d.Done? ==> Faithful(Setting(), jobs[id], d.sent, d.reply) && (d.reply.Err? ==> OwnFault(Setting(), d.reply.error)))
      && (d.Done? && d.reply.Ok? && d.reply.reason == Aborted ==> jobs[id].ticket in fired)
    }

    /** With no new submissions and at least one slot, the worker answers every job: no matter which
        sequences are paused, evicted and resumed on the way, which are cancelled, which housekeeping
        commands come in between, or how often the model fails to load, as long as evicted jobs are not
        refused it forever. */
    method Drain(commands: nat -> seq<Command>, signals: nat -> Signals, ghost patience: nat -> nat)
      returns (turns: nat)
      requires Valid() && server.maxSlots >= 1
      requires forall n: nat :: Housekeeping(commands(n))
      requires forall n: nat :: signals(n).loadsForResume || patience(n + 1) < patience(n)
      modifies Repr()
      ensures Valid() && Outstanding(Now()) == 0
      ensures submitted == old(submitted)
      ensures forall id :: 0 <= id < |jobs| ==> Answered(Setting(), jobs, events, id) && Delivered(id)
      ensures forall x :: x in fired ==> x in old(fired) || exists n: nat :: n < turns && x in signals(n).cancelledActive
      ensures multiset(submitted) == multiset(AnswerTickets(answers)) + multiset(JobTickets(jobs))
    {
      hide Inv, Sound, LlamaDecoder.Valid, Delivered;
      turns := 0;
      while |queue| + |resume| + |active.seqs| > 0
        invariant Valid() && submitted == old(submitted)
        invariant forall x :: x in fired ==> x in old(fired) || exists n: nat :: n < turns && x in signals(n).cancelledActive
        decreases Outstanding(Now()), Idleness(active.seqs), Ahead(active.seqs), patience(turns)
      {
        var flow;
        ghost var before := Now();
        ghost var t;
        HousekeepingChangesNothing(before, commands(turns));
        flow, t := Iterate(commands(turns), signals(turns));
        if active.seqs != [] {
          RemainingIsNat(Setting(), Now());
        }
        TurnMakesProgress(Setting(), before, signals(turns), t, Now());
        turns := turns + 1;
      }
      DrainedIsAnswered(Setting(), Now());
      AllDelivered();
    }
  }

  /** What a failed load sends, in terms of who was running. */
  lemma SweptFailures(before: State, cancelled: set<Ticket>)
    ensures var after := LoadFailed(Swept(before, cancelled));
      && after.active == [] && |after.events| == |before.events| + |before.active| && before.events <= after.events
      && forall k :: |before.events| <= k < |after.events| ==>
           after.events[k] == Retire(before.active[k - |before.events|].extra.id, Err(LoadError))
  {
    var swept := SweepAll(before.active, cancelled);
    LoadFailuresInOrder(swept, |swept|);
    hide FailEvents;
  }

  lemma CancelsAreHonoured(env: Env, before: State, cancelled: set<Ticket>, t: StepTrace, after: State)
    requires Inv(env, before) && StepTaken(env, before, cancelled, t, after)
    ensures forall k :: 0 <= k < |before.active| && before.active[k].extra.ticket in cancelled ==>
      var s := before.active[k]; var d := Track(before.events, s.extra.id);
      d.Live? && Track(after.events, s.extra.id) == Done(d.ticket, d.sent, Ok(Aborted, s.generated))
  {
    hide Inv, StepTaken, Track;
    forall k | 0 <= k < |before.active| && before.active[k].extra.ticket in cancelled
      ensures var s := before.active[k]; var d := Track(before.events, s.extra.id);
        d.Live? && Track(after.events, s.extra.id) == Done(d.ticket, d.sent, Ok(Aborted, s.generated))
    {
      CancelIsHonoured(env, before, cancelled, t, after, k);
    }
  }

  lemma {:induction false} IntakeFires(st: State, commands: seq<Command>)
    ensures Intake(st, commands).fired == st.fired
  {
    if commands != [] {
      IntakeFires(st, commands[..|commands| - 1]);
    }
  }

  lemma AdmissionFires(env: Env, st: State, signals: Signals)
    requires Inv(env, st)
    ensures env.blockSize >= 1 && AfterAdmission(env, st, signals).fired == st.fired
  {
    var resumed := ResumeAll(env, st, signals.loadsForResume);
    ResumeAllKeepsInv(env, st, signals.loadsForResume);
    AdmitQueueKeepsInv(env, resumed, signals.refused, signals.cancelledQueued);
    hide AdmitQueue, ResumeAll;
  }

  /** A step remembers no signal but its own. */
  lemma StepFires(env: Env, before: State, loads: bool, cancelled: set<Ticket>, t: Option<StepTrace>, after: State)
    requires StepDone(env, before, loads, cancelled, t, after)
    ensures after.fired <= before.fired + cancelled
  {
    hide Granted, Rounded, Released, SweepAll, Advances, FailEvents, RoundEvents, RetireEvents, Unfinished;
  }

  /** Nobody is running: an idle worker is further from done than any busy one. */
  function Idleness(active: seq<JobSeq>): nat {
    if active == [] then 1 else 0
  }

  function Ahead(active: seq<JobSeq>): int {
    if active == [] then 0 else Remaining(active[0])
  }

  lemma StartsInv(env: Env, lanes: seq<seq<Token>>)
    requires env.blockSize >= 1 && env.server.maxSlots <= |lanes|
    requires forall l :: 0 <= l < |lanes| ==> lanes[l] == []
    ensures Inv(env, State([], [], [], lanes, [], [], [], [], {}))
  {
    assert Slots<JobMeta>([]) == [] && Ids([]) == [] && ParkedIds([]) == [];
    assert QueueTickets([]) == [] && AnswerTickets([]) == [] && JobTickets([]) == [];
  }

  lemma CandidateLeft(env: Env, st: State)
    requires Inv(env, st) && st.resume != []
    ensures st.resume[|st.resume| - 1].generated <= st.resume[|st.resume| - 1].maxGen
  {
    assert ParkedOk(env, st.jobs, st.events, st.resume[|st.resume| - 1]);
  }

  lemma ResumeWaits(env: Env, st: State)
    requires env.blockSize >= 1 && st.resume != [] && Sound(env, st)
    ensures Sound(env, ResumeTop(st, Returner(env, st)))
  {
    hide Truthful, Numbered;
  }

  lemma InvFacts(env: Env, st: State)
    requires Inv(env, st)
    ensures env.blockSize >= 1 && env.server.maxSlots <= |st.lanes| && Reservations(st.active) <= env.totalBlocks
  {
  }

  lemma EntryWaits(env: Env, st: State, job: Job, reservation: nat)
    requires st.queue != [] && Sound(env, st)
    ensures Sound(env, AdmitFront(st, job, Newcomer(env, st, job, reservation)))
  {
    NumberedAdmit(st.events, |st.jobs|, job.ticket);
    hide Numbered, OwnFault;
  }

  lemma SweptFacts(env: Env, before: State, cancelled: set<Ticket>)
    requires Inv(env, before)
    ensures var swept := SweepAll(before.active, cancelled);
      InLockstep(swept, before.lanes) && Reservations(swept) <= env.totalBlocks
  {
    SweepKeepsRunning(env, before, cancelled);
    hide SweepAll;
  }

  lemma GrantedFacts(g: Start, seqs: seq<JobSeq>, lanes: seq<seq<Token>>, resume: seq<ResumedJob>, kept: seq<nat>, evicted: seq<JobSeq>)
    requires Steady(g, seqs, lanes, resume, kept, evicted)
    ensures InLockstep(seqs, lanes)
  {
  }

  lemma LoadFailureIsFinal(env: Env, before: State, cancelled: set<Ticket>)
    requires Inv(env, before) && before.active != []
    ensures var after := LoadFailed(Swept(before, cancelled));
      && Inv(env, after) && Advances(before, after)
      && (Sound(env, before) ==> Sound(env, after))
  {
    var swept := Swept(before, cancelled);
    SweepKeepsRunning(env, before, cancelled);
    hide SweepAll, Running, Inv;
    LoadFailureQuiet(env, swept);
    LoadFailuresTruthful(env, swept.active, |swept.active|);
    if Sound(env, before) {
      FailuresAdmitNobody(swept.active, AllFailed(swept.active), |swept.active|);
      FailuresSignalled(swept.active, AllFailed(swept.active), |swept.active|, before.jobs, swept.fired);
      SignalledAppend(before.events, FailEvents(swept.active, AllFailed(swept.active), |swept.active|), before.jobs, before.fired, swept.fired);
      NumberedAppend(before.events, FailEvents(swept.active, AllFailed(swept.active), |swept.active|), |before.jobs|);
    }
    hide Numbered;
  }
}
