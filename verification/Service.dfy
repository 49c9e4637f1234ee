/** The worker and the emission thread together: what each caller finally sees. */
module Service {
  import opened Wrappers
  import opened Decoders
  import opened Batching
  import opened Errors
  import opened Events
  import opened Serving
  import opened Admission
  import opened Progress
  import opened Workers
  import opened Utf8
  import opened Emissions

  /** The text a job produces when it runs alone. */
  function SoloText(env: Env, job: Job): Text {
    LossyDecode(Detok(env, Solo(env, job.prompt, job.maxGen)))
  }

  /** What a caller may be told: its text is the decoding of the bytes of a beginning of its solo run;
      unless it cancelled or the job failed, of the whole run, with the run's own reason; and that it
      cancelled only if its signal fired. */
  ghost predicate Honest(env: Env, job: Job, fired: set<Ticket>, r: Report) {
    && r.ticket == job.ticket
    && (exists sent: seq<Byte> :: BeginningOfSolo(env, job, sent) && r.text == LossyDecode(sent))
    && (r.reply.Ok? && r.reply.reason != Aborted ==>
          && r.text == SoloText(env, job) && r.reply.reason == SoloReason(env, job.prompt, job.maxGen)
          && r.reply.generated == SoloLength(env, job.prompt, job.maxGen))
    && (r.reply.Ok? && r.reply.reason == Aborted ==>
          && job.ticket in fired && r.reply.generated <= |Solo(env, job.prompt, job.maxGen)|
          && r.text == LossyDecode(Detok(env, Solo(env, job.prompt, job.maxGen)[..r.reply.generated])))
    && (r.reply.Err? ==> OwnFault(env, r.reply.error) || r.reply.error == WorkerDied)
  }

  /** Whatever state the worker is in when its channel closes, each job it ever admitted gets exactly
      one report, and an honest one. */
  lemma OneHonestReport(env: Env, st: State, closing: seq<nat>, id: nat)
    requires Inv(env, st) && Sound(env, st) && id < |st.jobs|
    requires forall x: nat :: x in closing <==> Track(st.events, x).Live?
    ensures var mine := ReportsFor(Reports(st.events + Closing(closing)), id);
      |mine| == 1 && Honest(env, st.jobs[id], st.fired, mine[0])
  {
    var d := Track(st.events, id);
    SchedulingIsInvisible(env, st, id);
    EveryCallerAnswered(st.events, closing, id);
    if d.Done? && d.reply.Err? {
      RepliesTruthful(env, st.events, id);
    }
    if d.Done? && d.reply.Ok? && d.reply.reason == Aborted {
      RepliesSignalled(st.events, st.jobs, st.fired, id);
    }
    hide Inv, NobodyWaits, Truthful, Signalled, AdmittedOnce, BeginningOfSolo, Track, Reports, ReportsFor, Closing;
  }

  /** A whole service run: any script of turns; unless it told the worker to stop, turns without
      submissions until nobody waits; then the end of the channel. Every job ever admitted gets exactly
      one honest report, and every job ever submitted is admitted, answered from the queue, or, after a
      stop only, left in the queue whose channels die with the worker. */
  method Serve(worker: Worker, script: seq<(seq<Command>, Signals)>, commands: nat -> seq<Command>, signals: nat -> Signals, ghost patience: nat -> nat)
    returns (replies: seq<Report>)
    requires worker.Valid() && worker.server.maxSlots >= 1
    requires forall n: nat :: Housekeeping(commands(n))
    requires forall n: nat :: signals(n).loadsForResume || patience(n + 1) < patience(n)
    modifies worker.Repr()
    ensures worker.Valid()
    ensures multiset(worker.submitted) == multiset(QueueTickets(worker.queue)) + multiset(AnswerTickets(worker.answers)) + multiset(JobTickets(worker.jobs))
    ensures forall x :: x in worker.fired ==>
      || x in old(worker.fired) || (exists i :: 0 <= i < |script| && x in script[i].1.cancelledActive)
      || (exists n: nat :: x in signals(n).cancelledActive)
    ensures worker.queue != [] ==> exists i :: 0 <= i < |script| && Quit in script[i].0
    ensures forall id :: 0 <= id < |worker.jobs| ==>
      |ReportsFor(replies, id)| == 1 && Honest(worker.Setting(), worker.jobs[id], worker.fired, ReportsFor(replies, id)[0])
  {
    hide Inv, Sound, Honest, LlamaDecoder.Valid, Answered, Track, Reports, ReportsFor;
    var turns, quit := worker.Run(script);
    if !quit {
      turns := worker.Drain(commands, signals, patience);
    }
    InvAccounted(worker.Setting(), worker.Now());
    ghost var closing;
    replies, closing := Emissions.Run(worker.events);
    forall id | 0 <= id < |worker.jobs|
      ensures |ReportsFor(replies, id)| == 1 && Honest(worker.Setting(), worker.jobs[id], worker.fired, ReportsFor(replies, id)[0])
    {
      OneHonestReport(worker.Setting(), worker.Now(), closing, id);
    }
  }
}
